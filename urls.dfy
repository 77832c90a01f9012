/** The part of Python's `urllib.parse.urlparse` the crawler uses: the
    scheme, the network location and the path of a URL. Scheme detection,
    the `//` authority, the `#` fragment, the `?` query and the `;` parameters
    of the last path segment are split off as the library does. */
module Urls {
  import opened PyText

  datatype Parts = Parts(scheme: string, netloc: string, path: string)

  predicate IsSchemeChar(c: char) {
    IsLetter(c) || ('0' <= c <= '9') || c == '+' || c == '-' || c == '.'
  }

  /** The first index at or after `start` holding `c`, or `|s|`. */
  function FindFrom(s: string, c: char, start: nat): (i: nat)
    requires start <= |s|
    ensures start <= i <= |s|
    ensures i < |s| ==> s[i] == c
    ensures forall k :: start <= k < i ==> s[k] != c
    decreases |s| - start
  {
    if start == |s| then |s| else if s[start] == c then start else FindFrom(s, c, start + 1)
  }

  /** The last index holding `c`, or -1. */
  function LastIndexOf(s: string, c: char): (i: int)
    ensures -1 <= i < |s|
    ensures i >= 0 ==> s[i] == c
    ensures forall k :: i < k < |s| ==> s[k] != c
  {
    if s == [] then -1 else if s[|s| - 1] == c then |s| - 1 else LastIndexOf(s[..|s| - 1], c)
  }

  function Min(a: nat, b: nat): nat { if a <= b then a else b }

  /** The schemes whose last path segment may carry `;` parameters. */
  const UsesParams: set<string> :=
    {"", "ftp", "hdl", "prospero", "http", "imap", "https", "shttp", "rtsp",
     "rtspu", "rtsps", "sip", "sips", "mms", "sftp", "tel"}

  /** The first `i` characters may all appear in a scheme. */
  predicate SchemeChars(u: string, i: nat)
    requires i <= |u|
  {
    i == 0 || (IsSchemeChar(u[i - 1]) && SchemeChars(u, i - 1))
  }

  /** The scheme (lower-cased) and what follows its colon, or no scheme. */
  function SplitScheme(u: string): (string, string) {
    var i := FindFrom(u, ':', 0);
    if 0 < i < |u| && IsLetter(u[0]) && SchemeChars(u, i)
    then (Lower(u[..i]), u[i + 1..])
    else ("", u)
  }

  /** The authority after a leading `//`, ended by the first `/`, `?` or `#`. */
  function SplitNetloc(rest: string): (p: (string, string))
    ensures '/' !in p.0 && '?' !in p.0 && '#' !in p.0
  {
    if |rest| >= 2 && rest[..2] == "//" then
      var d := Min(Min(FindFrom(rest, '/', 2), FindFrom(rest, '?', 2)), FindFrom(rest, '#', 2));
      (rest[2..d], rest[d..])
    else ("", rest)
  }

  function StripParams(path: string, scheme: string): string {
    if scheme !in UsesParams || ';' !in path then path
    else
      var slash := LastIndexOf(path, '/');
      if slash >= 0 then path[..FindFrom(path, ';', slash)]
      else path[..FindFrom(path, ';', 0)]
  }

  function Parse(u: string): Parts {
    var (scheme, rest) := SplitScheme(u);
    var (netloc, tail) := SplitNetloc(rest);
    var noFragment := tail[..FindFrom(tail, '#', 0)];
    var noQuery := noFragment[..FindFrom(noFragment, '?', 0)];
    Parts(scheme, netloc, StripParams(noQuery, scheme))
  }

  /** `urlparse(u).netloc`: never holds a `/`, `?` or `#`. */
  function Netloc(u: string): (n: string)
    ensures '/' !in n && '?' !in n && '#' !in n
  {
    Parse(u).netloc
  }

  /** `urlparse(u).path` */
  function Path(u: string): string {
    Parse(u).path
  }

  /** `f"{parsed.scheme}://{parsed.netloc}"` */
  function Origin(u: string): string {
    Parse(u).scheme + "://" + Parse(u).netloc
  }

  /** A root-relative link glued onto `https://` and a domain that holds no
      URL delimiter parses back to that same domain. */
  lemma RootedNetloc(domain: string, href: string)
    requires '/' !in domain && '?' !in domain && '#' !in domain
    requires |href| > 0 && href[0] == '/'
    ensures Netloc("https://" + domain + href) == domain
  {
    var u := "https://" + domain + href;
    assert u[5] == ':';
    assert FindFrom(u, ':', 0) == 5 by {
      assert forall k :: 0 <= k < 5 ==> u[k] != ':';
    }
    assert SchemeChars(u, 5) by {
      assert SchemeChars(u, 1);
      assert SchemeChars(u, 2);
      assert SchemeChars(u, 3);
    }
    var rest := u[6..];
    assert SplitScheme(u).1 == rest;
    assert rest == "//" + domain + href;
    assert rest[..2] == "//";
    var n := |domain| + 2;
    assert rest[n] == '/';
    assert forall k :: 2 <= k < n ==> rest[k] == domain[k - 2];
    assert FindFrom(rest, '/', 2) == n;
    assert FindFrom(rest, '?', 2) >= n;
    assert FindFrom(rest, '#', 2) >= n;
    assert rest[2..n] == domain;
  }
}
