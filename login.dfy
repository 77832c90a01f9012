/** Signing in. First the entry point: the configured URL is opened; if it
    already reads like a sign-in or candidate page it is used; otherwise the
    visible entry controls are clicked in selector order until one leads
    away from the configured URL; otherwise a short list of conventional
    addresses on the same site is tried; otherwise the configured URL
    itself. Then four form strategies are tried in order on that page; a
    strategy whose e-mail field, password field or submit button is missing
    is skipped, and the first one whose submission looks successful wins. */
module Login {
  import opened Seqs
  import opened PyText
  import opened Urls
  import opened Snapshot

  /** An entry control: whether it is visible, and the page URL after
      clicking it, or `None` when the click fails (which abandons the rest
      of that selector's matches). */
  datatype EntryControl = EntryControl(visible: bool, clickLandsOn: Option<string>)

  /** What the entry-point search meets: the URL the configured address
      lands on (`None` when it cannot be opened), the matches of each entry
      selector, and the addresses that open and show a sign-in field. */
  datatype EntryProbe = EntryProbe(landed: Option<string>, entries: seq<seq<EntryControl>>, formAt: set<string>)

  /** The page after one strategy's submission: the page it lands on,
      whether a dashboard, profile or navigation element is present, and
      whether a password field is still visible. */
  datatype AfterSubmit = AfterSubmit(landing: Page, markerPresent: bool, passwordVisible: bool)

  /** One form strategy as tried: whether its e-mail field is found and
      visible, whether its password field is found and visible, whether its
      submit button is found, and what submitting leads to. */
  datatype Attempt = Attempt(emailVisible: bool, passwordVisible: bool, submitPresent: bool, after: AfterSubmit)

  /** The site as the sign-in sees it: the entry-point search, and for
      each address that opens, the four strategies as tried there. */
  datatype Site = Site(probe: EntryProbe, forms: map<string, seq<Attempt>>)

  const LoginPageWords: seq<string> := ["signin", "login", "candidate"]
  const SignInWords: seq<string> := ["login", "signin", "sign-in"]

  // ---------------------------------------------------------------------
  // The entry point

  /** A control that does not decide its selector: it is hidden, or its
      click lands back on `start`. */
  predicate StaysOn(c: EntryControl, start: string) {
    !c.visible || c.clickLandsOn == Some(start)
  }

  /** The first URL, within one selector's matches, that a click on a
      visible control lands on and that differs from `start`; a failed
      click ends the selector. */
  function ClickAway(cs: seq<EntryControl>, start: string): (r: Option<string>)
    ensures r.Some? ==> r.value != start
  {
    if cs == [] then None
    else if !cs[0].visible then ClickAway(cs[1..], start)
    else match cs[0].clickLandsOn
      case None => None
      case Some(u) => if u != start then Some(u) else ClickAway(cs[1..], start)
  }

  /** The position of the control that decides a selector: the first
      visible one whose click fails or leads away from `start`, or `|cs|`. */
  function DecidingControl(cs: seq<EntryControl>, start: string): (i: nat)
    ensures i <= |cs|
  {
    if cs == [] then 0
    else if !StaysOn(cs[0], start) then 0
    else DecidingControl(cs[1..], start) + 1
  }

  /** Within a selector the first visible control whose click does not
      land back on `start` decides: the result is where its click lands,
      or nothing when that click fails; every control before it is hidden
      or lands on `start`. */
  lemma {:induction false} ClickAwaySpec(cs: seq<EntryControl>, start: string)
    ensures var i := DecidingControl(cs, start);
      (forall j :: 0 <= j < i ==> StaysOn(cs[j], start)) &&
      (i < |cs| ==> cs[i].visible && cs[i].clickLandsOn != Some(start) &&
                    ClickAway(cs, start) == cs[i].clickLandsOn) &&
      (i == |cs| ==> ClickAway(cs, start).None?)
  {
    if cs != [] && StaysOn(cs[0], start) {
      var tail := cs[1..];
      ClickAwaySpec(tail, start);
      var i := DecidingControl(tail, start);
      forall j | 0 <= j < i + 1 ensures StaysOn(cs[j], start) {
        if j > 0 {
          assert cs[j] == tail[j - 1];
        }
      }
      if i < |tail| {
        assert cs[i + 1] == tail[i];
      }
    }
  }

  /** The first selector whose matches lead away from `start`. */
  function FirstClickAway(sels: seq<seq<EntryControl>>, start: string): (r: Option<string>)
    ensures r.Some? ==> r.value != start
  {
    if sels == [] then None
    else match ClickAway(sels[0], start)
      case Some(u) => Some(u)
      case None => FirstClickAway(sels[1..], start)
  }

  /** The position of the first selector whose matches lead away from
      `start`, or `|sels|`. */
  function LeadingSelector(sels: seq<seq<EntryControl>>, start: string): (k: nat)
    ensures k <= |sels|
  {
    if sels == [] then 0
    else if ClickAway(sels[0], start).Some? then 0
    else LeadingSelector(sels[1..], start) + 1
  }

  /** Across selectors the first one that leads away decides, and every
      earlier one leads nowhere. */
  lemma {:induction false} FirstClickAwaySpec(sels: seq<seq<EntryControl>>, start: string)
    ensures var k := LeadingSelector(sels, start);
      (forall j :: 0 <= j < k ==> ClickAway(sels[j], start).None?) &&
      (k < |sels| ==> ClickAway(sels[k], start).Some? && FirstClickAway(sels, start) == ClickAway(sels[k], start)) &&
      (k == |sels| ==> FirstClickAway(sels, start).None?)
  {
    if sels != [] && ClickAway(sels[0], start).None? {
      var tail := sels[1..];
      FirstClickAwaySpec(tail, start);
      var k := LeadingSelector(tail, start);
      forall j | 0 <= j < k + 1 ensures ClickAway(sels[j], start).None? {
        if j > 0 {
          assert sels[j] == tail[j - 1];
        }
      }
      if k < |tail| {
        assert sels[k + 1] == tail[k];
      }
    }
  }

  /** The configured URL with each non-overlapping `/details/` replaced by
      `/`. */
  function WithoutDetails(start: string): string {
    Replace(start, "/details/", "/")
  }

  /** The conventional addresses: the site's sign-in pages, then the
      configured URL with `/details/` replaced and the query cut off. */
  function Candidates(start: string): (r: seq<string>)
    ensures |r| == 4
    ensures r[0] == Origin(start) + "/candidate"
    ensures r[1] == Origin(start) + "/signin"
    ensures r[2] == Origin(start) + "/login"
    ensures '?' !in r[3] && r[3] <= WithoutDetails(start)
    ensures r[3] == WithoutDetails(start) || WithoutDetails(start)[|r[3]|] == '?'
  {
    var base := Origin(start);
    SplitFirstPiece(WithoutDetails(start), '?');
    [base + "/candidate", base + "/signin", base + "/login", Split(WithoutDetails(start), '?')[0]]
  }

  /** The first address showing a sign-in field. */
  function FirstWithForm(urls: seq<string>, formAt: set<string>): (r: Option<string>)
    ensures r.Some? ==> r.value in urls && r.value in formAt
    ensures r.None? ==> forall u :: u in urls ==> u !in formAt
  {
    if urls == [] then None
    else if urls[0] in formAt then Some(urls[0])
    else FirstWithForm(urls[1..], formAt)
  }

  /** The position of the first address showing a sign-in field, or
      `|urls|`. */
  function FormIndex(urls: seq<string>, formAt: set<string>): (i: nat)
    ensures i <= |urls|
  {
    if urls == [] then 0
    else if urls[0] in formAt then 0
    else FormIndex(urls[1..], formAt) + 1
  }

  /** The candidates are tried in order and the first one with a sign-in
      field is taken. */
  lemma {:induction false} FirstWithFormSpec(urls: seq<string>, formAt: set<string>)
    ensures var i := FormIndex(urls, formAt);
      (forall j :: 0 <= j < i ==> urls[j] !in formAt) &&
      (i < |urls| ==> urls[i] in formAt && FirstWithForm(urls, formAt) == Some(urls[i])) &&
      (i == |urls| ==> FirstWithForm(urls, formAt).None?)
  {
    if urls != [] && urls[0] !in formAt {
      var tail := urls[1..];
      FirstWithFormSpec(tail, formAt);
      var i := FormIndex(tail, formAt);
      forall j | 0 <= j < i + 1 ensures urls[j] !in formAt {
        if j > 0 {
          assert urls[j] == tail[j - 1];
        }
      }
      if i < |tail| {
        assert urls[i + 1] == tail[i];
      }
    }
  }

  /** `find_workday_login_url` */
  function FindLoginUrl(start: string, probe: EntryProbe): string {
    match probe.landed
    case None => start
    case Some(landed) =>
      if ContainsAny(Lower(landed), LoginPageWords) then landed
      else match FirstClickAway(probe.entries, start)
        case Some(u) => u
        case None =>
          match FirstWithForm(Candidates(start), probe.formAt)
          case Some(u) => u
          case None => start
  }

  /** Where the search ends up: the configured URL when it cannot be
      opened; the landed URL when it reads like a sign-in page; else where
      the deciding control of the first selector that leads away lands,
      every earlier selector leading nowhere; else the first conventional
      address showing a sign-in field, every earlier one showing none; else
      the configured URL. */
  lemma FindLoginUrlCases(start: string, probe: EntryProbe)
    ensures var r := FindLoginUrl(start, probe);
      (probe.landed.None? ==> r == start) &&
      (probe.landed.Some? && ContainsAny(Lower(probe.landed.value), LoginPageWords) ==> r == probe.landed.value)
    ensures var r := FindLoginUrl(start, probe);
      var k := LeadingSelector(probe.entries, start);
      probe.landed.Some? && !ContainsAny(Lower(probe.landed.value), LoginPageWords) && k < |probe.entries| ==>
        var cs := probe.entries[k];
        var i := DecidingControl(cs, start);
        (forall j :: 0 <= j < k ==> ClickAway(probe.entries[j], start).None?) &&
        i < |cs| && cs[i].visible && cs[i].clickLandsOn == Some(r) && r != start &&
        (forall j :: 0 <= j < i ==> StaysOn(cs[j], start))
    ensures var r := FindLoginUrl(start, probe);
      var cands := Candidates(start);
      var i := FormIndex(cands, probe.formAt);
      probe.landed.Some? && !ContainsAny(Lower(probe.landed.value), LoginPageWords) &&
      FirstClickAway(probe.entries, start).None? ==>
        (forall j :: 0 <= j < i ==> cands[j] !in probe.formAt) &&
        (i < |cands| ==> r == cands[i] && r in probe.formAt) &&
        (i == |cands| ==> r == start)
  {
    FirstClickAwaySpec(probe.entries, start);
    var k := LeadingSelector(probe.entries, start);
    if k < |probe.entries| {
      ClickAwaySpec(probe.entries[k], start);
    }
    FirstWithFormSpec(Candidates(start), probe.formAt);
  }

  // ---------------------------------------------------------------------
  // The form strategies

  /** A strategy is carried out only when all three of its elements are
      there. */
  predicate FieldsPresent(a: Attempt) {
    a.emailVisible && a.passwordVisible && a.submitPresent
  }

  /** Success: the URL no longer reads like a sign-in page, or a dashboard
      marker is present, or no password field is visible any more. */
  predicate Succeeded(a: Attempt) {
    !ContainsAny(Lower(a.after.landing.url), SignInWords) || a.after.markerPresent || !a.after.passwordVisible
  }

  predicate Wins(a: Attempt) {
    FieldsPresent(a) && Succeeded(a)
  }

  /** The index of the first winning strategy. */
  function FirstWin(attempts: seq<Attempt>): (r: Option<nat>)
    ensures r.Some? ==> r.value < |attempts| && Wins(attempts[r.value])
    ensures r.Some? ==> forall j :: 0 <= j < r.value ==> !Wins(attempts[j])
    ensures r.None? ==> forall j :: 0 <= j < |attempts| ==> !Wins(attempts[j])
  {
    if attempts == [] then None
    else if Wins(attempts[0]) then Some(0)
    else match FirstWin(attempts[1..])
      case None => None
      case Some(k) => Some(k + 1)
  }

  /** `login`: the page after the winning submission, or `None` when the
      sign-in address cannot be opened or no strategy wins. */
  function SignIn(site: Site, workdayUrl: string): Option<Page> {
    var url := FindLoginUrl(workdayUrl, site.probe);
    if url !in site.forms then None
    else match FirstWin(site.forms[url])
      case None => None
      case Some(k) => Some(site.forms[url][k].after.landing)
  }

  /** Sign-in succeeds exactly when some strategy on the sign-in page has
      all its fields and a successful-looking result; the crawl starts from
      the page the first such strategy lands on. */
  lemma SignInSpec(site: Site, workdayUrl: string)
    ensures var url := FindLoginUrl(workdayUrl, site.probe);
      SignIn(site, workdayUrl).Some? <==>
        url in site.forms && exists k :: 0 <= k < |site.forms[url]| && Wins(site.forms[url][k])
    ensures var url := FindLoginUrl(workdayUrl, site.probe);
      SignIn(site, workdayUrl).Some? ==>
        exists k :: 0 <= k < |site.forms[url]| && Wins(site.forms[url][k]) &&
          (forall j :: 0 <= j < k ==> !Wins(site.forms[url][j])) &&
          SignIn(site, workdayUrl) == Some(site.forms[url][k].after.landing)
  {
    var url := FindLoginUrl(workdayUrl, site.probe);
    if url in site.forms {
      var w := FirstWin(site.forms[url]);
      if w.Some? {
        var k := w.value;
        assert Wins(site.forms[url][k]) && forall j :: 0 <= j < k ==> !Wins(site.forms[url][j]);
      }
    }
  }

  // ---------------------------------------------------------------------
  // The scraper's loops

  /** The entry selectors in order, each control of a selector in order. */
  method SearchEntryPoints(sels: seq<seq<EntryControl>>, start: string) returns (r: Option<string>)
    ensures r == FirstClickAway(sels, start)
  {
    var s := 0;
    while s < |sels|
      invariant 0 <= s <= |sels|
      invariant FirstClickAway(sels, start) == FirstClickAway(sels[s..], start)
    {
      var elements := sels[s];
      var j := 0;
      var failed := false;
      while j < |elements| && !failed
        invariant 0 <= j <= |elements|
        invariant !failed ==> ClickAway(elements, start) == ClickAway(elements[j..], start)
        invariant failed ==> ClickAway(elements, start).None?
        decreases |elements| - j, if failed then 0 else 1
      {
        assert elements[j..][1..] == elements[j + 1..];
        if elements[j].visible {
          match elements[j].clickLandsOn {
            case None =>
              failed := true;
            case Some(newUrl) =>
              if newUrl != start {
                assert sels[s..][0] == elements;
                return Some(newUrl);
              }
          }
        }
        if !failed {
          j := j + 1;
        }
      }
      assert sels[s..][0] == elements && sels[s..][1..] == sels[s + 1..];
      s := s + 1;
    }
    return None;
  }

  /** `find_workday_login_url` */
  method FindWorkdayLoginUrl(start: string, probe: EntryProbe) returns (url: string)
    ensures url == FindLoginUrl(start, probe)
  {
    if probe.landed.None? {
      return start;
    }
    var currentUrl := Lower(probe.landed.value);
    if ContainsAny(currentUrl, LoginPageWords) {
      return probe.landed.value;
    }
    var entry := SearchEntryPoints(probe.entries, start);
    if entry.Some? {
      return entry.value;
    }
    var potentialUrls := Candidates(start);
    for i := 0 to |potentialUrls|
      invariant FirstWithForm(potentialUrls, probe.formAt) == FirstWithForm(potentialUrls[i..], probe.formAt)
    {
      assert potentialUrls[i..][1..] == potentialUrls[i + 1..];
      if potentialUrls[i] in probe.formAt {
        return potentialUrls[i];
      }
    }
    return start;
  }

  /** `login`: the strategies in order until one wins. */
  method LogIn(site: Site, workdayUrl: string) returns (landing: Option<Page>)
    ensures landing == SignIn(site, workdayUrl)
  {
    var loginUrl := FindWorkdayLoginUrl(workdayUrl, site.probe);
    if loginUrl !in site.forms {
      return None;
    }
    var attempts := site.forms[loginUrl];
    for i := 0 to |attempts|
      invariant forall j :: 0 <= j < i ==> !Wins(attempts[j])
    {
      var attempt := attempts[i];
      if !attempt.emailVisible || !attempt.passwordVisible || !attempt.submitPresent {
        continue;
      }
      var currentUrl := Lower(attempt.after.landing.url);
      if !ContainsAny(currentUrl, SignInWords) || attempt.after.markerPresent || !attempt.after.passwordVisible {
        return Some(attempt.after.landing);
      }
    }
    return None;
  }
}
