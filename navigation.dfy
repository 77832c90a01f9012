/** The links the crawler follows from a page: visible navigation controls
    with an `href`, made absolute, kept when they stay on the configured
    Workday host, have not been visited or collected yet, lead to another
    path than the current page's, and do not look like an exit. */
module Navigation {
  import opened Seqs
  import opened PyText
  import opened Urls
  import opened Snapshot

  /** Lower-cased URL fragments that mark a link the crawler must not
      follow. */
  const ExitWords: seq<string> := ["logout", "signout", "exit", "cancel"]

  /** The absolute form of an `href`: a root-relative one is put on
      `https://` and the configured host, one starting with `http` is kept,
      and any other is resolved against the page's URL (the snapshot's
      `joined` gives that resolution for every `href`). */
  function Absolute(href: string, baseDomain: string, page: Page): string {
    if |href| > 0 && href[0] == '/' then "https://" + baseDomain + href
    else if "http" <= href then href
    else page.joined(href)
  }

  /** The filter on one absolute URL, given the links collected so far. */
  predicate Accepts(url: string, baseDomain: string, currentPath: string,
                    visited: set<string>, links: seq<string>) {
    Netloc(url) == baseDomain && url !in visited && url !in links &&
    Path(url) != currentPath && !ContainsAny(Lower(url), ExitWords)
  }

  /** The URL a navigation control offers, if it is visible and has a
      non-empty `href`. */
  function Offered(c: Control, baseDomain: string, page: Page): Option<string> {
    if c.visible && Truthy(Attr(c, "href")) then Some(Absolute(c.attrs["href"], baseDomain, page)) else None
  }

  /** The links collected from a list of controls, in order. */
  function CollectLinks(cs: seq<Control>, baseDomain: string, currentPath: string,
                        visited: set<string>, page: Page): (links: seq<string>)
    ensures NoDup(links)
    ensures forall l :: l in links ==>
      Netloc(l) == baseDomain && l !in visited && Path(l) != currentPath && !ContainsAny(Lower(l), ExitWords)
  {
    if cs == [] then []
    else
      var acc := CollectLinks(cs[..|cs| - 1], baseDomain, currentPath, visited, page);
      var u := Offered(cs[|cs| - 1], baseDomain, page);
      if u.Some? && Accepts(u.value, baseDomain, currentPath, visited, acc) then acc + [u.value] else acc
  }

  /** `find_navigation_links`: the host is that of the configured Workday
      URL and the current path is that of the page. */
  function NavigationLinks(page: Page, workdayUrl: string, visited: set<string>): seq<string> {
    CollectLinks(Flatten(page.navControls), Netloc(workdayUrl), Path(page.url), visited, page)
  }

  /** The control offers a URL that passes the filter before anything is
      collected. */
  predicate Passes(c: Control, baseDomain: string, currentPath: string, visited: set<string>, page: Page) {
    Offered(c, baseDomain, page).Some? &&
    Accepts(Offered(c, baseDomain, page).value, baseDomain, currentPath, visited, [])
  }

  /** Collecting from a longer prefix of the controls only adds links. */
  lemma {:induction false} CollectLinksGrows(cs: seq<Control>, n: nat, baseDomain: string, currentPath: string,
                                            visited: set<string>, page: Page)
    requires n <= |cs|
    ensures CollectLinks(cs[..n], baseDomain, currentPath, visited, page) <=
            CollectLinks(cs, baseDomain, currentPath, visited, page)
    decreases |cs| - n
  {
    if n < |cs| {
      CollectLinksStep(cs[..n + 1], baseDomain, currentPath, visited, page);
      assert cs[..n + 1][..n] == cs[..n];
      CollectLinksGrows(cs, n + 1, baseDomain, currentPath, visited, page);
    } else {
      assert cs[..n] == cs;
    }
  }

  /** An offered URL that passes the filter is collected: dropping it could
      only be because it was collected already. */
  lemma CollectLinksKeeps(cs: seq<Control>, i: nat, baseDomain: string, currentPath: string,
                          visited: set<string>, page: Page)
    requires i < |cs| && Passes(cs[i], baseDomain, currentPath, visited, page)
    ensures Offered(cs[i], baseDomain, page).value in CollectLinks(cs, baseDomain, currentPath, visited, page)
  {
    var q := cs[..i + 1];
    assert q[|q| - 1] == cs[i];
    CollectLinksStep(q, baseDomain, currentPath, visited, page);
    CollectLinksGrows(cs, i + 1, baseDomain, currentPath, visited, page);
    var before := CollectLinks(q, baseDomain, currentPath, visited, page);
    var links := CollectLinks(cs, baseDomain, currentPath, visited, page);
    var k :| 0 <= k < |before| && before[k] == Offered(cs[i], baseDomain, page).value;
    assert links[k] == before[k];
  }

  /** Every offered URL that passes the filter is collected. */
  lemma CollectLinksComplete(cs: seq<Control>, baseDomain: string, currentPath: string,
                             visited: set<string>, page: Page)
    ensures forall i :: 0 <= i < |cs| && Passes(cs[i], baseDomain, currentPath, visited, page) ==>
      Offered(cs[i], baseDomain, page).value in CollectLinks(cs, baseDomain, currentPath, visited, page)
  {
    forall i | 0 <= i < |cs| && Passes(cs[i], baseDomain, currentPath, visited, page) {
      CollectLinksKeeps(cs, i, baseDomain, currentPath, visited, page);
    }
  }

  /** One more control keeps what was collected and adds its URL when that
      passes the filter and is new. */
  lemma CollectLinksStep(cs: seq<Control>, baseDomain: string, currentPath: string,
                         visited: set<string>, page: Page)
    requires cs != []
    ensures CollectLinks(cs[..|cs| - 1], baseDomain, currentPath, visited, page) <=
            CollectLinks(cs, baseDomain, currentPath, visited, page)
    ensures Passes(cs[|cs| - 1], baseDomain, currentPath, visited, page) ==>
      Offered(cs[|cs| - 1], baseDomain, page).value in CollectLinks(cs, baseDomain, currentPath, visited, page)
  {
  }

  /** Every collected link was offered by one of the controls. */
  lemma {:induction false} CollectLinksSound(cs: seq<Control>, baseDomain: string, currentPath: string,
                                            visited: set<string>, page: Page)
    ensures forall l :: l in CollectLinks(cs, baseDomain, currentPath, visited, page) ==>
      exists i :: 0 <= i < |cs| && Offered(cs[i], baseDomain, page) == Some(l)
  {
    if cs != [] {
      var p := cs[..|cs| - 1];
      CollectLinksSound(p, baseDomain, currentPath, visited, page);
      forall l | l in CollectLinks(cs, baseDomain, currentPath, visited, page)
        ensures exists i :: 0 <= i < |cs| && Offered(cs[i], baseDomain, page) == Some(l)
      {
        if l in CollectLinks(p, baseDomain, currentPath, visited, page) {
          var i :| 0 <= i < |p| && Offered(p[i], baseDomain, page) == Some(l);
          assert cs[i] == p[i];
        } else {
          assert Offered(cs[|cs| - 1], baseDomain, page) == Some(l);
        }
      }
    }
  }

  /** A root-relative link always stays on the configured host, so it is
      collected unless it was visited, leads to the current path or looks
      like an exit. */
  lemma RootedLinkOnHost(page: Page, workdayUrl: string, href: string)
    requires |href| > 0 && href[0] == '/'
    ensures Absolute(href, Netloc(workdayUrl), page) == "https://" + Netloc(workdayUrl) + href
    ensures Netloc("https://" + Netloc(workdayUrl) + href) == Netloc(workdayUrl)
  {
    RootedNetloc(Netloc(workdayUrl), href);
  }

  // ---------------------------------------------------------------------
  // The scraper's loop

  lemma CollectLinksSnoc(cs: seq<Control>, c: Control, baseDomain: string, currentPath: string,
                         visited: set<string>, page: Page)
    ensures CollectLinks(cs + [c], baseDomain, currentPath, visited, page) ==
      var acc := CollectLinks(cs, baseDomain, currentPath, visited, page);
      var u := Offered(c, baseDomain, page);
      if u.Some? && Accepts(u.value, baseDomain, currentPath, visited, acc) then acc + [u.value] else acc
  {
    assert (cs + [c])[..|cs|] == cs;
  }

  /** The absolute URL a navigation control offers, if any: the body of the
      loop up to the filter. */
  method OfferedUrl(element: Control, baseDomain: string, page: Page) returns (u: Option<string>)
    ensures u == Offered(element, baseDomain, page)
  {
    if !element.visible {
      return None;
    }
    var href := Attr(element, "href");
    if !Truthy(href) {
      return None;
    }
    if |href.value| > 0 && href.value[0] == '/' {
      u := Some("https://" + baseDomain + href.value);
    } else if "http" <= href.value {
      u := Some(href.value);
    } else {
      u := Some(page.joined(href.value));
    }
  }

  /** The loop body for one control: its URL joins the links when it passes
      the filter. */
  method ConsiderLink(element: Control, baseDomain: string, currentPath: string, visited: set<string>,
                      page: Page, ghost before: seq<Control>, links0: seq<string>)
    returns (links: seq<string>)
    requires links0 == CollectLinks(before, baseDomain, currentPath, visited, page)
    ensures links == CollectLinks(before + [element], baseDomain, currentPath, visited, page)
  {
    CollectLinksSnoc(before, element, baseDomain, currentPath, visited, page);
    links := links0;
    var fullUrl := OfferedUrl(element, baseDomain, page);
    if fullUrl.None? {
      return;
    }
    if Accepts(fullUrl.value, baseDomain, currentPath, visited, links) {
      links := links + [fullUrl.value];
    }
  }

  /** The controls one selector matched, continuing the links collected
      from the controls `done` that earlier selectors matched. */
  method LinksFromMatches(elements: seq<Control>, baseDomain: string, currentPath: string,
                          visited: set<string>, page: Page, ghost done: seq<Control>, links0: seq<string>)
    returns (links: seq<string>)
    requires links0 == CollectLinks(done, baseDomain, currentPath, visited, page)
    ensures links == CollectLinks(done + elements, baseDomain, currentPath, visited, page)
  {
    links := links0;
    assert done + elements[..0] == done;
    for j := 0 to |elements|
      invariant links == CollectLinks(done + elements[..j], baseDomain, currentPath, visited, page)
    {
      PrefixSnoc(done, elements, j);
      links := ConsiderLink(elements[j], baseDomain, currentPath, visited, page, done + elements[..j], links);
    }
    assert elements[..|elements|] == elements;
  }

  /** `find_navigation_links`: every navigation selector, every match. */
  method FindNavigationLinks(page: Page, workdayUrl: string, visited: set<string>) returns (links: seq<string>)
    ensures links == NavigationLinks(page, workdayUrl, visited)
  {
    var selectors := page.navControls;
    var baseDomain := Netloc(workdayUrl);
    var currentPath := Path(page.url);
    links := [];
    for s := 0 to |selectors|
      invariant links == CollectLinks(Flatten(selectors[..s]), baseDomain, currentPath, visited, page)
    {
      FlattenStep(selectors, s);
      links := LinksFromMatches(selectors[s], baseDomain, currentPath, visited, page,
                                Flatten(selectors[..s]), links);
    }
    FlattenAll(selectors);
  }
}
