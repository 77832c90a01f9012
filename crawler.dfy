/** The crawl: after signing in, pages are taken from a first-in first-out
    queue that starts with the page signed in to. An address already visited
    is skipped; one that cannot be opened is dropped without counting it or
    marking it visited; any other page is marked visited, its catalogue is
    appended to the running list, at most five of its navigation links join
    the queue when neither visited nor already queued, and it counts against
    the page budget. The crawl stops when the queue is empty or the budget
    is used up, and reports one entry per identifier, the first one met
    winning. */
module Crawler {
  import opened Seqs
  import opened Snapshot
  import opened FormElements
  import opened Navigation
  import opened PageExtraction
  import opened Login

  /** How many of a page's navigation links may join the queue. */
  const LinksPerPage: nat := 5

  /** The crawl's state: the page the browser shows, the visited addresses,
      the queue, and the pages processed so far, in order (their number is
      the page count). */
  datatype Crawl = Crawl(current: Page, visited: set<string>, queue: seq<string>, pages: seq<Page>)

  /** The queue with `links` appended in order, leaving out those visited or
      already queued. */
  function Enqueue(queue: seq<string>, links: seq<string>, visited: set<string>): (r: seq<string>)
    ensures queue <= r
    ensures forall u :: u in r <==> u in queue || (u in links && u !in visited)
    ensures NoDup(queue) ==> NoDup(r)
    ensures |r| <= |queue| + |links|
  {
    if links == [] then queue
    else
      var acc := Enqueue(queue, links[..|links| - 1], visited);
      var l := links[|links| - 1];
      if l !in visited && l !in acc then acc + [l] else acc
  }

  /** One turn of the crawl loop; `web` holds the pages that open, by
      address (a page's own `url` is where it ended up). */
  function Visit(web: map<string, Page>, workdayUrl: string, s: Crawl): Crawl
    requires s.queue != []
  {
    var u := s.queue[0];
    var rest := s.queue[1..];
    if u in s.visited then s.(queue := rest)
    else if s.current.url != u && u !in web then s.(queue := rest)
    else
      var page := if s.current.url == u then s.current else web[u];
      var visited := s.visited + {u};
      var links := NavigationLinks(page, workdayUrl, visited);
      Crawl(page, visited, Enqueue(rest, Take(links, LinksPerPage), visited), s.pages + [page])
  }

  /** The crawl loop run to its end. */
  function Run(web: map<string, Page>, workdayUrl: string, maxPages: int, s: Crawl): Crawl
    decreases maxPages - |s.pages|, |s.queue|
  {
    if s.queue != [] && |s.pages| < maxPages then Run(web, workdayUrl, maxPages, Visit(web, workdayUrl, s))
    else s
  }

  /** A turn when the budget is not used up. */
  lemma RunStep(web: map<string, Page>, workdayUrl: string, maxPages: int, s: Crawl)
    requires s.queue != [] && |s.pages| < maxPages
    ensures Run(web, workdayUrl, maxPages, s) == Run(web, workdayUrl, maxPages, Visit(web, workdayUrl, s))
  {
  }

  /** A turn that drops the head of the queue. */
  lemma VisitDrops(web: map<string, Page>, workdayUrl: string, s: Crawl)
    requires s.queue != []
    requires s.queue[0] in s.visited || (s.current.url != s.queue[0] && s.queue[0] !in web)
    ensures Visit(web, workdayUrl, s) == Crawl(s.current, s.visited, s.queue[1..], s.pages)
  {
  }

  /** A turn that processes `page`, the page the head of the queue opens. */
  lemma VisitProcesses(web: map<string, Page>, workdayUrl: string, s: Crawl, page: Page)
    requires s.queue != [] && s.queue[0] !in s.visited
    requires if s.current.url == s.queue[0] then page == s.current else s.queue[0] in web && page == web[s.queue[0]]
    ensures var visited := s.visited + {s.queue[0]};
      Visit(web, workdayUrl, s) ==
        Crawl(page, visited, Enqueue(s.queue[1..], Take(NavigationLinks(page, workdayUrl, visited), LinksPerPage), visited),
              s.pages + [page])
  {
  }

  /** The catalogue of each processed page. */
  function Catalogues(pages: seq<Page>): (r: seq<seq<FormElement>>)
    ensures |r| == |pages|
  {
    seq(|pages|, i requires 0 <= i < |pages| => PageElements(pages[i]))
  }

  /** The entries found on a list of processed pages, page by page. */
  function Found(pages: seq<Page>): seq<FormElement> {
    Flatten(Catalogues(pages))
  }

  /** The state right after signing in on `page`. */
  function Start(page: Page): Crawl {
    Crawl(page, {}, [page.url], [])
  }

  /** `crawl_and_extract`: nothing when signing in fails, else the crawl's
      entries with one entry per identifier. */
  function CrawlResult(site: Site, web: map<string, Page>, workdayUrl: string, maxPages: int): seq<FormElement> {
    match SignIn(site, workdayUrl)
    case None => []
    case Some(landing) => Dedup(Found(Run(web, workdayUrl, maxPages, Start(landing)).pages))
  }

  // ---------------------------------------------------------------------
  // Properties

  /** The crawl's invariant, relative to an earlier state with `visited0`
      and `pages0`: the queue holds no address twice and none already
      visited, and every page processed since was visited under one new
      address. */
  ghost predicate Good(s: Crawl, visited0: set<string>, pages0: seq<Page>) {
    NoDup(s.queue) &&
    (forall u :: u in s.queue ==> u !in s.visited) &&
    visited0 <= s.visited && pages0 <= s.pages &&
    |s.visited| - |visited0| == |s.pages| - |pages0|
  }

  /** A turn either drops the head of the queue, changing nothing else, or
      processes it: it becomes visited, the page is appended to those
      processed, and only new, unvisited links are queued after the rest of
      the queue, at most five. The invariant holds afterwards, and an
      already visited head never occurs. A head is dropped exactly when it
      is not the current page and does not open. */
  lemma VisitSpec(web: map<string, Page>, workdayUrl: string, s: Crawl, visited0: set<string>, pages0: seq<Page>)
    requires s.queue != [] && Good(s, visited0, pages0)
    ensures var t := Visit(web, workdayUrl, s);
      Good(t, visited0, pages0) && s.queue[0] !in s.visited && s.queue[1..] <= t.queue &&
      (t.pages == s.pages ==> t == s.(queue := s.queue[1..])) &&
      (t.pages != s.pages ==>
         t.pages == s.pages + [t.current] &&
         t.visited == s.visited + {s.queue[0]} &&
         (forall u :: u in t.queue ==>
            u in s.queue[1..] || u in Take(NavigationLinks(t.current, workdayUrl, t.visited), LinksPerPage)) &&
         |t.queue| <= |s.queue| - 1 + LinksPerPage)
    ensures var t := Visit(web, workdayUrl, s);
      t.pages == s.pages <==> s.current.url != s.queue[0] && s.queue[0] !in web
  {
    var u := s.queue[0];
    var rest := s.queue[1..];
    var t := Visit(web, workdayUrl, s);
    assert forall x :: x in rest ==> x in s.queue;
    if t.pages != s.pages {
      assert NoDup(rest);
      assert |t.visited| == |s.visited| + 1;
    }
  }

  /** The crawl ends with an empty queue or a used-up budget; it never
      processes more pages than the budget allows, keeps the invariant, and
      only adds visited addresses and processed pages. */
  lemma {:induction false} RunSpec(web: map<string, Page>, workdayUrl: string, maxPages: int, s: Crawl,
                                   visited0: set<string>, pages0: seq<Page>)
    requires Good(s, visited0, pages0)
    ensures var t := Run(web, workdayUrl, maxPages, s);
      Good(t, visited0, pages0) &&
      (t.queue == [] || |t.pages| >= maxPages) &&
      |t.pages| <= (if |s.pages| < maxPages then maxPages else |s.pages|) &&
      s.visited <= t.visited && s.pages <= t.pages
    decreases maxPages - |s.pages|, |s.queue|
  {
    if s.queue != [] && |s.pages| < maxPages {
      var t := Visit(web, workdayUrl, s);
      VisitSpec(web, workdayUrl, s, visited0, pages0);
      RunSpec(web, workdayUrl, maxPages, t, visited0, pages0);
    }
  }

  /** The entries found are the concatenated catalogues. */
  lemma FoundOf(cats: seq<seq<FormElement>>, pages: seq<Page>)
    requires MapsTo(cats, pages, PageElements)
    ensures Flatten(cats) == Found(pages)
  {
    var all := Catalogues(pages);
    forall i | 0 <= i < |pages| ensures cats[i] == all[i] {
      assert PageElements(pages[i]) == all[i];
    }
    assert cats == all;
  }

  /** Every entry found has an identifier and comes from one of the pages
      processed. */
  lemma FoundSpec(pages: seq<Page>)
    ensures forall e :: e in Found(pages) ==> e.id != ""
    ensures forall e :: e in Found(pages) ==> exists i :: 0 <= i < |pages| && e in PageElements(pages[i])
  {
    var cats := Catalogues(pages);
    FlattenMembers(cats);
    forall e | e in Found(pages)
      ensures e.id != "" && exists i :: 0 <= i < |pages| && e in PageElements(pages[i])
    {
      var i :| 0 <= i < |cats| && e in cats[i];
      PageElementsSpec(pages[i]);
    }
  }

  /** The report of a crawl: no identifier twice, no empty identifier, the
      identifiers are those of the entries found on the pages processed,
      and nothing at all when signing in fails. The crawl processes at most
      `maxPages` pages (none when the budget is not positive), visits one
      address per page processed, and stops early only when the queue runs
      dry. */
  lemma CrawlSpec(site: Site, web: map<string, Page>, workdayUrl: string, maxPages: int)
    ensures SignIn(site, workdayUrl).None? ==> CrawlResult(site, web, workdayUrl, maxPages) == []
    ensures DistinctIds(CrawlResult(site, web, workdayUrl, maxPages))
    ensures forall e :: e in CrawlResult(site, web, workdayUrl, maxPages) ==> e.id != ""
    ensures SignIn(site, workdayUrl).Some? ==>
      var t := Run(web, workdayUrl, maxPages, Start(SignIn(site, workdayUrl).value));
      Ids(CrawlResult(site, web, workdayUrl, maxPages)) == Ids(Found(t.pages)) &&
      |t.pages| == |t.visited| &&
      |t.pages| <= (if maxPages < 0 then 0 else maxPages) &&
      (t.queue == [] || |t.pages| == (if maxPages < 0 then 0 else maxPages))
  {
    var r := CrawlResult(site, web, workdayUrl, maxPages);
    match SignIn(site, workdayUrl) {
      case None =>
        DedupDistinct([]);
      case Some(landing) =>
        var s := Start(landing);
        var t := Run(web, workdayUrl, maxPages, s);
        RunSpec(web, workdayUrl, maxPages, s, {}, []);
        var found := Found(t.pages);
        DedupDistinct(found);
        DedupIds(found);
        DedupSubseq(found);
        SubseqMembers(r, found);
        FoundSpec(t.pages);
    }
  }

  // ---------------------------------------------------------------------
  // The scraper's class

  /** The mapper: its configuration, the browser's current page, the
      visited addresses and the entries found so far. */
  class WorkdayFormMapper {
    const workdayUrl: string
    const maxPages: int
    const site: Site
    const web: map<string, Page>
    var visitedUrls: set<string>
    var allFormElements: seq<FormElement>

    /** A fresh mapper has visited nothing and found nothing. */
    constructor (workdayUrl: string, maxPages: int, site: Site, web: map<string, Page>)
      ensures this.workdayUrl == workdayUrl && this.maxPages == maxPages
      ensures this.site == site && this.web == web
      ensures visitedUrls == {} && allFormElements == []
    {
      this.workdayUrl := workdayUrl;
      this.maxPages := maxPages;
      this.site := site;
      this.web := web;
      visitedUrls := {};
      allFormElements := [];
    }

    /** `crawl_and_extract`: the fields end as the crawl from the signed-in
        page leaves them, and the report is their deduplication. */
    method CrawlAndExtract() returns (unique: seq<FormElement>)
      modifies this
      ensures SignIn(site, workdayUrl).None? ==>
        unique == [] && visitedUrls == old(visitedUrls) && allFormElements == old(allFormElements)
      ensures SignIn(site, workdayUrl).Some? ==>
        var t := Run(web, workdayUrl, maxPages,
                     Crawl(SignIn(site, workdayUrl).value, old(visitedUrls), [SignIn(site, workdayUrl).value.url], []));
        visitedUrls == t.visited && allFormElements == old(allFormElements) + Found(t.pages) &&
        unique == Dedup(allFormElements)
    {
      var landing := LogIn(site, workdayUrl);
      if landing.None? {
        return [];
      }
      Traverse(landing.value);
      unique := RemoveDuplicateIds(allFormElements);
    }

    /** A page that opens: it is marked visited and its catalogue is appended. */
    method RecordPage(page: Page, url: string) returns (pageElements: seq<FormElement>)
      modifies this
      ensures visitedUrls == old(visitedUrls) + {url}
      ensures pageElements == PageElements(page)
      ensures allFormElements == old(allFormElements) + pageElements
    {
      visitedUrls := visitedUrls + {url};
      pageElements := ExtractFormElements(page);
      allFormElements := allFormElements + pageElements;
    }

    /** The first five navigation links of an opened page, queued after `rest`. */
    method QueueLinks(page: Page, rest: seq<string>) returns (queue: seq<string>)
      ensures queue == Enqueue(rest, Take(NavigationLinks(page, workdayUrl, visitedUrls), LinksPerPage), visitedUrls)
    {
      var newLinks := FindNavigationLinks(page, workdayUrl, visitedUrls);
      queue := EnqueueLinks(rest, Take(newLinks, LinksPerPage), visitedUrls);
    }

    /** The loop of `crawl_and_extract`, from the page signed in to. */
    method Traverse(landing: Page)
      modifies this
      ensures var t := Run(web, workdayUrl, maxPages, Crawl(landing, old(visitedUrls), [landing.url], []));
        visitedUrls == t.visited && allFormElements == old(allFormElements) + Found(t.pages)
    {
      var current := landing;
      var pagesToVisit := [current.url];
      var pagesProcessed: nat := 0;
      ghost var pages: seq<Page> := [];
      ghost var catalogues: seq<seq<FormElement>> := [];
      ghost var init := Crawl(current, visitedUrls, pagesToVisit, pages);
      while pagesToVisit != [] && pagesProcessed < maxPages
        invariant pagesProcessed == |pages|
        invariant MapsTo(catalogues, pages, PageElements)
        invariant allFormElements == old(allFormElements) + Flatten(catalogues)
        invariant Run(web, workdayUrl, maxPages, Crawl(current, visitedUrls, pagesToVisit, pages))
                  == Run(web, workdayUrl, maxPages, init)
        decreases maxPages - pagesProcessed, |pagesToVisit|
      {
        ghost var s := Crawl(current, visitedUrls, pagesToVisit, pages);
        RunStep(web, workdayUrl, maxPages, s);
        var currentUrl := pagesToVisit[0];
        pagesToVisit := pagesToVisit[1..];
        if currentUrl in visitedUrls {
          VisitDrops(web, workdayUrl, s);
          continue;
        }
        if current.url != currentUrl {
          if currentUrl !in web {
            VisitDrops(web, workdayUrl, s);
            continue;
          }
          current := web[currentUrl];
        }
        VisitProcesses(web, workdayUrl, s, current);
        var pageElements := RecordPage(current, currentUrl);
        pagesToVisit := QueueLinks(current, pagesToVisit);
        MapsToSnoc(catalogues, pages, PageElements, current, pageElements);
        FlattenSnoc(old(allFormElements), catalogues, pageElements);
        pages := pages + [current];
        catalogues := catalogues + [pageElements];
        pagesProcessed := pagesProcessed + 1;
      }
      FoundOf(catalogues, pages);
    }
  }


  /** The queueing loop of `crawl_and_extract`. */
  method EnqueueLinks(queue: seq<string>, links: seq<string>, visited: set<string>) returns (r: seq<string>)
    ensures r == Enqueue(queue, links, visited)
  {
    r := queue;
    for i := 0 to |links|
      invariant r == Enqueue(queue, links[..i], visited)
    {
      assert links[..i + 1][..i] == links[..i];
      var link := links[i];
      if link !in visited && link !in r {
        r := r + [link];
      }
    }
    assert links[..|links|] == links;
  }
}
