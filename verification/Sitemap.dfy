/** Reading a site's sitemaps within a budget. What the site answers is arbitrary. */
module Sitemap {
  import opened Seqs

  const MAX_SITEMAP_DOCS := 4
  const MAX_URLS := 5000
  const MAX_CHILDREN := 3
  const MAX_DEPTH := 2

  datatype Parsed = Parsed(urls: seq<string>, isIndex: bool)

  /** `fetch` gives the empty text when a fetch fails. Each document is fetched at most once. */
  datatype Site = Site(sameSite: string -> bool, fetch: string -> string, parse: string -> Parsed,
    excluded: string -> bool, pageLike: string -> bool)

  datatype Doc = Doc(text: string, depth: nat)

  datatype Entry = Entry(url: string, depth: nat)

  function Filter(s: seq<string>, keep: string -> bool): seq<string> {
    if s == [] then []
    else
      var r := Filter(s[..|s| - 1], keep);
      if keep(s[|s| - 1]) then r + [s[|s| - 1]] else r
  }

  lemma {:induction false} FilterIs(s: seq<string>, keep: string -> bool)
    ensures forall u :: u in Filter(s, keep) <==> u in s && keep(u)
  {
    if s != [] {
      FilterIs(s[..|s| - 1], keep);
      assert s == s[..|s| - 1] + [s[|s| - 1]];
    }
  }

  /** The places before `n` that are kept. */
  function KeptBefore(s: seq<string>, keep: string -> bool, n: nat): set<nat>
    requires n <= |s|
  {
    set h | 0 <= h < n && keep(s[h])
  }

  lemma {:induction false} FilterCount(s: seq<string>, keep: string -> bool)
    ensures |Filter(s, keep)| == |KeptBefore(s, keep, |s|)|
  {
    if s != [] {
      var n := |s| - 1;
      FilterCount(s[..n], keep);
      assert KeptBefore(s, keep, n + 1) == KeptBefore(s[..n], keep, n) + (if keep(s[n]) then {n} else {});
    }
  }

  /** What is kept stays in order: each behind those kept before it. */
  lemma {:induction false} FilterInOrder(s: seq<string>, keep: string -> bool, i: nat)
    requires i < |s| && keep(s[i])
    ensures var at := |KeptBefore(s, keep, i)|; at < |Filter(s, keep)| && Filter(s, keep)[at] == s[i]
    decreases |s|
  {
    var n := |s| - 1;
    assert KeptBefore(s, keep, i) == KeptBefore(s[..n], keep, i);
    if i < n {
      FilterInOrder(s[..n], keep, i);
    } else {
      FilterCount(s[..n], keep);
    }
  }

  /** The children on the site that are not of an unwanted kind. */
  function Wanted(site: Site, urls: seq<string>): seq<string> {
    Filter(Filter(urls, site.sameSite), u => !site.excluded(u))
  }

  /** Page-like children first, at most three. */
  function Children(site: Site, urls: seq<string>): seq<string> {
    First(Filter(Wanted(site, urls), site.pageLike) + Filter(Wanted(site, urls), u => !site.pageLike(u)), MAX_CHILDREN)
  }

  lemma ChildrenOnSite(site: Site, urls: seq<string>)
    ensures |Children(site, urls)| <= MAX_CHILDREN
    ensures forall u | u in Children(site, urls) :: u in urls && site.sameSite(u) && !site.excluded(u)
  {
    FilterIs(urls, site.sameSite);
    FilterIs(Filter(urls, site.sameSite), u => !site.excluded(u));
    FilterIs(Wanted(site, urls), site.pageLike);
    FilterIs(Wanted(site, urls), u => !site.pageLike(u));
  }

  /**
    * A child that is not page-like is followed only when every wanted page-like one is, and none is left out below
    * three.
    */
  lemma PageLikeFirst(site: Site, urls: seq<string>, u: string)
    requires u in urls && site.sameSite(u) && !site.excluded(u)
    ensures u !in Children(site, urls) ==> |Children(site, urls)| == MAX_CHILDREN
    ensures u !in Children(site, urls) && site.pageLike(u) ==> forall v | v in Children(site, urls) :: site.pageLike(v)
  {
    FilterIs(urls, site.sameSite);
    FilterIs(Filter(urls, site.sameSite), u => !site.excluded(u));
    var preferred, rest := Filter(Wanted(site, urls), site.pageLike),
      Filter(Wanted(site, urls), u => !site.pageLike(u));
    FilterIs(Wanted(site, urls), site.pageLike);
    FilterIs(Wanted(site, urls), u => !site.pageLike(u));
    assert u in preferred + rest;
    if |preferred| >= MAX_CHILDREN {
      assert First(preferred + rest, MAX_CHILDREN) == preferred[..MAX_CHILDREN];
    } else {
      assert preferred <= First(preferred + rest, MAX_CHILDREN);
      assert u in preferred ==> u in First(preferred + rest, MAX_CHILDREN);
    }
  }

  /** All pages on the site listed by the documents that are not indexes. */
  function Pages(site: Site, docs: seq<Doc>): seq<string> {
    if docs == [] then []
    else
      var p := site.parse(docs[|docs| - 1].text);
      Pages(site, docs[..|docs| - 1]) + (if p.isIndex then [] else Filter(p.urls, site.sameSite))
  }

  /** Some document read lists the page, is no index, and the page is on the site. */
  ghost predicate Offered(site: Site, docs: seq<Doc>, u: string) {
    site.sameSite(u) && exists d | d in docs :: !site.parse(d.text).isIndex && u in site.parse(d.text).urls
  }

  lemma {:induction false} PagesAre(site: Site, docs: seq<Doc>, u: string)
    ensures u in Pages(site, docs) <==> Offered(site, docs, u)
  {
    if docs != [] {
      var n := |docs| - 1;
      PagesAre(site, docs[..n], u);
      FilterIs(site.parse(docs[n].text).urls, site.sameSite);
      assert docs == docs[..n] + [docs[n]];
      assert Offered(site, docs, u) <==> Offered(site, docs[..n], u) || Offered(site, [docs[n]], u) by {
        assert docs[n] in [docs[n]];
      }
    }
  }

  /** Below the cap exactly the pages offered are returned; at the cap no others. */
  lemma ReturnsOffered(site: Site, docs: seq<Doc>)
    ensures var pages := First(Pages(site, docs), MAX_URLS);
      && (forall u | u in pages :: Offered(site, docs, u))
      && (|pages| < MAX_URLS ==> forall u | Offered(site, docs, u) :: u in pages)
  {
    forall u ensures u in Pages(site, docs) <==> Offered(site, docs, u) {
      PagesAre(site, docs, u);
    }
  }

  /** So whatever is returned is on the site and within the cap. */
  lemma {:induction false} PagesOnSite(site: Site, docs: seq<Doc>)
    ensures forall u | u in Pages(site, docs) :: site.sameSite(u)
    ensures |First(Pages(site, docs), MAX_URLS)| <= MAX_URLS &&
      forall u | u in First(Pages(site, docs), MAX_URLS) :: site.sameSite(u)
  {
    if docs != [] {
      PagesOnSite(site, docs[..|docs| - 1]);
      FilterIs(site.parse(docs[|docs| - 1].text).urls, site.sameSite);
    }
  }

  /** Reading index d puts u on the list. */
  ghost predicate Lists(site: Site, d: Doc, u: string) {
    d.depth < MAX_DEPTH && site.parse(d.text).isIndex && u in Children(site, site.parse(d.text).urls)
  }

  /** Where a document may come from: a seed, or a child of an index one level up. */
  ghost predicate Listed(site: Site, seeds: seq<string>, docs: seq<Doc>, e: Entry) {
    || (e.depth == 0 && e.url in seeds)
    || exists d | d in docs :: d.depth + 1 == e.depth && Lists(site, d, e.url)
  }

  ghost predicate AllListed(site: Site, seeds: seq<string>, docs: seq<Doc>, es: seq<Entry>) {
    forall e | e in es :: Listed(site, seeds, docs, e)
  }

  ghost predicate Reached(fetched: seq<Entry>, queue: seq<Entry>, u: string) {
    exists e | e in fetched || e in queue :: e.url == u
  }

  /** Every seed and every child of an index that was read is fetched, waiting, or off the site. */
  ghost predicate Closed(site: Site, seeds: seq<string>, docs: seq<Doc>, fetched: seq<Entry>, queue: seq<Entry>) {
    && (forall u | u in seeds && site.sameSite(u) :: Reached(fetched, queue, u))
    && (forall d, u | d in docs && Lists(site, d, u) :: Reached(fetched, queue, u))
  }

  function Urls(es: seq<Entry>): seq<string> {
    seq(|es|, i requires 0 <= i < |es| => es[i].url)
  }

  ghost predicate Budgeted(site: Site, fetched: seq<Entry>, budget: nat) {
    && |fetched| + budget == MAX_SITEMAP_DOCS && Distinct(Urls(fetched))
    && forall e | e in fetched :: site.sameSite(e.url) && e.depth <= MAX_DEPTH
  }

  function Entries(urls: seq<string>, depth: nat): seq<Entry> {
    seq(|urls|, i requires 0 <= i < |urls| => Entry(urls[i], depth))
  }

  lemma EntriesAre(urls: seq<string>, depth: nat, e: Entry)
    ensures e in Entries(urls, depth) <==> e.depth == depth && e.url in urls
  {
    if e.depth == depth && e.url in urls {
      var i :| 0 <= i < |urls| && urls[i] == e.url;
      assert Entries(urls, depth)[i] == e;
    }
  }

  function NonEmpty(texts: seq<string>): seq<string> {
    Filter(texts, t => t != "")
  }

  function Docs(texts: seq<string>): seq<Doc> {
    seq(|texts|, i requires 0 <= i < |texts| => Doc(texts[i], 0))
  }

  /** Appends the pages on the site until the cap is reached. */
  method AddPages(site: Site, before: seq<string>, urls: seq<string>) returns (pages: seq<string>)
    requires |before| < MAX_URLS
    ensures pages == First(before + Filter(urls, site.sameSite), MAX_URLS)
  {
    pages := before;
    for i := 0 to |urls|
      invariant pages == before + Filter(urls[..i], site.sameSite) && |pages| < MAX_URLS
    {
      assert urls[..i + 1][..i] == urls[..i];
      if site.sameSite(urls[i]) {
        pages := pages + [urls[i]];
      }
      if |pages| >= MAX_URLS {
        FilterExtends(urls, i + 1, site.sameSite);
        CutAt(before, Filter(urls[..i + 1], site.sameSite), Filter(urls, site.sameSite));
        return;
      }
    }
    assert urls[..|urls|] == urls;
  }

  lemma CutAt(before: seq<string>, a: seq<string>, b: seq<string>)
    requires a <= b && |before + a| == MAX_URLS
    ensures First(before + b, MAX_URLS) == before + a
  {
    assert (before + b)[..|before + a|] == before + b[..|a|];
  }

  lemma {:induction false} FilterExtends(s: seq<string>, k: nat, keep: string -> bool)
    requires k <= |s|
    ensures Filter(s[..k], keep) <= Filter(s, keep)
    decreases |s|
  {
    if k < |s| {
      FilterExtends(s[..|s| - 1], k, keep);
      assert s[..|s| - 1][..k] == s[..k];
    } else {
      assert s[..k] == s;
    }
  }

  // ---- what the loop keeps ----------------------------------------------------------------------------------

  ghost predicate Working(site: Site, seeds: seq<string>, docs: seq<Doc>, fetched: seq<Entry>, queue: seq<Entry>) {
    && AllListed(site, seeds, docs, fetched) && AllListed(site, seeds, docs, queue)
    && (forall e | e in queue :: e.depth <= MAX_DEPTH)
    && Closed(site, seeds, docs, fetched, queue)
  }

  lemma StillListed(site: Site, seeds: seq<string>, docs: seq<Doc>, d: Doc, e: Entry)
    requires Listed(site, seeds, docs, e)
    ensures Listed(site, seeds, docs + [d], e)
  {
    if !(e.depth == 0 && e.url in seeds) {
      var x :| x in docs && x.depth + 1 == e.depth && Lists(site, x, e.url);
      assert x in docs + [d];
    }
  }

  lemma AllStillListed(site: Site, seeds: seq<string>, docs: seq<Doc>, d: Doc, es: seq<Entry>)
    requires AllListed(site, seeds, docs, es)
    ensures AllListed(site, seeds, docs + [d], es)
  {
    forall e | e in es ensures Listed(site, seeds, docs + [d], e) {
      StillListed(site, seeds, docs, d, e);
    }
  }

  /** A page list, or an index too deep to follow, adds nothing to the work. */
  lemma ReadLeaf(site: Site, seeds: seq<string>, docs: seq<Doc>, fetched: seq<Entry>, queue: seq<Entry>, d: Doc)
    requires Working(site, seeds, docs, fetched, queue) && (d.depth >= MAX_DEPTH || !site.parse(d.text).isIndex)
    ensures Working(site, seeds, docs + [d], fetched, queue)
  {
    AllStillListed(site, seeds, docs, d, fetched);
    AllStillListed(site, seeds, docs, d, queue);
    forall x, u | x in docs + [d] && Lists(site, x, u) ensures Reached(fetched, queue, u) {
      assert x in docs;
    }
  }

  lemma ReadIndex(site: Site, seeds: seq<string>, docs: seq<Doc>, fetched: seq<Entry>, queue: seq<Entry>, d: Doc)
    requires Working(site, seeds, docs, fetched, queue) && d.depth < MAX_DEPTH && site.parse(d.text).isIndex
    ensures Working(site, seeds, docs + [d], fetched,
      queue + Entries(Children(site, site.parse(d.text).urls), d.depth + 1))
  {
    var children := Children(site, site.parse(d.text).urls);
    AllStillListed(site, seeds, docs, d, fetched);
    AllStillListed(site, seeds, docs, d, queue);
    forall e | e in Entries(children, d.depth + 1) ensures Listed(site, seeds, docs + [d], e) && e.depth <= MAX_DEPTH {
      EntriesAre(children, d.depth + 1, e);
      assert d in docs + [d] && Lists(site, d, e.url);
    }
    ReachesMore(site, seeds, docs, fetched, queue, d, children);
  }

  lemma ReachesMore(site: Site, seeds: seq<string>, docs: seq<Doc>, fetched: seq<Entry>, queue: seq<Entry>, d: Doc,
      children: seq<string>)
    requires Closed(site, seeds, docs, fetched, queue) && children == Children(site, site.parse(d.text).urls)
    ensures Closed(site, seeds, docs + [d], fetched, queue + Entries(children, d.depth + 1))
  {
    var queue' := queue + Entries(children, d.depth + 1);
    forall u | Reached(fetched, queue, u) ensures Reached(fetched, queue', u) {
      var x :| (x in fetched || x in queue) && x.url == u;
      assert x in fetched || x in queue';
    }
    forall x, u | x in docs + [d] && Lists(site, x, u) ensures Reached(fetched, queue', u) {
      if x !in docs {
        EntriesAre(children, d.depth + 1, Entry(u, d.depth + 1));
        assert Entry(u, d.depth + 1) in queue';
      }
    }
  }

  lemma TakeNext(site: Site, seeds: seq<string>, docs: seq<Doc>, fetched: seq<Entry>, queue: seq<Entry>)
    requires Working(site, seeds, docs, fetched, queue) && queue != []
    ensures Working(site, seeds, docs, fetched + [queue[0]], queue[1..])
  {
    var e, fetched', queue' := queue[0], fetched + [queue[0]], queue[1..];
    assert queue == [e] + queue';
    assert AllListed(site, seeds, docs, fetched');
    forall u | Reached(fetched, queue, u) ensures Reached(fetched', queue', u) {
      var x :| (x in fetched || x in queue) && x.url == u;
      assert x in fetched' || x in queue';
    }
  }

  /** A document already fetched, or off the site, is dropped. */
  lemma SkipNext(site: Site, seeds: seq<string>, docs: seq<Doc>, fetched: seq<Entry>, queue: seq<Entry>)
    requires Working(site, seeds, docs, fetched, queue) && queue != []
    requires queue[0].url in Urls(fetched) || !site.sameSite(queue[0].url)
    ensures Working(site, seeds, docs, fetched, queue[1..])
  {
    var e, queue' := queue[0], queue[1..];
    assert queue == [e] + queue';
    forall u | Reached(fetched, queue, u) && site.sameSite(u) ensures Reached(fetched, queue', u) {
      var x :| (x in fetched || x in queue) && x.url == u;
      if x == e && x !in fetched {
        var i :| 0 <= i < |fetched| && Urls(fetched)[i] == e.url;
        assert fetched[i] in fetched && fetched[i].url == u;
      }
    }
    forall d, u | d in docs && Lists(site, d, u) ensures site.sameSite(u) {
      ChildrenOnSite(site, site.parse(d.text).urls);
    }
  }

  lemma SpendOne(site: Site, fetched: seq<Entry>, budget: nat, e: Entry)
    requires Budgeted(site, fetched, budget) && budget > 0 && e.url !in Urls(fetched) && site.sameSite(e.url)
    requires e.depth <= MAX_DEPTH
    ensures Budgeted(site, fetched + [e], budget - 1)
  {
    assert Urls(fetched + [e]) == Urls(fetched) + [e.url];
  }

  // ---- the documents read -----------------------------------------------------------------------------------

  function FetchedDocs(site: Site, fetched: seq<Entry>): seq<Doc> {
    if fetched == [] then []
    else
      var e := fetched[|fetched| - 1];
      FetchedDocs(site, fetched[..|fetched| - 1]) +
        (if site.fetch(e.url) == "" then [] else [Doc(site.fetch(e.url), e.depth)])
  }

  /** The seed texts, then what each fetch brought, blanks left out. */
  function AllDocs(site: Site, seedTexts: seq<string>, fetched: seq<Entry>): seq<Doc> {
    Docs(NonEmpty(seedTexts)) + FetchedDocs(site, fetched)
  }

  lemma {:induction false} FetchedDocsAre(site: Site, fetched: seq<Entry>, d: Doc)
    ensures d in FetchedDocs(site, fetched) <==>
      d.text != "" && exists e | e in fetched :: site.fetch(e.url) == d.text && e.depth == d.depth
  {
    if fetched != [] {
      FetchedDocsAre(site, fetched[..|fetched| - 1], d);
      assert fetched == fetched[..|fetched| - 1] + [fetched[|fetched| - 1]];
    }
  }

  /** The documents are the texts given and the answers fetched, but for the empty ones. */
  lemma AllDocsAre(site: Site, seedTexts: seq<string>, fetched: seq<Entry>, d: Doc)
    ensures d in AllDocs(site, seedTexts, fetched) <==>
      d.text != "" && ((d.depth == 0 && d.text in seedTexts) ||
        exists e | e in fetched :: site.fetch(e.url) == d.text && e.depth == d.depth)
  {
    FetchedDocsAre(site, fetched, d);
    FilterIs(seedTexts, t => t != "");
    var texts := NonEmpty(seedTexts);
    if d.depth == 0 && d.text in texts {
      var i :| 0 <= i < |texts| && texts[i] == d.text;
      assert Docs(texts)[i] == d;
    }
  }

  lemma FetchedMore(site: Site, seedTexts: seq<string>, fetched: seq<Entry>, e: Entry)
    ensures AllDocs(site, seedTexts, fetched + [e]) ==
      AllDocs(site, seedTexts, fetched) + (if site.fetch(e.url) == "" then [] else [Doc(site.fetch(e.url), e.depth)])
  {
    assert (fetched + [e])[..|fetched|] == fetched;
  }

  /**
    * The worklist. At most four documents are fetched, each on the site, each once, none deeper than two levels,
    * each a seed or a child of an index that was read. The pages are those the documents list, cut at the cap. Unless
    * the cap or the budget stopped it, nothing on the list was left unread. `fetched` logs the requests made and
    * `docs` the texts read.
    */
  method CollectSitemapUrls(site: Site, seedTexts: seq<string>, seedUrls: seq<string>)
    returns (pages: seq<string>, fetched: seq<Entry>, docs: seq<Doc>)
    ensures |fetched| <= MAX_SITEMAP_DOCS && Budgeted(site, fetched, MAX_SITEMAP_DOCS - |fetched|)
    ensures AllListed(site, seedUrls, docs, fetched)
    ensures pages == First(Pages(site, docs), MAX_URLS) && docs <= AllDocs(site, seedTexts, fetched)
    ensures |pages| < MAX_URLS ==> docs == AllDocs(site, seedTexts, fetched)
    ensures |pages| < MAX_URLS && |fetched| < MAX_SITEMAP_DOCS ==> Closed(site, seedUrls, docs, fetched, [])
  {
    pages, fetched, docs := [], [], [];
    var seenDocs: set<string> := {};
    var budget: nat := MAX_SITEMAP_DOCS;
    var queue := Entries(seedUrls, 0);
    var texts := Docs(NonEmpty(seedTexts));
    Starts(site, seedUrls);
    while texts != [] || queue != []
      invariant State(site, seedTexts, seedUrls, docs, texts, fetched, queue, budget, pages)
      invariant Seen(seenDocs, fetched)
      decreases |texts|, budget, |queue|
    {
      var doc: Doc;
      if texts != [] {
        doc := texts[0];
        assert texts == [doc] + texts[1..];
        texts := texts[1..];
      } else {
        if budget <= 0 {
          break;
        }
        var e := queue[0];
        if e.url in seenDocs || !site.sameSite(e.url) {
          Skipped(site, seedTexts, seedUrls, docs, fetched, queue, budget, pages);
          queue := queue[1..];
          continue;
        }
        var text := site.fetch(e.url);
        Took(site, seedTexts, seedUrls, docs, fetched, queue, budget, pages);
        SeenMore(seenDocs, fetched, e);
        queue := queue[1..];
        fetched := fetched + [e];
        seenDocs := seenDocs + {e.url};
        budget := budget - 1;
        if text == "" {
          continue;
        }
        doc := Doc(text, e.depth);
        assert [doc] + texts == [doc];
      }
      var queue', pages' := ReadDoc(site, queue, pages, doc);
      Read(site, seedTexts, seedUrls, docs, doc, texts, fetched, queue, budget, pages);
      queue, pages, docs := queue', pages', docs + [doc];
      if |pages| >= MAX_URLS {
        return;
      }
    }
  }

  ghost predicate State(site: Site, seedTexts: seq<string>, seedUrls: seq<string>, docs: seq<Doc>, texts: seq<Doc>,
      fetched: seq<Entry>, queue: seq<Entry>, budget: nat, pages: seq<string>) {
    && Working(site, seedUrls, docs, fetched, queue) && Budgeted(site, fetched, budget)
    && docs + texts == AllDocs(site, seedTexts, fetched)
    && pages == Pages(site, docs) && |pages| < MAX_URLS
  }

  lemma Skipped(site: Site, seedTexts: seq<string>, seedUrls: seq<string>, docs: seq<Doc>, fetched: seq<Entry>,
      queue: seq<Entry>, budget: nat, pages: seq<string>)
    requires State(site, seedTexts, seedUrls, docs, [], fetched, queue, budget, pages) && queue != []
    requires queue[0].url in Urls(fetched) || !site.sameSite(queue[0].url)
    ensures State(site, seedTexts, seedUrls, docs, [], fetched, queue[1..], budget, pages)
  {
    SkipNext(site, seedUrls, docs, fetched, queue);
  }

  lemma Took(site: Site, seedTexts: seq<string>, seedUrls: seq<string>, docs: seq<Doc>, fetched: seq<Entry>,
      queue: seq<Entry>,
      budget: nat, pages: seq<string>)
    requires State(site, seedTexts, seedUrls, docs, [], fetched, queue, budget, pages) && budget > 0
    requires queue != [] && queue[0].url !in Urls(fetched) && site.sameSite(queue[0].url)
    ensures var e, text := queue[0], site.fetch(queue[0].url);
      State(site, seedTexts, seedUrls, docs,
        if text == "" then [] else [Doc(text, e.depth)], fetched + [e], queue[1..], budget - 1, pages)
  {
    assert queue[0] in queue;
    TakeNext(site, seedUrls, docs, fetched, queue);
    SpendOne(site, fetched, budget, queue[0]);
    FetchedMore(site, seedTexts, fetched, queue[0]);
    assert docs + [] == docs;
  }

  /** What is left to fetch after a document: an index that is not too deep adds its children. */
  function Grown(site: Site, queue: seq<Entry>, doc: Doc): seq<Entry> {
    var parsed := site.parse(doc.text);
    if parsed.isIndex && doc.depth < MAX_DEPTH then queue + Entries(Children(site, parsed.urls), doc.depth + 1)
    else queue
  }

  function PagesOf(site: Site, doc: Doc): seq<string> {
    var parsed := site.parse(doc.text);
    if parsed.isIndex then [] else Filter(parsed.urls, site.sameSite)
  }

  /** Reading one document: an index adds to the list, anything else to the pages. */
  method ReadDoc(site: Site, queue: seq<Entry>, pages: seq<string>, doc: Doc)
    returns (queue': seq<Entry>, pages': seq<string>)
    requires |pages| < MAX_URLS
    ensures queue' == Grown(site, queue, doc) && pages' == First(pages + PagesOf(site, doc), MAX_URLS)
  {
    var parsed := site.parse(doc.text);
    queue', pages' := queue, pages;
    if parsed.isIndex {
      if doc.depth < MAX_DEPTH {
        queue' := queue + Entries(Children(site, parsed.urls), doc.depth + 1);
      }
      assert pages + [] == pages;
    } else {
      pages' := AddPages(site, pages, parsed.urls);
    }
  }

  lemma ReadOne(site: Site, seedTexts: seq<string>, seedUrls: seq<string>, docs: seq<Doc>, doc: Doc, texts: seq<Doc>,
      fetched: seq<Entry>, queue: seq<Entry>, budget: nat, pages: seq<string>)
    requires State(site, seedTexts, seedUrls, docs, [doc] + texts, fetched, queue, budget, pages)
    ensures Working(site, seedUrls, docs + [doc], fetched, Grown(site, queue, doc))
    ensures docs + [doc] + texts == AllDocs(site, seedTexts, fetched)
    ensures Pages(site, docs + [doc]) == pages + PagesOf(site, doc)
  {
    assert (docs + [doc])[..|docs|] == docs;
    assert docs + ([doc] + texts) == docs + [doc] + texts;
    if site.parse(doc.text).isIndex && doc.depth < MAX_DEPTH {
      ReadIndex(site, seedUrls, docs, fetched, queue, doc);
    } else {
      ReadLeaf(site, seedUrls, docs, fetched, queue, doc);
    }
  }

  /** After a document the state is kept, or the cap is reached and the pages are cut there. */
  lemma Read(site: Site, seedTexts: seq<string>, seedUrls: seq<string>, docs: seq<Doc>, doc: Doc, texts: seq<Doc>,
      fetched: seq<Entry>, queue: seq<Entry>, budget: nat, pages: seq<string>)
    requires State(site, seedTexts, seedUrls, docs, [doc] + texts, fetched, queue, budget, pages)
    ensures var pages' := First(pages + PagesOf(site, doc), MAX_URLS);
      && pages' == First(Pages(site, docs + [doc]), MAX_URLS) && docs + [doc] <= AllDocs(site, seedTexts, fetched)
      && (|pages'| < MAX_URLS ==>
            State(site, seedTexts, seedUrls, docs + [doc], texts, fetched, Grown(site, queue, doc), budget, pages'))
  {
    ReadOne(site, seedTexts, seedUrls, docs, doc, texts, fetched, queue, budget, pages);
  }

  ghost predicate Seen(seen: set<string>, fetched: seq<Entry>) {
    forall u :: u in seen <==> u in Urls(fetched)
  }

  lemma SeenMore(seen: set<string>, fetched: seq<Entry>, e: Entry)
    requires Seen(seen, fetched)
    ensures Seen(seen + {e.url}, fetched + [e])
  {
    assert Urls(fetched + [e]) == Urls(fetched) + [e.url];
  }

  lemma Starts(site: Site, seedUrls: seq<string>)
    ensures Working(site, seedUrls, [], [], Entries(seedUrls, 0))
  {
    forall e ensures e in Entries(seedUrls, 0) <==> e.depth == 0 && e.url in seedUrls {
      EntriesAre(seedUrls, 0, e);
    }
    forall u | u in seedUrls ensures Reached([], Entries(seedUrls, 0), u) {
      assert Entry(u, 0) in Entries(seedUrls, 0);
    }
  }
}
