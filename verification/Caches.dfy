/** Preparing a job's rows and streaming its results, and the two caches that must agree with recomputation. */
module Caches {
  import opened Tables
  import opened Seqs

  // ---- the domains of a job -------------------------------------------------------------------------------

  function Domains(items: seq<Option<string>>): seq<string> {
    if items == [] then []
    else
      var r, d := Domains(items[..|items| - 1]), items[|items| - 1];
      if d.Some? && d.value != "" then r + [d.value] else r
  }

  /** Every domain once, in input order. */
  method UniqueDomains(items: seq<Option<string>>) returns (out: seq<string>)
    ensures out == Firsts(Domains(items)) && Distinct(out)
    ensures forall d :: d in out <==> d != "" && Some(d) in items
    ensures |out| == |Newcomers(items)|
    ensures forall i: nat | Newcomer(items, i) ::
      |Newcomers(items[..i])| < |out| && out[|Newcomers(items[..i])|] == items[i].value
  {
    var seen: set<string> := {};
    out := [];
    for i := 0 to |items|
      invariant out == Firsts(Domains(items[..i]))
      invariant forall d :: d in seen <==> d in out
    {
      assert items[..i + 1][..i] == items[..i];
      if items[i].Some? && items[i].value != "" {
        var all := Domains(items[..i]);
        assert (all + [items[i].value])[..|all|] == all;
        if items[i].value !in seen {
          seen := seen + {items[i].value};
          out := out + [items[i].value];
        }
      }
    }
    assert items[..|items|] == items;
    FirstsKeepAll(Domains(items));
    DomainsAre(items);
    UniqueCount(items);
    forall i: nat | Newcomer(items, i)
      ensures |Newcomers(items[..i])| < |out| && out[|Newcomers(items[..i])|] == items[i].value
    {
      UniqueInOrder(items, i);
    }
  }

  lemma {:induction false} DomainsAre(items: seq<Option<string>>)
    ensures forall d :: d in Domains(items) <==> d != "" && Some(d) in items
  {
    if items != [] {
      DomainsAre(items[..|items| - 1]);
      assert items == items[..|items| - 1] + [items[|items| - 1]];
    }
  }

  /** The places where a domain is named for the first time. */
  function Newcomers(items: seq<Option<string>>): set<nat> {
    set h | 0 <= h < |items| && items[h].Some? && items[h].value != "" && items[h] !in items[..h]
  }

  predicate Newcomer(items: seq<Option<string>>, i: nat) {
    i < |items| && items[i].Some? && items[i].value != "" && items[i] !in items[..i]
  }

  /** One more item adds its domain if it has one that was not there. */
  lemma UniqueStep(items: seq<Option<string>>)
    requires items != []
    ensures var n := |items| - 1;
      Firsts(Domains(items)) == Firsts(Domains(items[..n])) + (if Newcomer(items, n) then [items[n].value] else [])
  {
    var n := |items| - 1;
    DomainsAre(items[..n]);
    if items[n].Some? && items[n].value != "" {
      FirstsMore(Domains(items[..n]), items[n].value);
    }
  }

  lemma FirstsMore(before: seq<string>, d: string)
    ensures Firsts(before + [d]) == Firsts(before) + (if d in before then [] else [d])
  {
    FirstsStep(before + [d]);
    assert (before + [d])[..|before|] == before;
  }

  lemma NewcomersStep(items: seq<Option<string>>)
    requires items != []
    ensures var n := |items| - 1; Newcomers(items) == Newcomers(items[..n]) + (if Newcomer(items, n) then {n} else {})
  {
    var n := |items| - 1;
    assert forall h | 0 <= h < n :: items[..n][..h] == items[..h];
  }

  lemma {:induction false} UniqueCount(items: seq<Option<string>>)
    ensures |Firsts(Domains(items))| == |Newcomers(items)|
  {
    if items != [] {
      UniqueStep(items);
      NewcomersStep(items);
      UniqueCount(items[..|items| - 1]);
    }
  }

  /** Domains come in the order in which they are first named. */
  lemma {:induction false} UniqueInOrder(items: seq<Option<string>>, i: nat)
    requires Newcomer(items, i)
    ensures var out, at := Firsts(Domains(items)), |Newcomers(items[..i])|; at < |out| && out[at] == items[i].value
    decreases |items|
  {
    var n := |items| - 1;
    UniqueStep(items);
    if i < n {
      assert items[..n][..i] == items[..i];
      UniqueInOrder(items[..n], i);
    } else {
      UniqueCount(items[..n]);
    }
  }

  const CHUNK := 1000

  /** Rows are inserted a chunk at a time; their sequence numbers run through. */
  method NumberRows(domains: seq<string>) returns (rows: seq<(string, nat)>, ghost largest: nat)
    ensures |rows| == |domains| && forall i | 0 <= i < |domains| :: rows[i] == (domains[i], i)
    ensures largest <= CHUNK
  {
    rows, largest := [], 0;
    var start, next := 0, 0;
    while start < |domains|
      invariant 0 <= start && next == |rows| == (if start <= |domains| then start else |domains|)
      invariant forall i | 0 <= i < |rows| :: rows[i] == (domains[i], i)
      invariant largest <= CHUNK
    {
      var end := if start + CHUNK <= |domains| then start + CHUNK else |domains|;
      var chunk := domains[start..end];
      for i := 0 to |chunk|
        invariant |rows| == start + i && next == start
        invariant forall k | 0 <= k < |rows| :: rows[k] == (domains[k], k)
      {
        rows := rows + [(chunk[i], next + i)];
      }
      largest := if |chunk| > largest then |chunk| else largest;
      next := next + |chunk|;
      start := start + CHUNK;
    }
  }

  // ---- streaming a job's results ----------------------------------------------------------------------------

  const PARSED_CACHE := 2000

  datatype Result = Result(domain: string, text: string) | Invalid(domain: string, reason: string)

  /** An uploaded row joined with its domain's result row, if it has one. */
  datatype Row = Row(domain: Option<string>, invalid: bool, input: string, reason: string, state: string,
      attempts: int, raw: Option<string>)

  datatype Output = Output(result: Option<Result>, domain: Option<string>, retrying: bool)

  /** Parsing a stored result fails on some texts. */
  type Parser = string -> Option<Result>

  /** A row without a domain joins none. */
  predicate Ready(r: Row) {
    r.state == "done" && r.raw.Some? && r.domain.Some?
  }

  function Label(r: Row): string {
    if r.domain.Some? && r.domain.value != "" then r.domain.value
    else if r.input == "" then "-"
    else if |r.input| <= 255 then r.input else r.input[..255]
  }

  function Finished(r: Row, parsed: Option<Result>): Output {
    var result := if parsed.None? && r.invalid then Some(Invalid(Label(r), r.reason)) else parsed;
    Output(result, r.domain, result.None? && r.state == "queued" && r.attempts > 0)
  }

  /** What a row gives when it is parsed afresh. */
  function Fresh(parse: Parser, r: Row): Output {
    Finished(r, if Ready(r) then parse(r.raw.value) else None)
  }

  /**
   What a reader sees of a row: the stored result, if the row is done and the text can be read; else why the upload
   was invalid, under its domain or the beginning of what was typed; else nothing yet, and whether it is being retried.
   */
  ghost predicate Shows(parse: Parser, r: Row, o: Output) {
    var stored := if r.state == "done" && r.raw.Some? && r.domain.Some? then parse(r.raw.value) else None;
    && o.domain == r.domain
    && (stored.Some? ==> o.result == stored && !o.retrying)
    && (stored.None? && r.invalid ==> !o.retrying && o.result.Some? && Explains(r, o.result.value))
    && (stored.None? && !r.invalid ==> o.result == None && (o.retrying <==> r.state == "queued" && r.attempts > 0))
  }

  ghost predicate Explains(r: Row, x: Result) {
    x.Invalid? && x.reason == r.reason && Labels(r, x.domain)
  }

  ghost predicate Labels(r: Row, name: string) {
    if r.domain.Some? && r.domain.value != "" then name == r.domain.value
    else if r.input == "" then name == "-"
    else name <= r.input && |name| == if |r.input| > 255 then 255 else |r.input|
  }

  lemma FreshShows(parse: Parser, r: Row)
    ensures Shows(parse, r, Fresh(parse, r))
  {
  }

  /** Rows of one domain share its result row. */
  ghost predicate Joined(rows: seq<Row>) {
    forall i, j | 0 <= i < |rows| && 0 <= j < |rows| && Ready(rows[i]) &&
        Ready(rows[j]) && rows[i].domain == rows[j].domain ::
      rows[i].raw == rows[j].raw
  }

  /** The domains shown so far, least recently used first. */
  function Recent(rows: seq<Row>): seq<string> {
    if rows == [] then []
    else
      var before, r := Recent(rows[..|rows| - 1]), rows[|rows| - 1];
      if Ready(r) then Without(before, r.domain.value) + [r.domain.value] else before
  }

  lemma {:induction false} RecentDistinct(rows: seq<Row>)
    ensures Distinct(Recent(rows))
  {
    if rows != [] {
      var before, r := Recent(rows[..|rows| - 1]), rows[|rows| - 1];
      RecentDistinct(rows[..|rows| - 1]);
      if Ready(r) {
        WithoutIs(before, r.domain.value);
      }
    }
  }

  /** Row `h` shows domain `d` from its stored result. */
  predicate UsedAt(rows: seq<Row>, h: nat, d: string) {
    h < |rows| && Ready(rows[h]) && rows[h].domain.value == d
  }

  /** `e` was used after the last use of `d`. */
  ghost predicate Later(rows: seq<Row>, d: string, e: string) {
    exists h: nat | UsedAt(rows, h, e) :: forall g: nat | UsedAt(rows, g, d) :: g < h
  }

  lemma {:induction false} RecentAre(rows: seq<Row>, d: string)
    ensures d in Recent(rows) <==> exists h: nat :: UsedAt(rows, h, d)
  {
    if rows != [] {
      var n := |rows| - 1;
      RecentAre(rows[..n], d);
      if Ready(rows[n]) {
        WithoutIs(Recent(rows[..n]), rows[n].domain.value);
      }
      forall h: nat | h < n ensures UsedAt(rows[..n], h, d) <==> UsedAt(rows, h, d) {
      }
      if d in Recent(rows) {
        if d in Recent(rows[..n]) {
          var h: nat :| UsedAt(rows[..n], h, d);
          assert UsedAt(rows, h, d);
        } else {
          assert UsedAt(rows, n, d);
        }
      }
    }
  }

  lemma LaterStays(rows: seq<Row>, d: string, e: string)
    requires rows != [] && Later(rows[..|rows| - 1], d, e) && !UsedAt(rows, |rows| - 1, d)
    ensures Later(rows, d, e)
  {
    var n := |rows| - 1;
    var h: nat :| UsedAt(rows[..n], h, e) && forall g: nat | UsedAt(rows[..n], g, d) :: g < h;
    assert UsedAt(rows, h, e);
    forall g: nat | UsedAt(rows, g, d) ensures g < h {
      assert UsedAt(rows[..n], g, d);
    }
  }

  /** Least recently used first. */
  lemma {:induction false} RecentInOrder(rows: seq<Row>, i: nat, j: nat)
    requires i < j < |Recent(rows)|
    ensures Later(rows, Recent(rows)[i], Recent(rows)[j])
  {
    var n := |rows| - 1;
    var before, all := Recent(rows[..n]), Recent(rows);
    RecentDistinct(rows);
    if !Ready(rows[n]) {
      RecentInOrder(rows[..n], i, j);
      LaterStays(rows, all[i], all[j]);
    } else {
      var x := rows[n].domain.value;
      assert all == Without(before, x) + [x] && all[|all| - 1] == x;
      if j == |all| - 1 {
        assert UsedAt(rows, n, x);
      } else {
        var i', j' := WithoutInOrder(before, x, i, j);
        RecentInOrder(rows[..n], i', j');
        LaterStays(rows, all[i], all[j]);
      }
    }
  }

  lemma LastOf(a: seq<string>, w: seq<string>, n: nat)
    requires |w| <= n && (|w| == n || a == [])
    ensures Last(a + w, n) == w
  {
    if |w| == n {
      assert (a + w)[|a|..] == w;
    } else {
      assert a + w == w;
    }
  }

  lemma Split(s: seq<string>, n: nat) returns (a: seq<string>, w: seq<string>)
    ensures s == a + w && w == Last(s, n) && |w| <= n && (|w| == n || a == [])
  {
    w := Last(s, n);
    a := s[..|s| - |w|];
  }

  lemma Apart(a: seq<string>, w: seq<string>, d: string)
    requires Distinct(a + w) && d in w
    ensures d !in a && Distinct(w)
  {
    var j :| 0 <= j < |w| && w[j] == d;
    forall i | 0 <= i < |a| ensures a[i] != d {
      assert (a + w)[i] == a[i] && (a + w)[|a| + j] == d;
    }
    forall i, k | 0 <= i < k < |w| ensures w[i] != w[k] {
      assert (a + w)[|a| + i] == w[i] && (a + w)[|a| + k] == w[k];
    }
  }

  /** Using a cached domain moves it to the end of the window ... */
  lemma UseCached(s: seq<string>, d: string, n: nat)
    requires Distinct(s) && d in Last(s, n)
    ensures Last(Without(s, d) + [d], n) == Without(Last(s, n), d) + [d]
  {
    var a, w := Split(s, n);
    Apart(a, w, d);
    WithoutSplits(a, w, d);
    WithoutIs(a, d);
    WithoutIs(w, d);
    assert Without(s, d) + [d] == a + (Without(w, d) + [d]);
    LastOf(a, Without(w, d) + [d], n);
  }

  /** ... and a new one pushes the least recently used out of a full one. */
  lemma UseNew(s: seq<string>, d: string, n: nat)
    requires d !in Last(s, n) && n > 0
    ensures Last(Without(s, d) + [d], n) == if |Last(s, n)| < n then Last(s, n) + [d] else Last(s, n)[1..] + [d]
  {
    var a, w := Split(s, n);
    WithoutSplits(a, w, d);
    WithoutIs(w, d);
    Rotates(Without(a, d), w, d, n);
  }

  lemma Rotates(a: seq<string>, w: seq<string>, d: string, n: nat)
    requires n > 0 && |w| <= n && (|w| == n || a == [])
    ensures Last(a + w + [d], n) == if |w| < n then w + [d] else w[1..] + [d]
  {
    if |w| < n {
      assert a + w + [d] == [] + (w + [d]);
      LastOf([], w + [d], n);
    } else {
      assert w == [w[0]] + w[1..];
      assert a + w + [d] == (a + [w[0]]) + (w[1..] + [d]);
      LastOf(a + [w[0]], w[1..] + [d], n);
    }
  }

  // An ordered dictionary, oldest entry first.

  datatype Cache = Cache(order: seq<string>, values: map<string, Option<Result>>)

  function Touch(c: Cache, d: string): Cache {
    c.(order := Without(c.order, d) + [d])
  }

  /** Forgets the oldest entry past the cap. */
  function Remember(c: Cache, d: string, v: Option<Result>): Cache {
    var order, values := c.order + [d], c.values[d := v];
    if |order| > PARSED_CACHE then Cache(order[1..], values - {order[0]}) else Cache(order, values)
  }

  ghost predicate Keyed(c: Cache) {
    Distinct(c.order) && forall d :: d in c.values <==> d in c.order
  }

  ghost predicate Valued(c: Cache, parse: Parser, rows: seq<Row>) {
    forall k | 0 <= k < |rows| && Ready(rows[k]) && rows[k].domain.value in c.values ::
      c.values[rows[k].domain.value] == parse(rows[k].raw.value)
  }

  /** The cache holds the most recently used domains, each with what parsing its row gives. */
  ghost predicate Holds(c: Cache, parse: Parser, rows: seq<Row>, i: nat)
    requires i <= |rows|
  {
    c.order == Last(Recent(rows[..i]), PARSED_CACHE) && Keyed(c) && Valued(c, parse, rows)
  }

  lemma TouchKeyed(c: Cache, d: string)
    requires Keyed(c) && d in c.order
    ensures Keyed(Touch(c, d))
  {
    WithoutIs(c.order, d);
  }

  lemma RememberKeyed(c: Cache, d: string, v: Option<Result>)
    requires Keyed(c) && d !in c.order
    ensures Keyed(Remember(c, d, v)) && (|c.order| <= PARSED_CACHE ==> |Remember(c, d, v).order| <= PARSED_CACHE)
  {
    var order := c.order + [d];
    assert Distinct(order);
    if |order| > PARSED_CACHE {
      assert order == [order[0]] + order[1..];
      assert order[0] !in order[1..];
      assert forall x :: x in order <==> x == order[0] || x in order[1..];
    }
  }

  lemma TouchHolds(c: Cache, parse: Parser, rows: seq<Row>, i: nat)
    requires i < |rows| && Ready(rows[i]) && Holds(c, parse, rows, i) && rows[i].domain.value in c.values
    ensures Holds(Touch(c, rows[i].domain.value), parse, rows, i + 1)
  {
    var d := rows[i].domain.value;
    assert rows[..i + 1][..i] == rows[..i];
    RecentDistinct(rows[..i]);
    UseCached(Recent(rows[..i]), d, PARSED_CACHE);
    TouchKeyed(c, d);
  }

  lemma RememberPushes(c: Cache, d: string, v: Option<Result>)
    requires |c.order| <= PARSED_CACHE
    ensures Remember(c, d, v).order == if |c.order| < PARSED_CACHE then c.order + [d] else c.order[1..] + [d]
  {
    if |c.order| == PARSED_CACHE {
      assert (c.order + [d])[1..] == c.order[1..] + [d];
    }
  }

  lemma RecentMore(rows: seq<Row>, i: nat)
    requires i < |rows| && Ready(rows[i])
    ensures Recent(rows[..i + 1]) == Without(Recent(rows[..i]), rows[i].domain.value) + [rows[i].domain.value]
  {
    assert rows[..i + 1][..i] == rows[..i];
  }

  lemma RememberOrder(c: Cache, rows: seq<Row>, i: nat, v: Option<Result>)
    requires i < |rows| && Ready(rows[i]) && c.order == Last(Recent(rows[..i]), PARSED_CACHE)
    requires rows[i].domain.value !in c.order
    ensures Remember(c, rows[i].domain.value, v).order == Last(Recent(rows[..i + 1]), PARSED_CACHE)
  {
    RecentMore(rows, i);
    UseNew(Recent(rows[..i]), rows[i].domain.value, PARSED_CACHE);
    RememberPushes(c, rows[i].domain.value, v);
  }

  lemma RememberValued(c: Cache, parse: Parser, rows: seq<Row>, i: nat)
    requires i < |rows| && Ready(rows[i]) && Joined(rows) && Valued(c, parse, rows)
    ensures Valued(Remember(c, rows[i].domain.value, parse(rows[i].raw.value)), parse, rows)
  {
    var d, v := rows[i].domain.value, parse(rows[i].raw.value);
    var c' := Remember(c, d, v);
    forall k | 0 <= k < |rows| && Ready(rows[k]) && rows[k].domain.value in c'.values
      ensures c'.values[rows[k].domain.value] == parse(rows[k].raw.value)
    {
      assert rows[k].domain.value == d ==> rows[k].domain == rows[i].domain;
    }
  }

  lemma RememberHolds(c: Cache, parse: Parser, rows: seq<Row>, i: nat)
    requires i < |rows| && Ready(rows[i]) && Joined(rows) && Holds(c, parse, rows, i)
    requires rows[i].domain.value !in c.values
    ensures Holds(Remember(c, rows[i].domain.value, parse(rows[i].raw.value)), parse, rows, i + 1)
  {
    var d, v := rows[i].domain.value, parse(rows[i].raw.value);
    RememberOrder(c, rows, i, v);
    RememberKeyed(c, d, v);
    RememberValued(c, parse, rows, i);
  }

  method Lookup(c: Cache, parse: Parser, rows: seq<Row>, i: nat) returns (c': Cache, result: Option<Result>)
    requires i < |rows| && Ready(rows[i]) && Joined(rows) && Holds(c, parse, rows, i)
    ensures Holds(c', parse, rows, i + 1) && |c'.order| <= PARSED_CACHE && result == parse(rows[i].raw.value)
  {
    var d := rows[i].domain.value;
    if d in c.values {
      TouchHolds(c, parse, rows, i);
      c' := Touch(c, d);
      result := c'.values[d];
    } else {
      result := parse(rows[i].raw.value);
      RememberHolds(c, parse, rows, i);
      c' := Remember(c, d, result);
    }
  }

  /**
    * One output per row, in order, the same as parsing every row afresh; the cache never holds more than the cap
    * between rows, and what it holds is the domains used last.
    */
  method StreamRows(rows: seq<Row>, parse: Parser) returns (out: seq<Output>, cache: Cache)
    requires Joined(rows)
    ensures |out| == |rows| && forall i | 0 <= i < |rows| :: out[i] == Fresh(parse, rows[i])
    ensures forall i | 0 <= i < |rows| :: Shows(parse, rows[i], out[i])
    ensures cache.order == Last(Recent(rows), PARSED_CACHE) && |cache.order| <= PARSED_CACHE
  {
    out, cache := [], Cache([], map[]);
    for i := 0 to |rows|
      invariant |out| == i && forall k | 0 <= k < i :: out[k] == Fresh(parse, rows[k]) && Shows(parse, rows[k], out[k])
      invariant Holds(cache, parse, rows, i) && |cache.order| <= PARSED_CACHE
    {
      assert rows[..i + 1][..i] == rows[..i];
      var result: Option<Result> := None;
      if Ready(rows[i]) {
        cache, result := Lookup(cache, parse, rows, i);
      }
      FreshShows(parse, rows[i]);
      out := out + [Finished(rows[i], result)];
    }
    assert rows[..|rows|] == rows;
  }

  // ---- the memo over fetched pages --------------------------------------------------------------------------

  datatype Page = Page(url: string, score: int, html: string)

  /** What one attempt at a domain has gathered. `extracted` is keyed by the number of pages alone. */
  class Scratch<Out(==)> {
    const extract: (seq<Page>, Option<string>) -> Out
    var pages: seq<Page>
    var finalDomain: Option<string>
    var extracted: Option<(nat, Out)>

    ghost predicate Valid()
      reads this
    {
      extracted.Some? ==>
        extracted.value.0 <= |pages| && extracted.value.1 == extract(pages[..extracted.value.0], finalDomain)
    }

    constructor (f: (seq<Page>, Option<string>) -> Out)
      ensures Valid() && extract == f && pages == [] && finalDomain == None && extracted == None
    {
      extract := f;
      pages, finalDomain, extracted := [], None, None;
    }

    /** The final domain is known before anything is extracted. */
    method Land(domain: string)
      requires Valid() && extracted.None?
      modifies this
      ensures Valid() && finalDomain == Some(domain) && pages == old(pages) && extracted.None?
    {
      finalDomain := Some(domain);
    }

    method AddPage(p: Page)
      requires Valid()
      modifies this
      ensures Valid() && pages == old(pages) + [p] && finalDomain == old(finalDomain) && extracted == old(extracted)
    {
      ghost var before := pages;
      pages := pages + [p];
      assert extracted.Some? ==> pages[..extracted.value.0] == before[..extracted.value.0];
    }

    /** The memo gives what extracting the pages now would. */
    method ExtractAll() returns (out: Out)
      requires Valid()
      modifies this
      ensures Valid() && out == extract(pages, finalDomain)
      ensures pages == old(pages) && finalDomain == old(finalDomain) && extracted.Some?
    {
      if extracted.Some? && extracted.value.0 == |pages| {
        assert pages[..|pages|] == pages;
        return extracted.value.1;
      }
      out := extract(pages, finalDomain);
      extracted := Some((|pages|, out));
      assert pages[..|pages|] == pages;
    }
  }

  method AddPages<Out(==)>(scratch: Scratch<Out>, fetched: seq<Page>)
    requires scratch.Valid()
    modifies scratch
    ensures scratch.Valid() && scratch.pages == old(scratch.pages) + fetched
    ensures scratch.finalDomain == old(scratch.finalDomain)
  {
    for i := 0 to |fetched|
      invariant scratch.Valid() && scratch.pages == old(scratch.pages) + fetched[..i]
      invariant scratch.finalDomain == old(scratch.finalDomain)
    {
      scratch.AddPage(fetched[i]);
      assert fetched[..i + 1] == fetched[..i] + [fetched[i]];
    }
    assert fetched[..|fetched|] == fetched;
  }

  /** Extracting, adding pages and extracting again gives each time what extracting the pages so far would. */
  method Attempt<Out(==)>(f: (seq<Page>, Option<string>) -> Out, domain: string, pages: seq<Page>, more: seq<Page>)
    returns (early: Out, late: Out, again: Out)
    ensures early == f(pages, Some(domain)) && late == again == f(pages + more, Some(domain))
  {
    var scratch := new Scratch(f);
    scratch.Land(domain);
    AddPages(scratch, pages);
    assert scratch.pages == pages;
    early := scratch.ExtractAll();
    AddPages(scratch, more);
    late := scratch.ExtractAll();
    again := scratch.ExtractAll();
  }
}
