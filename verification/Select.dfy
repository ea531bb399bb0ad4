/** Which subpages of a site to fetch: score by tier, dedupe by canonical URL, then pick greedily. */
module Select {
  import opened Tables

  datatype Tier = Contact | Quote | About | Legal | Locations

  const ANCHOR_BONUS := 10

  /** A scored URL. `url` is the canonical form; `fetchUrl` is what the site published. */
  datatype Page = Page(url: string, score: int, tier: Option<Tier>, depth: nat, anchor: string, fetchUrl: string)

  // ---- scores -------------------------------------------------------------------------------------------

  function BaseScore(tier: Option<Tier>): nat {
    match tier
    case None => 0
    case Some(Contact) => 100
    case Some(Quote) => 80
    case Some(About) => 60
    case Some(Legal) => 40
    case Some(Locations) => 20
  }

  /** The tiers are tried in table order. */
  function TierFor(matches: set<Tier>): (r: Option<Tier>)
    ensures r.None? <==> matches == {}
    ensures r.Some? ==> r.value in matches && forall t | t in matches :: BaseScore(Some(t)) <= BaseScore(r)
  {
    if Contact in matches then Some(Contact)
    else if Quote in matches then Some(Quote)
    else if About in matches then Some(About)
    else if Legal in matches then Some(Legal)
    else if Locations in matches then Some(Locations)
    else
      NoTierLeft(matches);
      None
  }

  lemma NoTierLeft(matches: set<Tier>)
    requires Contact !in matches && Quote !in matches && About !in matches && Legal !in matches && Locations !in matches
    ensures matches == {}
  {
    forall t ensures t !in matches {
      match t {
        case Contact => case Quote => case About => case Legal => case Locations =>
      }
    }
  }

  /** A score of nothing means the URL is never fetched. */
  function ScoreUrl(excluded: bool, matches: set<Tier>, anchorMatches: bool): (r: Option<int>)
    ensures r.None? <==> excluded || (matches == {} && !anchorMatches)
    ensures r.Some? ==>
      Scored(r.value, TierFor(matches)) && (r.value == BaseScore(TierFor(matches)) <==> !anchorMatches)
  {
    var total := BaseScore(TierFor(matches)) + (if anchorMatches then ANCHOR_BONUS else 0);
    if excluded || total <= 0 then None else Some(total)
  }

  predicate Scored(score: int, tier: Option<Tier>) {
    score > 0 && (score == BaseScore(tier) || score == BaseScore(tier) + ANCHOR_BONUS)
  }

  /** Bases are further apart than the bonus, so a score tells its tier. */
  lemma ScoreTellsTier(score: int, a: Option<Tier>, b: Option<Tier>)
    requires Scored(score, a) && Scored(score, b)
    ensures a == b
  {
  }

  // ---- one candidate per URL ------------------------------------------------------------------------------

  function Best(candidates: seq<Page>): map<string, Page> {
    if candidates == [] then map[]
    else
      var n := |candidates| - 1;
      var before, c := Best(candidates[..n]), candidates[n];
      if c.url !in before || c.score > before[c.url].score then before[c.url := c] else before
  }

  ghost predicate FirstBest(candidates: seq<Page>, i: nat)
    requires i < |candidates|
  {
    forall j | 0 <= j < |candidates| && candidates[j].url == candidates[i].url ::
      candidates[j].score <= candidates[i].score && (j < i ==> candidates[j].score < candidates[i].score)
  }

  /** Each URL keeps its best-scored candidate, the earliest of those. */
  lemma {:induction false} BestIsFirstBest(candidates: seq<Page>, u: string)
    ensures u in Best(candidates) <==> exists i | 0 <= i < |candidates| :: candidates[i].url == u
    ensures u in Best(candidates) ==>
      exists i | 0 <= i < |candidates| ::
        candidates[i] == Best(candidates)[u] && candidates[i].url == u && FirstBest(candidates, i)
  {
    if candidates != [] {
      var n := |candidates| - 1;
      var front := candidates[..n];
      BestIsFirstBest(front, u);
      if u in Best(front) {
        var i :| 0 <= i < n && front[i] == Best(front)[u] && front[i].url == u && FirstBest(front, i);
        assert candidates[i] == front[i];
        forall j | 0 <= j < n ensures candidates[j] == front[j] {
        }
        if candidates[n].url == u && candidates[n].score > front[i].score {
          assert FirstBest(candidates, n);
        } else {
          assert FirstBest(candidates, i);
        }
      } else if candidates[n].url == u {
        forall j | 0 <= j < n ensures candidates[j].url != u {
          assert front[j] == candidates[j];
        }
        assert FirstBest(candidates, n);
      } else {
        forall j | 0 <= j < n ensures candidates[j].url != u {
          assert front[j] == candidates[j];
        }
      }
    }
  }

  // ---- the order ------------------------------------------------------------------------------------------

  /** What the order and the tier cap look at. */
  datatype Key = Key(url: string, score: int, tier: Option<Tier>, depth: nat)

  function KeyOf(p: Page): Key {
    Key(p.url, p.score, p.tier, p.depth)
  }

  predicate Less(a: string, b: string) {
    b != [] && (a == [] || a[0] < b[0] || (a[0] == b[0] && Less(a[1..], b[1..])))
  }

  /** Higher score, then shallower, then shorter, then by text. */
  predicate Before(a: Key, b: Key) {
    if a.score != b.score then a.score > b.score
    else if a.depth != b.depth then a.depth < b.depth
    else if |a.url| != |b.url| then |a.url| < |b.url|
    else Less(a.url, b.url)
  }

  lemma {:induction false} LessOrders(a: string, b: string, c: string)
    ensures !(Less(a, b) && Less(b, a)) && !Less(a, a)
    ensures Less(a, b) || Less(b, a) || a == b
    ensures Less(a, b) && Less(b, c) ==> Less(a, c)
  {
    if a != [] && b != [] {
      LessOrders(a[1..], b[1..], if c != [] then c[1..] else []);
      assert a == [a[0]] + a[1..] && b == [b[0]] + b[1..];
    } else if a != [] {
      LessOrders(a[1..], [], []);
    }
  }

  lemma {:induction false} LessIs(a: string, b: string)
    requires |a| == |b|
    ensures Less(a, b) <==> exists i | 0 <= i < |a| :: a[..i] == b[..i] && a[i] < b[i]
  {
    if a != [] {
      LessIs(a[1..], b[1..]);
      if a[0] < b[0] {
        assert a[..0] == b[..0];
      }
      if a[0] == b[0] && Less(a[1..], b[1..]) {
        var i :| 0 <= i < |a| - 1 && a[1..][..i] == b[1..][..i] && a[1..][i] < b[1..][i];
        assert a[..i + 1] == [a[0]] + a[1..][..i] && b[..i + 1] == [b[0]] + b[1..][..i];
      }
      if i :| 0 <= i < |a| && a[..i] == b[..i] && a[i] < b[i] {
        if i > 0 {
          assert a[..i][0] == b[..i][0];
          assert a[1..][..i - 1] == a[..i][1..] && b[1..][..i - 1] == b[..i][1..];
          assert a[1..][i - 1] < b[1..][i - 1];
        }
      }
    }
  }

  /** A page comes first by a higher score, a shallower path, a shorter URL, or the first character that differs. */
  lemma BeforeIs(a: Key, b: Key)
    ensures Before(a, b) <==>
      || a.score > b.score
      || (a.score == b.score && a.depth < b.depth)
      || (a.score == b.score && a.depth == b.depth && |a.url| < |b.url|)
      || (a.score == b.score && a.depth == b.depth && |a.url| == |b.url| &&
          exists i | 0 <= i < |a.url| :: a.url[..i] == b.url[..i] && a.url[i] < b.url[i])
  {
    if |a.url| == |b.url| {
      LessIs(a.url, b.url);
    }
  }

  lemma BeforeOrders(a: Key, b: Key, c: Key)
    ensures !(Before(a, b) && Before(b, a)) && !Before(a, a)
    ensures Before(a, b) || Before(b, a) || a.url == b.url
    ensures Before(a, b) && Before(b, c) ==> Before(a, c)
  {
    LessOrders(a.url, b.url, c.url);
  }

  ghost predicate Ascending(ks: seq<Key>) {
    forall i, j | 0 <= i < j < |ks| :: Before(ks[i], ks[j])
  }

  function Keys(ps: seq<Page>): seq<Key> {
    seq(|ps|, i requires 0 <= i < |ps| => KeyOf(ps[i]))
  }

  /** The deduplicated candidates in rank order. */
  ghost predicate Ranked(candidates: seq<Page>, ordered: seq<Page>) {
    && Ascending(Keys(ordered))
    && (forall p | p in ordered :: p.url in Best(candidates) && Best(candidates)[p.url] == p)
    && (forall u | u in Best(candidates) :: Best(candidates)[u] in ordered)
  }

  lemma {:induction false} AscendingUnique(a: seq<Key>, b: seq<Key>)
    requires Ascending(a) && Ascending(b) && forall k :: k in a <==> k in b
    ensures a == b
  {
    if a == [] || b == [] {
      HasSome(a);
      HasSome(b);
    } else {
      SameHead(a, b);
      forall k ensures k in a[1..] <==> k in b[1..] {
        TailHas(a, k);
        TailHas(b, k);
      }
      AscendingUnique(a[1..], b[1..]);
      assert a == [a[0]] + a[1..] && b == [b[0]] + b[1..];
    }
  }

  lemma HasSome(a: seq<Key>)
    ensures a != [] ==> exists k :: k in a
  {
    if a != [] {
      assert a[0] in a;
    }
  }

  lemma SameHead(a: seq<Key>, b: seq<Key>)
    requires a != [] && b != [] && Ascending(a) && Ascending(b) && forall k :: k in a <==> k in b
    ensures a[0] == b[0]
  {
    assert a[0] in b && b[0] in a;
    var i :| 0 <= i < |b| && b[i] == a[0];
    var j :| 0 <= j < |a| && a[j] == b[0];
    BeforeOrders(a[0], b[0], a[0]);
  }

  lemma TailHas(a: seq<Key>, k: Key)
    requires a != [] && Ascending(a)
    ensures k in a[1..] <==> k in a && k != a[0]
  {
    assert a == [a[0]] + a[1..];
    BeforeOrders(k, k, k);
    if k in a[1..] {
      var i :| 0 <= i < |a| - 1 && a[1..][i] == k;
      assert Before(a[0], a[i + 1]);
    }
  }

  // ---- the greedy pick ------------------------------------------------------------------------------------

  function Used(used: map<Option<Tier>, int>, t: Option<Tier>): int {
    if t in used then used[t] else 0
  }

  function Greedy(ordered: seq<Page>, room: int, used: map<Option<Tier>, int>, cap: int): seq<Page> {
    if ordered == [] || room <= 0 then []
    else
      var p := ordered[0];
      if Used(used, p.tier) >= cap then Greedy(ordered[1..], room, used, cap)
      else [p] + Greedy(ordered[1..], room - 1, used[p.tier := Used(used, p.tier) + 1], cap)
  }

  // ---- the pick is optimal --------------------------------------------------------------------------------

  ghost function Total(s: set<Page>): int {
    if s == {} then 0 else
      var p :| p in s;
      p.score + Total(s - {p})
  }

  lemma {:induction false} TotalWithout(s: set<Page>, p: Page)
    requires p in s
    ensures Total(s) == p.score + Total(s - {p})
    decreases s
  {
    var q :| q in s && Total(s) == q.score + Total(s - {q});
    if q != p {
      TotalWithout(s - {q}, p);
      TotalWithout(s - {p}, q);
      assert s - {q} - {p} == s - {p} - {q};
    }
  }

  function OfTier(s: set<Page>, t: Option<Tier>): set<Page> {
    set p | p in s && p.tier == t
  }

  function Elems(ps: seq<Page>): set<Page> {
    set p | p in ps
  }

  ghost predicate Within(s: set<Page>, room: int, used: map<Option<Tier>, int>, cap: int) {
    && |s| <= Floor0(room)
    && forall t {:trigger OfTier(s, t)} :: |OfTier(s, t)| <= Floor0(cap - Used(used, t))
  }

  function Floor0(n: int): nat {
    if n < 0 then 0 else n
  }

  /** Scores never rise along the list, no page comes twice and none is worth less than nothing. */
  ghost predicate Falling(ps: seq<Page>) {
    ps == [] || (Leads(ps[0], Elems(ps[1..])) && Falling(ps[1..]))
  }

  ghost predicate Leads(p: Page, rest: set<Page>) {
    p.score >= 0 && p !in rest && forall q | q in rest :: q.score <= p.score
  }

  lemma TakenWithout(s: set<Page>, y: Page, p: Page, room: int, used: map<Option<Tier>, int>, cap: int)
    requires Within(s, room, used, cap) && y in s && room > 0 && Used(used, p.tier) < cap
    requires y.tier == p.tier || OfTier(s, p.tier) == {}
    ensures Within(s - {y}, room - 1, used[p.tier := Used(used, p.tier) + 1], cap)
  {
    var used' := used[p.tier := Used(used, p.tier) + 1];
    forall t ensures |OfTier(s - {y}, t)| <= Floor0(cap - Used(used', t)) {
      assert OfTier(s - {y}, t) == OfTier(s, t) - {y};
      assert |OfTier(s, t)| <= Floor0(cap - Used(used, t));
      if t == p.tier && y.tier == p.tier {
        assert y in OfTier(s, t);
      }
    }
  }

  lemma EmptyWithin(room: int, used: map<Option<Tier>, int>, cap: int)
    ensures Within({}, room, used, cap)
  {
    forall t ensures OfTier({}, t) == {} {
    }
  }

  lemma NoRoomInTier(s: set<Page>, p: Page, room: int, used: map<Option<Tier>, int>, cap: int)
    requires Within(s, room, used, cap) && Used(used, p.tier) >= cap
    ensures p !in s
  {
    assert OfTier(s, p.tier) == {};
    assert p in s ==> p in OfTier(s, p.tier);
  }

  /** Some page of s whose place the better page p can take. */
  lemma GiveUp(s: set<Page>, p: Page) returns (y: Page)
    requires s != {}
    ensures y in s && (y.tier == p.tier || OfTier(s, p.tier) == {})
  {
    if OfTier(s, p.tier) == {} {
      y :| y in s;
    } else {
      y :| y in OfTier(s, p.tier);
    }
  }

  lemma TailElems(ps: seq<Page>)
    requires ps != []
    ensures Elems(ps) == {ps[0]} + Elems(ps[1..])
  {
    assert ps == [ps[0]] + ps[1..];
  }

  lemma FallingHead(ps: seq<Page>)
    requires ps != [] && Falling(ps)
    ensures Falling(ps[1..]) && ps[0] !in Elems(ps[1..]) && ps[0].score >= 0
    ensures forall q | q in Elems(ps) :: q.score <= ps[0].score
  {
    TailElems(ps);
  }

  /** No set of ranked pages within the limits totals more than the greedy pick. */
  lemma {:induction false} GreedyIsBest(ps: seq<Page>, room: int, used: map<Option<Tier>, int>, cap: int, s: set<Page>)
    requires Falling(ps) && s <= Elems(ps) && Within(s, room, used, cap)
    ensures AtMost(s, Greedy(ps, room, used, cap), Elems(ps))
    decreases |ps|
  {
    if ps != [] && room > 0 {
      TailElems(ps);
      FallingHead(ps);
      var p := ps[0];
      if Used(used, p.tier) >= cap {
        NoRoomInTier(s, p, room, used, cap);
        GreedyIsBest(ps[1..], room, used, cap, s);
      } else {
        var s' := Exchange(s, p, Elems(ps[1..]), room, used, cap);
        GreedyIsBest(ps[1..], room - 1, used[p.tier := Used(used, p.tier) + 1], cap, s');
        StepUp(ps, room, used, cap, s, s');
      }
    }
  }

  lemma StepUp(ps: seq<Page>, room: int, used: map<Option<Tier>, int>, cap: int, s: set<Page>, s': set<Page>)
    requires ps != [] && room > 0 && Used(used, ps[0].tier) < cap && ps[0] !in Elems(ps[1..])
    requires AtMost(s', Greedy(ps[1..], room - 1, used[ps[0].tier := Used(used, ps[0].tier) + 1], cap), Elems(ps[1..]))
    requires Total(s) <= ps[0].score + Total(s')
    ensures AtMost(s, Greedy(ps, room, used, cap), Elems(ps))
  {
    TailElems(ps);
    HeadCounts(ps[0],
      Greedy(ps[1..], room - 1, used[ps[0].tier := Used(used, ps[0].tier) + 1], cap), Elems(ps[1..]), s, s');
  }

  ghost predicate AtMost(s: set<Page>, pick: seq<Page>, all: set<Page>) {
    Total(s) <= Total(Elems(pick)) && Elems(pick) <= all
  }

  /** Room for the better page p, at the price of one page worth no more. */
  lemma Exchange(s: set<Page>, p: Page, rest: set<Page>, room: int, used: map<Option<Tier>, int>, cap: int)
    returns (s': set<Page>)
    requires Within(s, room, used, cap) && room > 0 && Used(used, p.tier) < cap
    requires s <= {p} + rest && p.score >= 0 && forall q | q in s :: q.score <= p.score
    ensures s' <= rest && Within(s', room - 1, used[p.tier := Used(used, p.tier) + 1], cap)
    ensures Total(s) <= p.score + Total(s')
  {
    if s == {} {
      s' := {};
      EmptyWithin(room - 1, used[p.tier := Used(used, p.tier) + 1], cap);
    } else {
      var y := p;
      if p !in s {
        y := GiveUp(s, p);
      }
      s' := s - {y};
      TakenWithout(s, y, p, room, used, cap);
      TotalWithout(s, y);
    }
  }

  lemma HeadCounts(p: Page, g: seq<Page>, rest: set<Page>, s: set<Page>, s': set<Page>)
    requires AtMost(s', g, rest) && p !in rest && Total(s) <= p.score + Total(s')
    ensures AtMost(s, [p] + g, {p} + rest)
  {
    assert Elems([p] + g) == {p} + Elems(g);
    assert Elems([p] + g) - {p} == Elems(g);
    TotalWithout(Elems([p] + g), p);
  }

  lemma {:induction false} GreedyFits(ps: seq<Page>, room: int, used: map<Option<Tier>, int>, cap: int)
    requires Falling(ps)
    ensures Fits(Greedy(ps, room, used, cap), Elems(ps), room, used, cap)
    decreases |ps|
  {
    if ps == [] || room <= 0 {
      EmptyFits(Elems(ps), room, used, cap);
    } else if Used(used, ps[0].tier) >= cap {
      GreedyFits(ps[1..], room, used, cap);
      SkipFits(ps, room, used, cap);
    } else {
      GreedyFits(ps[1..], room - 1, used[ps[0].tier := Used(used, ps[0].tier) + 1], cap);
      TakeFits(ps, room, used, cap);
    }
  }

  lemma SkipFits(ps: seq<Page>, room: int, used: map<Option<Tier>, int>, cap: int)
    requires ps != [] && room > 0 && Used(used, ps[0].tier) >= cap
    requires Fits(Greedy(ps[1..], room, used, cap), Elems(ps[1..]), room, used, cap)
    ensures Fits(Greedy(ps, room, used, cap), Elems(ps), room, used, cap)
  {
    TailElems(ps);
    FitsMore(Greedy(ps[1..], room, used, cap), Elems(ps[1..]), Elems(ps), room, used, cap);
  }

  lemma TakeFits(ps: seq<Page>, room: int, used: map<Option<Tier>, int>, cap: int)
    requires ps != [] && room > 0 && Used(used, ps[0].tier) < cap && Leads(ps[0], Elems(ps[1..]))
    requires var used' := used[ps[0].tier := Used(used, ps[0].tier) + 1];
      Fits(Greedy(ps[1..], room - 1, used', cap), Elems(ps[1..]), room - 1, used', cap)
    ensures Fits(Greedy(ps, room, used, cap), Elems(ps), room, used, cap)
  {
    var used' := used[ps[0].tier := Used(used, ps[0].tier) + 1];
    TailElems(ps);
    FitsWithHead(ps[0], Greedy(ps[1..], room - 1, used', cap), Elems(ps[1..]), room, used, cap);
  }

  lemma EmptyFits(all: set<Page>, room: int, used: map<Option<Tier>, int>, cap: int)
    ensures Fits([], all, room, used, cap)
  {
    EmptyWithin(room, used, cap);
    assert Elems([]) == {};
  }

  lemma FitsMore(pick: seq<Page>, some: set<Page>, all: set<Page>, room: int, used: map<Option<Tier>, int>, cap: int)
    requires Fits(pick, some, room, used, cap) && some <= all
    ensures Fits(pick, all, room, used, cap)
  {
  }

  lemma FitsWithHead(p: Page, g: seq<Page>, rest: set<Page>, room: int, used: map<Option<Tier>, int>, cap: int)
    requires room > 0 && Used(used, p.tier) < cap && p !in rest
    requires Fits(g, rest, room - 1, used[p.tier := Used(used, p.tier) + 1], cap)
    ensures Fits([p] + g, {p} + rest, room, used, cap)
  {
    HeadFits(p, g, room, used, cap);
    assert Elems([p] + g) == {p} + Elems(g);
  }

  /** A pick from `all` with no page twice, within the limits. */
  ghost predicate Fits(pick: seq<Page>, all: set<Page>, room: int, used: map<Option<Tier>, int>, cap: int) {
    Within(Elems(pick), room, used, cap) && Elems(pick) <= all && |Elems(pick)| == |pick|
  }

  lemma HeadFits(p: Page, g: seq<Page>, room: int, used: map<Option<Tier>, int>, cap: int)
    requires p !in Elems(g) && room > 0 && Used(used, p.tier) < cap && |Elems(g)| == |g|
    requires Within(Elems(g), room - 1, used[p.tier := Used(used, p.tier) + 1], cap)
    ensures Within(Elems([p] + g), room, used, cap) && |Elems([p] + g)| == |[p] + g|
  {
    var s := Elems([p] + g);
    assert s == Elems(g) + {p};
    forall t ensures |OfTier(s, t)| <= Floor0(cap - Used(used, t)) {
      assert |OfTier(Elems(g), t)| <= Floor0(cap - Used(used[p.tier := Used(used, p.tier) + 1], t));
      assert OfTier(s, t) == if t == p.tier then OfTier(Elems(g), t) + {p} else OfTier(Elems(g), t);
    }
  }

  // ---- the whole selection --------------------------------------------------------------------------------

  function Deduped(candidates: seq<Page>): set<Page> {
    Best(candidates).Values
  }

  lemma {:induction false} AscendingFalls(ps: seq<Page>)
    requires Ascending(Keys(ps)) && forall p | p in ps :: p.score >= 0
    ensures Falling(ps)
  {
    if ps != [] {
      forall q | q in Elems(ps[1..]) ensures q.score <= ps[0].score && q != ps[0] {
        var i :| 0 <= i < |ps| - 1 && ps[1..][i] == q;
        assert Before(Keys(ps)[0], Keys(ps)[i + 1]);
        BeforeOrders(Keys(ps)[0], Keys(ps)[0], Keys(ps)[0]);
      }
      assert Keys(ps[1..]) == Keys(ps)[1..];
      AscendingFalls(ps[1..]);
    }
  }

  lemma RankedIsFalling(candidates: seq<Page>, ordered: seq<Page>)
    requires Ranked(candidates, ordered) && forall p | p in candidates :: p.score > 0
    ensures Falling(ordered) && Elems(ordered) == Deduped(candidates)
  {
    forall p | p in ordered ensures p.score >= 0 {
      BestIsFirstBest(candidates, p.url);
    }
    AscendingFalls(ordered);
    forall p ensures p in Elems(ordered) <==> p in Deduped(candidates) {
      if p in Deduped(candidates) {
        var u :| u in Best(candidates) && Best(candidates)[u] == p;
      }
    }
  }

  /** `chosen` is the greedy pick from the deduplicated candidates in rank order. */
  ghost predicate Selected(candidates: seq<Page>, limit: int, cap: int, chosen: seq<Page>) {
    exists ordered :: Ranked(candidates, ordered) && chosen == Greedy(ordered, limit, map[], cap)
  }

  /** Deduplicated candidates, at most `limit` of them and at most `cap` of each tier. */
  ghost predicate Allowed(candidates: seq<Page>, limit: int, cap: int, s: set<Page>) {
    s <= Deduped(candidates) && Within(s, limit, map[], cap)
  }

  /** No page twice, an allowed choice, and no allowed choice scores more in total. */
  ghost predicate Optimal(candidates: seq<Page>, limit: int, cap: int, chosen: seq<Page>) {
    && |Elems(chosen)| == |chosen| && Allowed(candidates, limit, cap, Elems(chosen))
    && forall s | Allowed(candidates, limit, cap, s) :: Total(s) <= Total(Elems(chosen))
  }

  lemma SelectionIsOptimal(candidates: seq<Page>, limit: int, cap: int, chosen: seq<Page>)
    requires Selected(candidates, limit, cap, chosen) && forall p | p in candidates :: p.score > 0
    ensures Optimal(candidates, limit, cap, chosen)
  {
    var ordered :| Ranked(candidates, ordered) && chosen == Greedy(ordered, limit, map[], cap);
    RankedIsFalling(candidates, ordered);
    GreedyFits(ordered, limit, map[], cap);
    forall s | Allowed(candidates, limit, cap, s) ensures Total(s) <= Total(Elems(chosen)) {
      GreedyIsBest(ordered, limit, map[], cap, s);
    }
  }

  // ---- which pages are chosen -----------------------------------------------------------------------------------

  /** The chosen pages among the first `i`. */
  function Taken(ps: seq<Page>, chosen: seq<Page>, i: nat): set<Page>
    requires i <= |ps|
  {
    set q | q in ps[..i] && q in chosen
  }

  lemma {:induction false} GreedyFromList(ps: seq<Page>, room: int, used: map<Option<Tier>, int>, cap: int, p: Page)
    requires p in Greedy(ps, room, used, cap)
    ensures p in ps
    decreases |ps|
  {
    if Used(used, ps[0].tier) >= cap {
      GreedyFromList(ps[1..], room, used, cap, p);
    } else if p != ps[0] {
      GreedyFromList(ps[1..], room - 1, used[ps[0].tier := Used(used, ps[0].tier) + 1], cap, p);
    }
  }

  lemma TakenSkips(ps: seq<Page>, chosen: seq<Page>, i: nat)
    requires 0 < i <= |ps| && ps[0] !in chosen
    ensures Taken(ps, chosen, i) == Taken(ps[1..], chosen, i - 1)
  {
    assert ps[..i] == [ps[0]] + ps[1..][..i - 1];
  }

  lemma TakenHead(ps: seq<Page>, rest: seq<Page>, i: nat)
    requires 0 < i <= |ps| && ps[0] !in ps[1..]
    ensures Taken(ps, [ps[0]] + rest, i) == {ps[0]} + Taken(ps[1..], rest, i - 1)
    ensures ps[0] !in Taken(ps[1..], rest, i - 1)
  {
    assert ps[..i] == [ps[0]] + ps[1..][..i - 1];
  }

  /** A page is taken exactly if there is room for it, and for its tier, beside those taken before it. */
  ghost predicate TakenIfRoom(ps: seq<Page>, chosen: seq<Page>, room: int, used: map<Option<Tier>, int>, cap: int,
      i: nat)
    requires i < |ps|
  {
    var before := Taken(ps, chosen, i);
    ps[i] in chosen <==> |before| < room && |OfTier(before, ps[i].tier)| + Used(used, ps[i].tier) < cap
  }

  lemma {:induction false} GreedyTakes(ps: seq<Page>, room: int, used: map<Option<Tier>, int>, cap: int, i: nat)
    requires Falling(ps) && i < |ps|
    ensures TakenIfRoom(ps, Greedy(ps, room, used, cap), room, used, cap, i)
    decreases |ps|
  {
    if room > 0 {
      FallingHead(ps);
      if i == 0 {
        GreedyHead(ps, room, used, cap);
      } else if Used(used, ps[0].tier) >= cap {
        GreedyTakes(ps[1..], room, used, cap, i - 1);
        GreedySkips(ps, room, used, cap);
        TakenSkips(ps, Greedy(ps, room, used, cap), i);
      } else {
        GreedyTakes(ps[1..], room - 1, used[ps[0].tier := Used(used, ps[0].tier) + 1], cap, i - 1);
        GreedyTakesLater(ps, room, used, cap, i);
      }
    }
  }

  lemma GreedySkips(ps: seq<Page>, room: int, used: map<Option<Tier>, int>, cap: int)
    requires Falling(ps) && ps != [] && Used(used, ps[0].tier) >= cap
    ensures ps[0] !in Greedy(ps, room, used, cap)
  {
    if ps[0] in Greedy(ps, room, used, cap) {
      GreedyFromList(ps[1..], room, used, cap, ps[0]);
    }
  }

  lemma GreedyHead(ps: seq<Page>, room: int, used: map<Option<Tier>, int>, cap: int)
    requires Falling(ps) && ps != [] && room > 0
    ensures TakenIfRoom(ps, Greedy(ps, room, used, cap), room, used, cap, 0)
  {
    assert Taken(ps, Greedy(ps, room, used, cap), 0) == {};
    assert OfTier({}, ps[0].tier) == {};
    if Used(used, ps[0].tier) >= cap {
      GreedySkips(ps, room, used, cap);
    }
  }

  lemma GreedyTakesLater(ps: seq<Page>, room: int, used: map<Option<Tier>, int>, cap: int, i: nat)
    requires 0 < i < |ps| && room > 0 && Used(used, ps[0].tier) < cap && ps[0] !in Elems(ps[1..])
    requires var used' := used[ps[0].tier := Used(used, ps[0].tier) + 1];
      TakenIfRoom(ps[1..], Greedy(ps[1..], room - 1, used', cap), room - 1, used', cap, i - 1)
    ensures TakenIfRoom(ps, Greedy(ps, room, used, cap), room, used, cap, i)
  {
    var p, q, used' := ps[0], ps[i], used[ps[0].tier := Used(used, ps[0].tier) + 1];
    var g := Greedy(ps[1..], room - 1, used', cap);
    assert p !in ps[1..];
    TakenHead(ps, g, i);
    TierWithHead(p, Taken(ps[1..], g, i - 1), q.tier);
    assert q == ps[1..][i - 1] && q != p;
    assert Greedy(ps, room, used, cap) == [p] + g;
    assert q in [p] + g <==> q in g;
  }

  lemma TierWithHead(p: Page, rest: set<Page>, t: Option<Tier>)
    requires p !in rest
    ensures |{p} + rest| == |rest| + 1
    ensures |OfTier({p} + rest, t)| == |OfTier(rest, t)| + (if p.tier == t then 1 else 0)
  {
    assert OfTier({p} + rest, t) == OfTier(rest, t) + (if p.tier == t then {p} else {});
  }

  /** The chosen pages that come before `p`. */
  function Preferred(chosen: seq<Page>, p: Page): set<Page> {
    set q | q in chosen && Before(KeyOf(q), KeyOf(p))
  }

  lemma RankSplits(ordered: seq<Page>, chosen: seq<Page>, i: nat)
    requires Ascending(Keys(ordered)) && i < |ordered| && forall q | q in chosen :: q in ordered
    ensures Taken(ordered, chosen, i) == Preferred(chosen, ordered[i])
  {
    var p := ordered[i];
    forall q | q in chosen ensures q in ordered[..i] <==> Before(KeyOf(q), KeyOf(p)) {
      var h :| 0 <= h < |ordered| && ordered[h] == q;
      assert Keys(ordered)[h] == KeyOf(q) && Keys(ordered)[i] == KeyOf(p);
      BeforeOrders(KeyOf(q), KeyOf(p), KeyOf(q));
      if q in ordered[..i] {
        var g :| 0 <= g < i && ordered[g] == q;
        assert Keys(ordered)[g] == KeyOf(q);
      }
    }
  }

  /**
   A deduplicated page is chosen exactly if fewer than `limit` pages that come before it are, and fewer than `cap`
   of its own tier.
   */
  lemma SelectionTakes(candidates: seq<Page>, limit: int, cap: int, chosen: seq<Page>, p: Page)
    requires Selected(candidates, limit, cap, chosen) && (forall q | q in candidates :: q.score > 0)
    requires p in Deduped(candidates)
    ensures var before := Preferred(chosen, p);
      p in chosen <==> |before| < limit && |set q | q in before && q.tier == p.tier| < cap
    ensures Ascending(Keys(chosen))
  {
    var ordered :| Ranked(candidates, ordered) && chosen == Greedy(ordered, limit, map[], cap);
    RankedIsFalling(candidates, ordered);
    GreedyInOrder(ordered, limit, map[], cap);
    assert p in Elems(ordered);
    var i :| 0 <= i < |ordered| && ordered[i] == p;
    GreedyTakes(ordered, limit, map[], cap, i);
    forall q | q in chosen ensures q in ordered {
      GreedyFromList(ordered, limit, map[], cap, q);
    }
    RankSplits(ordered, chosen, i);
    assert OfTier(Preferred(chosen, p), p.tier) == set q | q in Preferred(chosen, p) && q.tier == p.tier;
  }

  lemma AscendingCons(p: Page, g: seq<Page>)
    requires Ascending(Keys(g)) && forall q | q in g :: Before(KeyOf(p), KeyOf(q))
    ensures Ascending(Keys([p] + g))
  {
    var ks := Keys([p] + g);
    forall i, j | 0 <= i < j < |ks| ensures Before(ks[i], ks[j]) {
      assert ks[j] == KeyOf(g[j - 1]) && g[j - 1] in g;
      if i > 0 {
        assert Before(Keys(g)[i - 1], Keys(g)[j - 1]);
      }
    }
  }

  lemma AscendingTail(ps: seq<Page>, q: Page)
    requires ps != [] && Ascending(Keys(ps))
    ensures Ascending(Keys(ps[1..])) && (q in ps[1..] ==> Before(KeyOf(ps[0]), KeyOf(q)))
  {
    assert Keys(ps[1..]) == Keys(ps)[1..];
    if q in ps[1..] {
      var i :| 0 <= i < |ps| - 1 && ps[1..][i] == q;
      assert Keys(ps)[i + 1] == KeyOf(q) && Keys(ps)[0] == KeyOf(ps[0]);
    }
  }

  /** The chosen pages come in rank order. */
  lemma {:induction false} GreedyInOrder(ps: seq<Page>, room: int, used: map<Option<Tier>, int>, cap: int)
    requires Ascending(Keys(ps))
    ensures Ascending(Keys(Greedy(ps, room, used, cap)))
    decreases |ps|
  {
    if ps != [] && room > 0 {
      AscendingTail(ps, ps[0]);
      if Used(used, ps[0].tier) >= cap {
        GreedyInOrder(ps[1..], room, used, cap);
      } else {
        var used' := used[ps[0].tier := Used(used, ps[0].tier) + 1];
        var g := Greedy(ps[1..], room - 1, used', cap);
        GreedyInOrder(ps[1..], room - 1, used', cap);
        forall q | q in g ensures Before(KeyOf(ps[0]), KeyOf(q)) {
          GreedyFromList(ps[1..], room - 1, used', cap, q);
          AscendingTail(ps, q);
        }
        AscendingCons(ps[0], g);
      }
    }
  }

  // ---- the order of the candidates does not matter ----------------------------------------------------------

  /** What scoring guarantees of a candidate: its score is that of its tier, its depth that of its URL. */
  ghost predicate FromScoring(candidates: seq<Page>, depthOf: string -> nat) {
    forall p | p in candidates :: Scored(p.score, p.tier) && p.depth == depthOf(p.url)
  }

  lemma BestAmong(a: seq<Page>, u: string, q: Page)
    requires u in Best(a) && q in a && q.url == u
    ensures Best(a)[u] in a && Best(a)[u].url == u && q.score <= Best(a)[u].score
  {
    BestIsFirstBest(a, u);
    var i :| 0 <= i < |a| && a[i] == Best(a)[u] && a[i].url == u && FirstBest(a, i);
    var j :| 0 <= j < |a| && a[j] == q;
  }

  lemma HasBest(a: seq<Page>, q: Page)
    requires q in a
    ensures q.url in Best(a)
  {
    BestIsFirstBest(a, q.url);
    var j :| 0 <= j < |a| && a[j] == q;
  }

  lemma BestSource(a: seq<Page>, u: string)
    requires u in Best(a)
    ensures Best(a)[u] in a && Best(a)[u].url == u
  {
    BestIsFirstBest(a, u);
  }

  ghost predicate SameMembers(a: seq<Page>, b: seq<Page>) {
    forall p :: p in a <==> p in b
  }

  lemma SameBestKey(a: seq<Page>, b: seq<Page>, u: string, depthOf: string -> nat)
    requires SameMembers(a, b) && FromScoring(a, depthOf) && FromScoring(b, depthOf) && u in Best(a)
    ensures u in Best(b) && KeyOf(Best(b)[u]) == KeyOf(Best(a)[u]) && Best(a)[u].url == u
  {
    BestSource(a, u);
    var p := Best(a)[u];
    HasBest(b, p);
    BestAmong(b, u, p);
    var q := Best(b)[u];
    BestAmong(a, u, q);
    ScoreTellsTier(p.score, p.tier, q.tier);
  }

  lemma KeysHave(a: seq<Page>, p: Page)
    requires p in a
    ensures KeyOf(p) in Keys(a)
  {
    var i :| 0 <= i < |a| && a[i] == p;
    assert Keys(a)[i] == KeyOf(p);
  }

  lemma RankedAlike(a: seq<Page>, b: seq<Page>, oa: seq<Page>, ob: seq<Page>, k: Key, depthOf: string -> nat)
    requires SameMembers(a, b) && FromScoring(a, depthOf) && FromScoring(b, depthOf)
    requires Ranked(a, oa) && Ranked(b, ob) && k in Keys(oa)
    ensures k in Keys(ob)
  {
    var i :| 0 <= i < |oa| && Keys(oa)[i] == k;
    var p := oa[i];
    assert p in oa;
    SameBestKey(a, b, p.url, depthOf);
    KeysHave(ob, Best(b)[p.url]);
  }

  lemma {:induction false} GreedyByKeys(a: seq<Page>, b: seq<Page>, room: int, used: map<Option<Tier>, int>, cap: int)
    requires Keys(a) == Keys(b)
    ensures Keys(Greedy(a, room, used, cap)) == Keys(Greedy(b, room, used, cap))
    decreases |a|
  {
    assert |a| == |Keys(a)| == |Keys(b)| == |b|;
    if a != [] && room > 0 {
      assert KeyOf(a[0]) == Keys(a)[0] == Keys(b)[0] == KeyOf(b[0]);
      assert Keys(a[1..]) == Keys(a)[1..] == Keys(b)[1..] == Keys(b[1..]);
      var t := a[0].tier;
      if Used(used, t) >= cap {
        GreedyByKeys(a[1..], b[1..], room, used, cap);
      } else {
        var used' := used[t := Used(used, t) + 1];
        GreedyByKeys(a[1..], b[1..], room - 1, used', cap);
        KeysOfCons(a[0], Greedy(a[1..], room - 1, used', cap));
        KeysOfCons(b[0], Greedy(b[1..], room - 1, used', cap));
      }
    }
  }

  lemma KeysOfCons(p: Page, g: seq<Page>)
    ensures Keys([p] + g) == [KeyOf(p)] + Keys(g)
  {
  }

  lemma PermutedMembers(a: seq<Page>, b: seq<Page>)
    requires multiset(a) == multiset(b)
    ensures SameMembers(a, b) && SameMembers(b, a)
  {
    forall p ensures p in a <==> p in b {
      assert p in a <==> p in multiset(a);
      assert p in b <==> p in multiset(b);
    }
  }

  /** Candidates in any order give the same URLs, scores and tiers in the same order. */
  lemma SelectionIsOrderFree(a: seq<Page>, b: seq<Page>, limit: int, cap: int, chosenA: seq<Page>,
      chosenB: seq<Page>, depthOf: string -> nat)
    requires multiset(a) == multiset(b) && FromScoring(a, depthOf)
    requires Selected(a, limit, cap, chosenA) && Selected(b, limit, cap, chosenB)
    ensures Keys(chosenA) == Keys(chosenB)
  {
    var oa :| Ranked(a, oa) && chosenA == Greedy(oa, limit, map[], cap);
    var ob :| Ranked(b, ob) && chosenB == Greedy(ob, limit, map[], cap);
    PermutedMembers(a, b);
    assert FromScoring(b, depthOf);
    forall k ensures k in Keys(oa) <==> k in Keys(ob) {
      if k in Keys(oa) {
        RankedAlike(a, b, oa, ob, k, depthOf);
      }
      if k in Keys(ob) {
        RankedAlike(b, a, ob, oa, k, depthOf);
      }
    }
    AscendingUnique(Keys(oa), Keys(ob));
    GreedyByKeys(oa, ob, limit, map[], cap);
  }

  // ---- the loops as they run --------------------------------------------------------------------------------

  method Pick(candidates: seq<Page>, limit: int, cap: int) returns (chosen: seq<Page>)
    ensures Selected(candidates, limit, cap, chosen)
    ensures (forall p | p in candidates :: p.score > 0) ==> Optimal(candidates, limit, cap, chosen)
  {
    var best: map<string, Page> := map[];
    for i := 0 to |candidates|
      invariant best == Best(candidates[..i])
    {
      var c := candidates[i];
      assert candidates[..i + 1][..i] == candidates[..i];
      if c.url !in best || c.score > best[c.url].score {
        best := best[c.url := c];
      }
    }
    assert candidates[..|candidates|] == candidates;
    forall u | u in best ensures best[u].url == u {
      BestSource(candidates, u);
    }
    var ordered := Rank(best);
    chosen := Draw(ordered, limit, cap);
    assert Ranked(candidates, ordered);
    if forall p | p in candidates :: p.score > 0 {
      SelectionIsOptimal(candidates, limit, cap, chosen);
    }
  }

  lemma GreedyFrom(rank: seq<Page>, i: nat, chosen: seq<Page>, limit: int, used: map<Option<Tier>, int>, cap: int)
    requires i < |rank| && |chosen| < limit
    ensures var p := rank[i];
      chosen + Greedy(rank[i..], limit - |chosen|, used, cap) ==
        if Used(used, p.tier) >= cap then chosen + Greedy(rank[i + 1..], limit - |chosen|, used, cap)
        else (chosen + [p]) + Greedy(rank[i + 1..], limit - |chosen + [p]|, used[p.tier := Used(used, p.tier) + 1], cap)
  {
    assert rank[i..][1..] == rank[i + 1..];
  }

  method Draw(rank: seq<Page>, limit: int, cap: int) returns (chosen: seq<Page>)
    ensures chosen == Greedy(rank, limit, map[], cap)
  {
    chosen := [];
    var perTier: map<Option<Tier>, int> := map[];
    var i := 0;
    while i < |rank| && |chosen| < limit
      invariant 0 <= i <= |rank|
      invariant Greedy(rank, limit, map[], cap) == chosen + Greedy(rank[i..], limit - |chosen|, perTier, cap)
    {
      var c := rank[i];
      GreedyFrom(rank, i, chosen, limit, perTier, cap);
      if Used(perTier, c.tier) < cap {
        perTier := perTier[c.tier := Used(perTier, c.tier) + 1];
        chosen := chosen + [c];
      }
      i := i + 1;
    }
  }

  method Rank(best: map<string, Page>) returns (ordered: seq<Page>)
    requires forall u | u in best :: best[u].url == u
    ensures Ascending(Keys(ordered))
    ensures forall p | p in ordered :: p.url in best && best[p.url] == p
    ensures forall u | u in best :: best[u] in ordered
  {
    ordered := [];
    var left := best.Keys;
    while left != {}
      invariant left <= best.Keys
      invariant Ascending(Keys(ordered))
      invariant forall p | p in ordered :: p.url in best && p.url !in left && best[p.url] == p
      invariant forall u | u in best && u !in left :: best[u] in ordered
      decreases left
    {
      var u :| u in left;
      left := left - {u};
      ordered := Insert(ordered, best[u]);
    }
  }

  method Insert(ordered: seq<Page>, p: Page) returns (r: seq<Page>)
    requires Ascending(Keys(ordered)) && forall q | q in ordered :: q.url != p.url
    ensures Ascending(Keys(r)) && forall q :: q in r <==> q in ordered || q == p
  {
    var i := 0;
    while i < |ordered| && Before(KeyOf(ordered[i]), KeyOf(p))
      invariant 0 <= i <= |ordered|
      invariant forall j | 0 <= j < i :: Before(KeyOf(ordered[j]), KeyOf(p))
    {
      i := i + 1;
    }
    r := ordered[..i] + [p] + ordered[i..];
    InsertedAscending(ordered, p, i);
    assert ordered == ordered[..i] + ordered[i..];
  }

  lemma InsertedAscending(ordered: seq<Page>, p: Page, i: nat)
    requires Ascending(Keys(ordered)) && i <= |ordered| && forall q | q in ordered :: q.url != p.url
    requires forall j | 0 <= j < i :: Before(KeyOf(ordered[j]), KeyOf(p))
    requires i < |ordered| ==> !Before(KeyOf(ordered[i]), KeyOf(p))
    ensures Ascending(Keys(ordered[..i] + [p] + ordered[i..]))
  {
    var ks, k := Keys(ordered), KeyOf(p);
    forall j | i <= j < |ordered| ensures Before(k, KeyOf(ordered[j])) {
      assert ordered[i] in ordered;
      BeforeOrders(k, KeyOf(ordered[i]), KeyOf(ordered[j]));
      assert j > i ==> Before(ks[i], ks[j]);
    }
    var r := ordered[..i] + [p] + ordered[i..];
    forall a, b | 0 <= a < b < |r| ensures Before(Keys(r)[a], Keys(r)[b]) {
      assert a < i && b < i ==> Before(ks[a], ks[b]);
      assert a < i && b > i ==> Before(ks[a], ks[b - 1]);
      assert a > i ==> Before(ks[a - 1], ks[b - 1]);
    }
  }
}
