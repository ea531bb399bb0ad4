/** From ranked candidates and a model's answers to the one address reported and the row's status. */
module Decision {
  import opened Tables
  import opened Seqs

  const MAX_JUDGE_CANDIDATES := 10

  /** A candidate address after filtering and ranking. */
  datatype Ranked = Ranked(email: string, rank: int, sources: seq<string>)

  /** A float as the model sent it; it compares false with everything when it is not a number. */
  datatype Score = Num(v: real) | NaN

  predicate AtLeast(s: Score, min: real) {
    s.Num? && s.v >= min
  }

  predicate Below(s: Score, min: real) {
    s.Num? && s.v < min
  }

  /** Broken: not an object where one is expected, or a number too large for a float. */
  datatype Field = Absent | Unreadable | Broken | Number(score: Score)

  /** `broken`: the best contact, its choice or the site status is not of the kind expected. */
  datatype Answers = Answers(broken: bool, choice: string, confidence: Field, belongs: nat -> Field,
    site: Option<string>, siteConfidence: Field)

  datatype Config = Config(confidenceMin: real, belongsMin: real)

  datatype Source = Rules | TypeSafe

  datatype Judgment = Judgment(best: Option<string>, source: Option<Source>, confidence: Option<Score>,
      needsReview: bool,
    business: seq<string>, site: Option<string>, called: bool, failed: bool,
    saidNone: bool, belongs: map<string, Score>)

  /** What the decision block returns, or the exception it lets through. */
  datatype Outcome = Raises | Judged(judgment: Judgment)

  // ---- who is put to the model ----------------------------------------------------------------------------

  function Emails(ranked: seq<Ranked>): seq<string> {
    seq(|ranked|, i requires 0 <= i < |ranked| => ranked[i].email)
  }

  function Lowered(ranked: seq<Ranked>, lower: string -> string): seq<string> {
    seq(|ranked|, i requires 0 <= i < |ranked| => lower(ranked[i].email))
  }

  /** The first ten different addresses, by rank. */
  function Asked(ranked: seq<Ranked>, lower: string -> string): seq<string> {
    First(Firsts(Lowered(ranked, lower)), MAX_JUDGE_CANDIDATES)
  }

  method BuildBody(ranked: seq<Ranked>, lower: string -> string) returns (picked: seq<Ranked>, emails: seq<string>)
    ensures emails == Lowered(picked, lower) == Asked(ranked, lower)
    ensures forall r | r in picked :: r in ranked
    ensures Distinct(emails) && |emails| <= MAX_JUDGE_CANDIDATES
  {
    var all := Lowered(ranked, lower);
    picked := [];
    var seen: set<string> := {};
    var i := 0;
    while i < |ranked|
      invariant 0 <= i <= |ranked| && |picked| < MAX_JUDGE_CANDIDATES
      invariant Lowered(picked, lower) == Firsts(all[..i])
      invariant forall e :: e in seen <==> e in Lowered(picked, lower)
      invariant forall r | r in picked :: r in ranked
    {
      var key := lower(ranked[i].email);
      assert all[..i + 1][..i] == all[..i] && all[i] == key;
      if key !in seen {
        seen := seen + {key};
        assert Lowered(picked + [ranked[i]], lower) == Lowered(picked, lower) + [key];
        picked := picked + [ranked[i]];
        if |picked| >= MAX_JUDGE_CANDIDATES {
          FirstsExtend(all, i + 1);
          break;
        }
      }
      i := i + 1;
    }
    assert all[..|ranked|] == all;
    FirstsKeepAll(all);
    emails := Lowered(picked, lower);
  }

  lemma AskedFirst(ranked: seq<Ranked>, lower: string -> string)
    ensures Distinct(Asked(ranked, lower)) && |Asked(ranked, lower)| <= MAX_JUDGE_CANDIDATES
    ensures forall e | e in Asked(ranked, lower) :: e in Lowered(ranked, lower)
    ensures ranked != [] ==> Asked(ranked, lower) != [] && Asked(ranked, lower)[0] == lower(ranked[0].email)
  {
    FirstsKeepAll(Lowered(ranked, lower));
  }

  /** An address is asked about, in its place by rank, exactly if fewer than ten different ones are ranked before it. */
  lemma AskedInOrder(ranked: seq<Ranked>, lower: string -> string, i: nat)
    requires i < |ranked| && forall h | 0 <= h < i :: lower(ranked[h].email) != lower(ranked[i].email)
    ensures var e, before := lower(ranked[i].email), |Debuts(Lowered(ranked, lower)[..i])|;
      && (e in Asked(ranked, lower) <==> before < 10)
      && (before < 10 ==> before < |Asked(ranked, lower)| && Asked(ranked, lower)[before] == e)
  {
    var all := Lowered(ranked, lower);
    assert all[i] !in all[..i];
    FirstsInOrder(all, i);
    FirstsKeepAll(all);
  }

  // ---- what the answers decide ------------------------------------------------------------------------------

  function BelongsAt(a: Answers, i: nat): Score {
    if a.belongs(i).Number? then a.belongs(i).score else Num(0.0)
  }

  function Belongs(a: Answers, emails: seq<string>): map<string, Score> {
    if emails == [] then map[]
    else Belongs(a, emails[..|emails| - 1])[emails[|emails| - 1] := BelongsAt(a, |emails| - 1)]
  }

  /** Of an address asked about twice the later answer counts. */
  lemma {:induction false} BelongsByPlace(a: Answers, emails: seq<string>, i: nat)
    requires i < |emails| && emails[i] !in emails[i + 1..]
    ensures emails[i] in Belongs(a, emails) && Belongs(a, emails)[emails[i]] == BelongsAt(a, i)
    decreases |emails|
  {
    var n := |emails| - 1;
    if i < n {
      assert emails[..n][i + 1..] == emails[i + 1..n];
      assert emails[i + 1..] == emails[i + 1..n] + [emails[n]];
      BelongsByPlace(a, emails[..n], i);
    }
  }

  lemma {:induction false} LastPlace(emails: seq<string>, e: string) returns (i: nat)
    requires e in emails
    ensures i < |emails| && emails[i] == e && e !in emails[i + 1..]
  {
    var n := |emails| - 1;
    if emails[n] == e {
      i := n;
    } else {
      i := LastPlace(emails[..n], e);
      assert emails[i + 1..] == emails[..n][i + 1..] + [emails[n]];
    }
  }

  lemma {:induction false} BelongsKeys(a: Answers, emails: seq<string>)
    ensures forall e :: e in Belongs(a, emails) <==> e in emails
  {
    if emails != [] {
      BelongsKeys(a, emails[..|emails| - 1]);
      assert emails == emails[..|emails| - 1] + [emails[|emails| - 1]];
    }
  }

  function Get(m: map<string, Score>, e: string, default: real): Score {
    if e in m then m[e] else Num(default)
  }

  function Business(emails: seq<string>, belongs: map<string, Score>, min: real): seq<string> {
    if emails == [] then []
    else
      var r, e := Business(emails[..|emails| - 1], belongs, min), emails[|emails| - 1];
      if AtLeast(Get(belongs, e, 0.0), min) then r + [e] else r
  }

  lemma {:induction false} BusinessIs(emails: seq<string>, belongs: map<string, Score>, min: real)
    ensures forall e :: e in Business(emails, belongs, min) <==> e in emails && AtLeast(Get(belongs, e, 0.0), min)
  {
    if emails != [] {
      BusinessIs(emails[..|emails| - 1], belongs, min);
      assert emails == emails[..|emails| - 1] + [emails[|emails| - 1]];
    }
  }

  function Value(f: Field): Score {
    if f.Number? then f.score else Num(0.0)
  }

  predicate Accepted(a: Answers, emails: seq<string>, cfg: Config) {
    && a.choice in emails && AtLeast(Value(a.confidence), cfg.confidenceMin)
    && AtLeast(Get(Belongs(a, emails), a.choice, 0.0), cfg.belongsMin)
  }

  predicate SaysNone(a: Answers, cfg: Config) {
    a.choice == "none" && AtLeast(Value(a.confidence), cfg.confidenceMin)
  }

  function Fallback(emails: seq<string>, ranked: seq<Ranked>, belongs: map<string, Score>, lower: string -> string,
      min: real): Option<string> {
    if ranked == [] then None
    else
      var e, business := lower(ranked[0].email), Business(emails, belongs, min);
      if !Below(Get(belongs, e, 1.0), min) then Some(e) else if business == [] then None else Some(business[0])
  }

  /** Only a belongs that cannot be read is caught. */
  predicate Raising(a: Answers, n: nat) {
    a.broken || NoFloat(a.confidence) || NoFloat(a.siteConfidence) || AnyBroken(a, n)
  }

  predicate NoFloat(f: Field) {
    f.Unreadable? || f.Broken?
  }

  predicate AnyBroken(a: Answers, n: nat) {
    exists i | 0 <= i < n :: a.belongs(i).Broken?
  }

  function Decided(a: Answers, emails: seq<string>, ranked: seq<Ranked>, lower: string -> string,
      cfg: Config): Outcome {
    if Raising(a, |emails|) then Raises
    else
      var belongs := Belongs(a, emails);
      var common := Judgment(None, Some(TypeSafe), Some(Value(a.confidence)), false,
        Business(emails, belongs, cfg.belongsMin), a.site, true, false, false, belongs);
      if Accepted(a, emails, cfg) then Judged(common.(best := Some(a.choice)))
      else if SaysNone(a, cfg) then Judged(common.(saidNone := true))
      else
        var f := Fallback(emails, ranked, belongs, lower, cfg.belongsMin);
        Judged(common.(best := f, source := Some(if Truthy(f) then Rules else TypeSafe),
          confidence := None, needsReview := true))
  }

  // ---- the same in the answers' own fields --------------------------------------------------------------------

  /** A number of at least `min`; what is not there, or cannot be read, counts as 0. */
  predicate Sure(f: Field, min: real) {
    match f
    case Number(s) => s.Num? && s.v >= min
    case _ => 0.0 >= min
  }

  /** An address asked about, last at place `i`, that the model says belongs. */
  ghost predicate Sanctioned(a: Answers, emails: seq<string>, min: real, e: string, i: nat) {
    i < |emails| && emails[i] == e && e !in emails[i + 1..] && Sure(a.belongs(i), min)
  }

  /** The model is sure of its choice, and that it belongs. */
  ghost predicate Chosen(a: Answers, emails: seq<string>, cfg: Config) {
    Sure(a.confidence, cfg.confidenceMin) && exists i :: Sanctioned(a, emails, cfg.belongsMin, a.choice, i)
  }

  ghost predicate DeniesAll(a: Answers, cfg: Config) {
    a.choice == "none" && Sure(a.confidence, cfg.confidenceMin)
  }

  lemma ScoreIs(a: Answers, emails: seq<string>, min: real, e: string)
    ensures e in emails && AtLeast(Get(Belongs(a, emails), e, 0.0), min) <==>
      exists i :: Sanctioned(a, emails, min, e, i)
  {
    if e in emails {
      var i := LastPlace(emails, e);
      BelongsByPlace(a, emails, i);
      assert Sanctioned(a, emails, min, e, i) <==> AtLeast(Get(Belongs(a, emails), e, 0.0), min);
      if h :| Sanctioned(a, emails, min, e, h) {
        BelongsByPlace(a, emails, h);
      }
    }
  }

  /** The business addresses are those the model says belong. */
  lemma BusinessAre(a: Answers, emails: seq<string>, min: real, e: string)
    ensures e in Business(emails, Belongs(a, emails), min) <==> exists i :: Sanctioned(a, emails, min, e, i)
  {
    BusinessIs(emails, Belongs(a, emails), min);
    ScoreIs(a, emails, min, e);
  }

  /**
   What every answer comes to. Sure of an address that belongs: that one, with the model's confidence. Sure there
   is none: none. Anything else is for a person to look at, without a confidence.
   */
  ghost predicate Warranted(a: Answers, emails: seq<string>, cfg: Config, j: Judgment) {
    && j.called && !j.failed && j.site == a.site
    && (forall e :: e in j.business <==> exists i :: Sanctioned(a, emails, cfg.belongsMin, e, i))
    && (if Chosen(a, emails, cfg) then
          && j.best == Some(a.choice) && j.source == Some(TypeSafe) && !j.needsReview && !j.saidNone
          && j.confidence == Some(if a.confidence.Number? then a.confidence.score else Num(0.0))
        else if DeniesAll(a, cfg) then
          j.best == None && j.source == Some(TypeSafe) && !j.needsReview && j.saidNone
        else
          && j.needsReview && !j.saidNone && j.confidence == None
          && j.source == Some(if j.best.Some? && j.best.value != "" then Rules else TypeSafe))
  }

  /** Only what cannot be read as a number, or not at all, is let through as an exception. */
  ghost predicate Unusable(a: Answers, n: nat) {
    || a.broken || a.confidence == Unreadable || a.confidence == Broken
    || a.siteConfidence == Unreadable || a.siteConfidence == Broken
    || exists i | 0 <= i < n :: a.belongs(i) == Broken
  }

  lemma DecidedIsWarranted(a: Answers, emails: seq<string>, ranked: seq<Ranked>, lower: string -> string, cfg: Config)
    ensures Decided(a, emails, ranked, lower, cfg).Raises? <==> Unusable(a, |emails|)
    ensures !Unusable(a, |emails|) ==>
      Warranted(a, emails, cfg, Decided(a, emails, ranked, lower, cfg).judgment)
  {
    ScoreIs(a, emails, cfg.belongsMin, a.choice);
    forall e ensures e in Business(emails, Belongs(a, emails), cfg.belongsMin) <==>
        exists i :: Sanctioned(a, emails, cfg.belongsMin, e, i) {
      BusinessAre(a, emails, cfg.belongsMin, e);
    }
  }

  lemma {:induction false} BusinessFirst(emails: seq<string>, belongs: map<string, Score>, min: real) returns (i: nat)
    requires Business(emails, belongs, min) != []
    ensures i < |emails| && Business(emails, belongs, min)[0] == emails[i]
    ensures AtLeast(Get(belongs, emails[i], 0.0), min)
    ensures forall h | 0 <= h < i :: !AtLeast(Get(belongs, emails[h], 0.0), min)
  {
    var n := |emails| - 1;
    if Business(emails[..n], belongs, min) != [] {
      i := BusinessFirst(emails[..n], belongs, min);
    } else {
      i := n;
      BusinessIs(emails[..n], belongs, min);
      forall h | 0 <= h < n ensures !AtLeast(Get(belongs, emails[h], 0.0), min) {
        assert emails[..n][h] in emails[..n];
      }
    }
  }

  /** The first address asked about that the model says belongs. */
  ghost predicate FirstSanctioned(a: Answers, emails: seq<string>, min: real, e: string) {
    exists i: nat :: Sanctioned(a, emails, min, e, i) && forall h | 0 <= h < i :: !Sure(a.belongs(h), min)
  }

  lemma BusinessLeads(a: Answers, emails: seq<string>, min: real)
    requires Distinct(emails) && Business(emails, Belongs(a, emails), min) != []
    ensures FirstSanctioned(a, emails, min, Business(emails, Belongs(a, emails), min)[0])
  {
    var i := BusinessFirst(emails, Belongs(a, emails), min);
    BelongsByPlace(a, emails, i);
    assert Sanctioned(a, emails, min, emails[i], i);
    forall h | 0 <= h < i ensures !Sure(a.belongs(h), min) {
      BelongsByPlace(a, emails, h);
    }
  }

  /**
   The rules' pick is the top-ranked address, unless the model scored it too low: then the first one it says belongs,
   if any. A score that is not a number is not too low.
   */
  lemma FallbackIs(a: Answers, ranked: seq<Ranked>, lower: string -> string, cfg: Config)
    requires var emails := Asked(ranked, lower);
      !Unusable(a, |emails|) && !Chosen(a, emails, cfg) && !DeniesAll(a, cfg)
    ensures var emails := Asked(ranked, lower);
      var o := Decided(a, emails, ranked, lower, cfg);
      && o.Judged?
      && (ranked == [] ==> o.judgment.best == None)
      && (ranked != [] && (Sure(a.belongs(0), cfg.belongsMin) || a.belongs(0) == Number(NaN)) ==>
            o.judgment.best == Some(lower(ranked[0].email)))
      && (ranked != [] && !Sure(a.belongs(0), cfg.belongsMin) && a.belongs(0) != Number(NaN) ==>
            if o.judgment.best.Some? then FirstSanctioned(a, emails, cfg.belongsMin, o.judgment.best.value)
            else forall e, i :: !Sanctioned(a, emails, cfg.belongsMin, e, i))
  {
    var emails, min := Asked(ranked, lower), cfg.belongsMin;
    DecidedIsWarranted(a, emails, ranked, lower, cfg);
    AskedFirst(ranked, lower);
    if ranked != [] {
      BelongsByPlace(a, emails, 0);
      if Business(emails, Belongs(a, emails), min) != [] {
        BusinessLeads(a, emails, min);
      } else {
        forall e, i | Sanctioned(a, emails, min, e, i) ensures e in Business(emails, Belongs(a, emails), min) {
          BusinessAre(a, emails, min, e);
        }
      }
    }
  }

  predicate Truthy(s: Option<string>) {
    s.Some? && s.value != ""
  }

  method Decide(a: Answers, emails: seq<string>, ranked: seq<Ranked>, lower: string -> string, cfg: Config)
    returns (o: Outcome)
    ensures o == Decided(a, emails, ranked, lower, cfg)
    ensures o.Raises? <==> Unusable(a, |emails|)
    ensures o.Judged? ==> Warranted(a, emails, cfg, o.judgment)
  {
    DecidedIsWarranted(a, emails, ranked, lower, cfg);
    if a.broken || NoFloat(a.confidence) {
      return Raises;
    }
    var belongs: map<string, Score> := map[];
    for i := 0 to |emails|
      invariant belongs == Belongs(a, emails[..i]) && !AnyBroken(a, i)
    {
      if a.belongs(i).Broken? {
        return Raises;
      }
      assert emails[..i + 1][..i] == emails[..i];
      belongs := belongs[emails[i] := BelongsAt(a, i)];
    }
    assert emails[..|emails|] == emails;
    if NoFloat(a.siteConfidence) {
      return Raises;
    }
    var business: seq<string> := [];
    for i := 0 to |emails|
      invariant business == Business(emails[..i], belongs, cfg.belongsMin)
    {
      assert emails[..i + 1][..i] == emails[..i];
      if AtLeast(Get(belongs, emails[i], 0.0), cfg.belongsMin) {
        business := business + [emails[i]];
      }
    }
    var sure := AtLeast(Value(a.confidence), cfg.confidenceMin);
    var common := Judgment(None, Some(TypeSafe), Some(Value(a.confidence)), false, business, a.site,
      true, false, false, belongs);
    if a.choice in emails && sure && AtLeast(Get(belongs, a.choice, 0.0), cfg.belongsMin) {
      return Judged(common.(best := Some(a.choice)));
    }
    if a.choice == "none" && sure {
      return Judged(common.(saidNone := true));
    }
    var fallback := if ranked == [] then None else Some(lower(ranked[0].email));
    if fallback.Some? && Below(Get(belongs, fallback.value, 1.0), cfg.belongsMin) {
      fallback := if business == [] then None else Some(business[0]);
    }
    o := Judged(common.(best := fallback, source := Some(if Truthy(fallback) then Rules else TypeSafe),
      confidence := None, needsReview := true));
  }

  // ---- only addresses the model says belong -----------------------------------------------------------------

  /** No address, or one the model scored as belonging and the business list has. */
  ghost predicate Sound(j: Judgment, min: real) {
    j.best.Some? ==> j.best.value in j.belongs && AtLeast(j.belongs[j.best.value], min) && j.best.value in j.business
  }

  lemma NoneScored(emails: seq<string>, belongs: map<string, Score>, min: real)
    requires Business(emails, belongs, min) != []
    ensures Business(emails, belongs, min)[0] in emails
    ensures AtLeast(Get(belongs, Business(emails, belongs, min)[0], 0.0), min)
  {
    BusinessIs(emails, belongs, min);
    assert Business(emails, belongs, min)[0] in Business(emails, belongs, min);
  }

  /**
    * Whatever the model answers, the choice is sound exactly unless it came from the rules and the model's score for
    * the top-ranked address is not a number.
    */
  lemma DecideIsSoundUnlessNaN(a: Answers, ranked: seq<Ranked>, lower: string -> string, cfg: Config)
    requires Decided(a, Asked(ranked, lower), ranked, lower, cfg).Judged?
    ensures Sound(Decided(a, Asked(ranked, lower), ranked, lower, cfg).judgment, cfg.belongsMin) <==>
      Chosen(a, Asked(ranked, lower), cfg) || DeniesAll(a, cfg) || ranked == [] || a.belongs(0) != Number(NaN)
  {
    var emails := Asked(ranked, lower);
    ScoreIs(a, emails, cfg.belongsMin, a.choice);
    var belongs := Belongs(a, emails);
    AskedFirst(ranked, lower);
    BelongsKeys(a, emails);
    BusinessIs(emails, belongs, cfg.belongsMin);
    if ranked != [] {
      BelongsByPlace(a, emails, 0);
      if Business(emails, belongs, cfg.belongsMin) != [] {
        NoneScored(emails, belongs, cfg.belongsMin);
      }
    }
  }

  /** A score that is not a number gets an address through that nobody judged as belonging. */
  lemma NaNIsLetThrough(lower: string -> string, cfg: Config, a: Answers)
    requires !a.broken && a.choice == "" && a.confidence == Absent && a.siteConfidence == Absent
    requires a.belongs(0) == Number(NaN)
    requires lower("info@x.com") == "info@x.com"
    ensures var ranked := [Ranked("info@x.com", 3, [])];
      var o := Decided(a, Asked(ranked, lower), ranked, lower, cfg);
      o.Judged? && o.judgment.best == Some("info@x.com") && o.judgment.business == [] &&
      !Sound(o.judgment, cfg.belongsMin)
  {
    var ranked := [Ranked("info@x.com", 3, [])];
    var emails := Asked(ranked, lower);
    AskedFirst(ranked, lower);
    assert Lowered(ranked, lower) == ["info@x.com"];
    assert Firsts(["info@x.com"]) == ["info@x.com"];
    assert emails == ["info@x.com"];
    BelongsByPlace(a, emails, 0);
    BelongsKeys(a, emails);
    BusinessIs(emails, Belongs(a, emails), cfg.belongsMin);
    assert forall e :: e !in Business(emails, Belongs(a, emails), cfg.belongsMin);
    if Business(emails, Belongs(a, emails), cfg.belongsMin) != [] {
      NoneScored(emails, Belongs(a, emails), cfg.belongsMin);
    }
  }

  // ---- with or without the model ----------------------------------------------------------------------------

  predicate ShouldCall(ranked: seq<Ranked>) {
    ranked != [] && (|ranked| >= 2 || exists r | r in ranked :: r.rank >= 3)
  }

  function Owned(ranked: seq<Ranked>): seq<string> {
    if ranked == [] then []
    else
      var r, last := Owned(ranked[..|ranked| - 1]), ranked[|ranked| - 1];
      if last.rank == 1 || last.rank == 2 then r + [last.email] else r
  }

  function RulesOnly(ranked: seq<Ranked>): Judgment {
    if ranked == [] then Judgment(None, None, None, false, [], None, false, false, false, map[])
    else Judgment(Some(ranked[0].email), Some(Rules), None, false, Owned(ranked), None, false, false, false, map[])
  }

  lemma {:induction false} OwnedAre(ranked: seq<Ranked>, e: string)
    ensures e in Owned(ranked) <==> exists r | r in ranked :: r.email == e && (r.rank == 1 || r.rank == 2)
  {
    if ranked != [] {
      OwnedAre(ranked[..|ranked| - 1], e);
      assert ranked == ranked[..|ranked| - 1] + [ranked[|ranked| - 1]];
    }
  }

  /** Without the model's word: the top-ranked address, and those at the site's own domain. */
  lemma RulesOnlyIs(ranked: seq<Ranked>, e: string)
    ensures var j := RulesOnly(ranked);
      && j.best == (if ranked == [] then None else Some(ranked[0].email))
      && j.source == (if ranked == [] then None else Some(Rules))
      && j.confidence == None && !j.needsReview && !j.saidNone && !j.called && !j.failed && j.belongs == map[]
      && (e in j.business <==> exists r | r in ranked :: r.email == e && (r.rank == 1 || r.rank == 2))
  {
    OwnedAre(ranked, e);
  }

  /** No answers stand for a call that failed. */
  function Judge(reply: Option<Answers>, ranked: seq<Ranked>, lower: string -> string, cfg: Config): Outcome {
    if !ShouldCall(ranked) then Judged(RulesOnly(ranked))
    else if reply.None? then Judged(RulesOnly(ranked).(failed := true))
    else Decided(reply.value, Asked(ranked, lower), ranked, lower, cfg)
  }

  // ---- what is reported ---------------------------------------------------------------------------------------

  ghost predicate Fetched(r: Ranked, pages: seq<string>) {
    exists u | u in r.sources :: u in pages
  }

  /** Only candidates with a source among the pages actually fetched, in rank order. */
  ghost function Sourced(ranked: seq<Ranked>, pages: seq<string>): seq<Ranked> {
    if ranked == [] then []
    else
      var r, last := Sourced(ranked[..|ranked| - 1], pages), ranked[|ranked| - 1];
      if Fetched(last, pages) then r + [last] else r
  }

  lemma {:induction false} SourcedIs(ranked: seq<Ranked>, pages: seq<string>)
    ensures forall r :: r in Sourced(ranked, pages) <==> r in ranked && Fetched(r, pages)
  {
    if ranked != [] {
      SourcedIs(ranked[..|ranked| - 1], pages);
      assert ranked == ranked[..|ranked| - 1] + [ranked[|ranked| - 1]];
    }
  }

  /** Where a candidate stands among those kept: behind the kept ones ranked before it. */
  ghost function KeptBefore(ranked: seq<Ranked>, pages: seq<string>, n: nat): set<nat>
    requires n <= |ranked|
  {
    set h | 0 <= h < n && Fetched(ranked[h], pages)
  }

  lemma {:induction false} SourcedCount(ranked: seq<Ranked>, pages: seq<string>)
    ensures |Sourced(ranked, pages)| == |KeptBefore(ranked, pages, |ranked|)|
  {
    if ranked != [] {
      var n := |ranked| - 1;
      SourcedCount(ranked[..n], pages);
      assert KeptBefore(ranked, pages, n + 1) ==
        KeptBefore(ranked[..n], pages, n) + (if Fetched(ranked[n], pages) then {n} else {});
    }
  }

  lemma {:induction false} SourcedInOrder(ranked: seq<Ranked>, pages: seq<string>, i: nat)
    requires i < |ranked| && Fetched(ranked[i], pages)
    ensures var at := |KeptBefore(ranked, pages, i)|;
      at < |Sourced(ranked, pages)| && Sourced(ranked, pages)[at] == ranked[i]
    decreases |ranked|
  {
    var n := |ranked| - 1;
    assert KeptBefore(ranked, pages, i) == KeptBefore(ranked[..n], pages, i);
    if i < n {
      SourcedInOrder(ranked[..n], pages, i);
    } else {
      SourcedCount(ranked[..n], pages);
    }
  }

  method Provenance(ranked: seq<Ranked>, pages: seq<string>) returns (kept: seq<Ranked>)
    ensures kept == Sourced(ranked, pages)
    ensures forall r | r in kept :: Fetched(r, pages)
    ensures |kept| == |KeptBefore(ranked, pages, |ranked|)|
    ensures forall i: nat | i < |ranked| && Fetched(ranked[i], pages) ::
      |KeptBefore(ranked, pages, i)| < |kept| && kept[|KeptBefore(ranked, pages, i)|] == ranked[i]
  {
    kept := [];
    for i := 0 to |ranked|
      invariant kept == Sourced(ranked[..i], pages)
    {
      assert ranked[..i + 1][..i] == ranked[..i];
      var hit := AnyOf(ranked[i].sources, pages);
      if hit {
        kept := kept + [ranked[i]];
      }
    }
    assert ranked[..|ranked|] == ranked;
    SourcedIs(ranked, pages);
    SourcedCount(ranked, pages);
    forall i: nat | i < |ranked| && Fetched(ranked[i], pages)
      ensures |KeptBefore(ranked, pages, i)| < |kept| && kept[|KeptBefore(ranked, pages, i)|] == ranked[i]
    {
      SourcedInOrder(ranked, pages, i);
    }
  }

  method AnyOf(sources: seq<string>, pages: seq<string>) returns (hit: bool)
    ensures hit <==> exists u | u in sources :: u in pages
  {
    hit := false;
    for i := 0 to |sources|
      invariant hit <==> exists u | u in sources[..i] :: u in pages
    {
      assert sources[..i + 1] == sources[..i] + [sources[i]];
      if sources[i] in pages {
        hit := true;
      }
    }
    assert sources[..|sources|] == sources;
  }

  datatype StatusInputs = StatusInputs(invalidInput: bool, fetchFailed: bool, parked: bool, saidNone: bool,
    best: Option<string>, business: seq<string>, form: Option<string>)

  function AssignStatus(s: StatusInputs): ResultStatus {
    if s.invalidInput then InvalidInput
    else if s.fetchFailed then FetchFailed
    else if s.parked && !Truthy(s.best) then ParkedOrForSale
    else if s.saidNone && s.business == [] && !Truthy(s.best) then NoBusinessEmail
    else if Truthy(s.best) then Found
    else if Truthy(s.form) then FormOnly
    else NoContactInfo
  }

  datatype EmailOut = EmailOut(email: string, sources: seq<string>, rank: int, belongs: Option<Score>)

  datatype Report = Report(status: ResultStatus, best: Option<string>, source: Option<Source>,
      confidence: Option<Score>,
    needsReview: bool, business: seq<string>, allEmails: seq<EmailOut>)

  function Out(r: Ranked, belongs: map<string, Score>): EmailOut {
    EmailOut(r.email, r.sources, r.rank, if r.email in belongs then Some(belongs[r.email]) else None)
  }

  function RulesBest(ranked: seq<Ranked>): Option<string> {
    if ranked == [] then None else Some(ranked[0].email)
  }

  predicate Known(ranked: seq<Ranked>, e: string) {
    e in Emails(ranked)
  }

  /** The best address is checked against the candidates once more; no judgment means rules only. */
  function Harvest(ranked: seq<Ranked>, judgment: Option<Judgment>, form: Option<string>, partial: bool): Report {
    var j := if judgment.Some? then judgment.value else RulesOnly(ranked);
    var unknown := Truthy(j.best) && !Known(ranked, j.best.value);
    var best := if unknown then RulesBest(ranked) else j.best;
    var source := if unknown then Some(Rules) else j.source;
    Report(AssignStatus(StatusInputs(false, false, j.site == Some("parked_or_for_sale"), j.saidNone,
        best, j.business, form)),
      best, if Truthy(best) then source else None, if unknown then None else j.confidence,
      j.needsReview || partial, j.business,
      seq(|ranked|, i requires 0 <= i < |ranked| => Out(ranked[i], j.belongs)))
  }

  /** Addresses are not empty and already lowercase. */
  ghost predicate Clean(ranked: seq<Ranked>, lower: string -> string) {
    forall r | r in ranked :: r.email != "" && lower(r.email) == r.email
  }

  ghost predicate Backed(report: Report, e: string, pages: seq<string>) {
    exists o | o in report.allEmails :: o.email == e && exists u | u in o.sources :: u in pages
  }

  lemma KnownIsBacked(ranked: seq<Ranked>, j: Option<Judgment>, form: Option<string>, partial: bool,
      pages: seq<string>, e: string)
    requires forall r | r in ranked :: Fetched(r, pages)
    requires Known(ranked, e)
    ensures Backed(Harvest(ranked, j, form, partial), e, pages)
  {
    var report := Harvest(ranked, j, form, partial);
    var i :| 0 <= i < |ranked| && Emails(ranked)[i] == e;
    assert Fetched(ranked[i], pages);
    assert report.allEmails[i] in report.allEmails && report.allEmails[i].email == e;
  }

  /**
    * Whatever the judgment, the reported address is none or one of the candidates, found on a fetched page, and
    * the status is `found` exactly when there is one. A site is never said to have no business e-mail beside one.
    */
  lemma HarvestIsBacked(ranked: seq<Ranked>, j: Option<Judgment>, form: Option<string>, partial: bool,
      pages: seq<string>)
    requires forall r | r in ranked :: r.email != "" && Fetched(r, pages)
    ensures var report := Harvest(ranked, j, form, partial);
      && (Truthy(report.best) ==> Backed(report, report.best.value, pages))
      && (report.status.Found? <==> Truthy(report.best)) && (report.source.Some? ==> Truthy(report.best))
      && (report.status.NoBusinessEmail? ==> report.business == [] && !Truthy(report.best))
      && |report.allEmails| == |ranked|
  {
    var report := Harvest(ranked, j, form, partial);
    if Truthy(report.best) {
      if ranked != [] {
        assert Emails(ranked)[0] == ranked[0].email;
      }
      KnownIsBacked(ranked, j, form, partial, pages, report.best.value);
    }
  }

  /**
   What is reported when. The judgment's address stands if it is a candidate, or none; otherwise the rules' does,
   without the model's confidence. Beside an address the status is `found`; else a parked site comes before one the
   model denied, that before a form, and that before nothing at all.
   */
  lemma HarvestIs(ranked: seq<Ranked>, j: Judgment, form: Option<string>, partial: bool)
    requires forall r | r in ranked :: r.email != ""
    ensures var report := Harvest(ranked, Some(j), form, partial);
      var named := j.best.Some? && j.best.value != "" && forall r | r in ranked :: r.email != j.best.value;
      var none := report.best.None? || report.best.value == "";
      var parked, denied := j.site == Some("parked_or_for_sale"), j.saidNone && j.business == [];
      var contact := form.Some? && form.value != "";
      && report.best == (if !named then j.best else if ranked == [] then None else Some(ranked[0].email))
      && report.confidence == (if named then None else j.confidence)
      && report.source == (if none then None else if named then Some(Rules) else j.source)
      && report.needsReview == (j.needsReview || partial) && report.business == j.business
      && (report.status == Found <==> !none)
      && (report.status == ParkedOrForSale <==> none && parked)
      && (report.status == NoBusinessEmail <==> none && !parked && denied)
      && (report.status == FormOnly <==> none && !parked && !denied && contact)
      && (report.status == NoContactInfo <==> none && !parked && !denied && !contact)
  {
    if j.best.Some? {
      KnownIs(ranked, j.best.value);
    }
    if ranked != [] {
      assert ranked[0] in ranked;
    }
  }

  lemma KnownIs(ranked: seq<Ranked>, e: string)
    ensures Known(ranked, e) <==> exists r | r in ranked :: r.email == e
  {
    if Known(ranked, e) {
      var i :| 0 <= i < |ranked| && Emails(ranked)[i] == e;
      assert ranked[i] in ranked;
    }
    if r :| r in ranked && r.email == e {
      var i :| 0 <= i < |ranked| && ranked[i] == r;
      assert Emails(ranked)[i] == e;
    }
  }

  // ---- the whole chain ------------------------------------------------------------------------------------------

  lemma LoweredIsEmails(ranked: seq<Ranked>, lower: string -> string)
    requires Clean(ranked, lower)
    ensures Lowered(ranked, lower) == Emails(ranked) &&
      forall e | e in Asked(ranked, lower) :: Known(ranked, e) && e != ""
  {
    forall i | 0 <= i < |ranked| ensures Lowered(ranked, lower)[i] == Emails(ranked)[i] && Emails(ranked)[i] != "" {
      assert ranked[i] in ranked;
    }
    assert Lowered(ranked, lower) == Emails(ranked);
    AskedFirst(ranked, lower);
  }

  /** A judgment never names an address that is not a candidate, so the second check never has to step in. */
  lemma JudgeNamesCandidates(reply: Option<Answers>, ranked: seq<Ranked>, lower: string -> string, cfg: Config)
    requires Clean(ranked, lower) && Judge(reply, ranked, lower, cfg).Judged?
    ensures var j := Judge(reply, ranked, lower, cfg).judgment;
      && (j.best.Some? ==> Truthy(j.best) && Known(ranked, j.best.value))
      && (j.source == Some(Rules) ==> j.confidence == None)
  {
    var emails := Asked(ranked, lower);
    LoweredIsEmails(ranked, lower);
    AskedFirst(ranked, lower);
    if ranked != [] {
      assert ranked[0] in ranked && Emails(ranked)[0] == ranked[0].email;
    }
    if reply.Some? {
      var belongs := Belongs(reply.value, emails);
      if Business(emails, belongs, cfg.belongsMin) != [] {
        NoneScored(emails, belongs, cfg.belongsMin);
      }
    }
  }

  /** The model was asked, about two candidates or a doubtful one, and answered. */
  predicate Consulted(reply: Option<Answers>, ranked: seq<Ranked>) {
    reply.Some? && ranked != [] && (|ranked| > 1 || ranked[0].rank > 2)
  }

  /**
    * From candidates on fetched pages to the report, for any answers that can be read or none at all: the address is
    * none or a candidate with a fetched source; an address credited to the model was chosen by it with enough
    * confidence and belongs, and every such choice is credited; one the rules picked carries no confidence; `found`
    * means there is an address; a person is asked exactly if the model was and could not settle it.
    */
  lemma DecisionChain(reply: Option<Answers>, ranked: seq<Ranked>, lower: string -> string, cfg: Config,
      form: Option<string>, partial: bool, pages: seq<string>)
    requires Clean(ranked, lower) && forall r | r in ranked :: Fetched(r, pages)
    requires Judge(reply, ranked, lower, cfg).Judged?
    ensures var j := Judge(reply, ranked, lower, cfg).judgment;
      var report := Harvest(ranked, Some(j), form, partial);
      var chosen := Consulted(reply, ranked) && Chosen(reply.value, Asked(ranked, lower), cfg);
      var settled := chosen || (Consulted(reply, ranked) && DeniesAll(reply.value, cfg));
      && report.best == j.best
      && (report.best.Some? ==> Backed(report, report.best.value, pages))
      && (report.status.Found? <==> report.best.Some?)
      && (report.source == Some(Rules) ==> report.confidence == None)
      && (report.source == Some(TypeSafe) <==> chosen)
      && (chosen ==> report.best == Some(reply.value.choice))
      && (report.needsReview <==> partial || (Consulted(reply, ranked) && !settled))
      && (!Consulted(reply, ranked) ==> report.best == if ranked == [] then None else Some(ranked[0].email))
  {
    var j := Judge(reply, ranked, lower, cfg).judgment;
    if Consulted(reply, ranked) {
      DecidedIsWarranted(reply.value, Asked(ranked, lower), ranked, lower, cfg);
    }
    JudgeNamesCandidates(reply, ranked, lower, cfg);
    HarvestIsBacked(ranked, Some(j), form, partial, pages);
  }

  /** When the model was asked, the address also belongs, unless its top score was not a number. */
  lemma JudgedAddressBelongs(reply: Answers, ranked: seq<Ranked>, lower: string -> string, cfg: Config,
      form: Option<string>, partial: bool)
    requires Clean(ranked, lower) && ShouldCall(ranked) && Judge(Some(reply), ranked, lower, cfg).Judged?
    requires reply.belongs(0) != Number(NaN)
    ensures var j := Judge(Some(reply), ranked, lower, cfg).judgment;
      var report := Harvest(ranked, Some(j), form, partial);
      Sound(j, cfg.belongsMin) && report.best == j.best && report.business == j.business
  {
    JudgeNamesCandidates(Some(reply), ranked, lower, cfg);
    DecideIsSoundUnlessNaN(reply, ranked, lower, cfg);
  }
}
