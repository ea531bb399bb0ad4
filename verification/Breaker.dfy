/** The per-provider circuit breaker. The clock is a parameter: every call reads it once. */
module Breaker {
  import opened Seqs
  import opened Tables

  datatype Config = Config(window: nat, threshold: real, openS: real, maxOpenS: real, probes: nat,
    probesNeeded: nat, minSamples: nat, recoveryMultiple: real)

  datatype Mode = Closed | Open | HalfOpen

  /** `closedAt` is 0 until the first close, and a close at exactly 0 counts as none. */
  datatype State = State(mode: Mode, outcomes: seq<bool>, results: seq<bool>, admitted: nat,
    openedAt: Time, closedAt: Time, openFor: real, consecutive: nat, openedCount: nat)

  datatype Verdict = Admit | Refuse(retryIn: real)

  function New(): State {
    State(Closed, [], [], 0, 0.0, 0.0, 0.0, 0, 0)
  }

  function Doubled(base: real, times: nat): real {
    if times == 0 then base else 2.0 * Doubled(base, times - 1)
  }

  function Count(s: seq<bool>, value: bool): nat {
    if s == [] then 0 else Count(s[..|s| - 1], value) + (if s[|s| - 1] == value then 1 else 0)
  }

  // ---- what each call does ------------------------------------------------------------------------------

  /** Reading the state is itself a transition: an open window that has run out becomes half-open. */
  function Observed(b: State, now: Time): State {
    if b.mode.Open? && now - b.openedAt >= b.openFor then b.(mode := HalfOpen, results := [], admitted := 0) else b
  }

  function Recovery(cfg: Config): real {
    cfg.openS * cfg.recoveryMultiple
  }

  predicate Recovered(cfg: Config, b: State, now: Time) {
    b.closedAt != 0.0 && now - b.closedAt > Recovery(cfg)
  }

  function Opened(cfg: Config, b: State, now: Time): State {
    var before := if Recovered(cfg, b, now) then 0 else b.consecutive;
    b.(mode := Open, outcomes := [], results := [], admitted := 0, openedAt := now,
       openFor := Min(Doubled(cfg.openS, before), cfg.maxOpenS), consecutive := before + 1,
       openedCount := b.openedCount + 1)
  }

  function Reclosed(b: State, now: Time): State {
    b.(mode := Closed, closedAt := now, outcomes := [], results := [])
  }

  function Asked(cfg: Config, b: State, now: Time): (State, Verdict) {
    var o := Observed(b, now);
    match o.mode
    case Open => (o, Refuse(o.openFor - (now - o.openedAt)))
    case Closed => (o, Admit)
    case HalfOpen => if o.admitted >= cfg.probes then (o, Refuse(1.0)) else (o.(admitted := o.admitted + 1), Admit)
  }

  /** More than `threshold` of at least `minSamples` calls failed. */
  predicate Failing(cfg: Config, outcomes: seq<bool>) {
    && |outcomes| >= cfg.minSamples && |outcomes| > 0
    && Exceeds(Count(outcomes, false), |outcomes|, cfg.threshold)
  }

  predicate Exceeds(failures: nat, calls: nat, threshold: real)
    requires calls > 0
  {
    failures as real / calls as real > threshold
  }

  function Probed(cfg: Config, o: State, ok: bool, now: Time): State {
    var p := o.(results := o.results + [ok]);
    if |p.results| < cfg.probes then p
    else if Count(p.results, true) >= cfg.probesNeeded then Reclosed(p, now)
    else Opened(cfg, p, now)
  }

  function Sampled(cfg: Config, o: State, ok: bool, now: Time): State {
    var p := o.(outcomes := Last(o.outcomes + [ok], cfg.window));
    if Failing(cfg, p.outcomes) then Opened(cfg, p, now) else p
  }

  function Recorded(cfg: Config, b: State, ok: bool, now: Time): State {
    var o := Observed(b, now);
    if o.mode.HalfOpen? then Probed(cfg, o, ok, now) else Sampled(cfg, o, ok, now)
  }

  /** What is left of the open window, 0 when it is not open. */
  function Remaining(b: State, now: Time): real {
    var o := Observed(b, now);
    if !o.mode.Open? || o.openFor - (now - o.openedAt) <= 0.0 then 0.0 else o.openFor - (now - o.openedAt)
  }

  // ---- the same in the breaker's own fields ------------------------------------------------------------------

  /** A call now is a probe: the open window has run out, or had before. */
  predicate Trial(b: State, now: Time) {
    b.mode == HalfOpen || (b.mode == Open && b.openedAt + b.openFor <= now)
  }

  /** A look turns an open breaker half-open once its window has run out, with nothing admitted or reported yet. */
  lemma LookIs(b: State, now: Time)
    ensures Observed(b, now) ==
      if b.mode == Open && Trial(b, now) then b.(mode := HalfOpen, results := [], admitted := 0) else b
  {
  }

  /** Closed lets everything in, open nothing, half-open the first `probes` calls of the episode. */
  lemma CheckIs(cfg: Config, b: State, now: Time)
    ensures var v, b' := Asked(cfg, b, now).1, Asked(cfg, b, now).0;
      var before := if b.mode == HalfOpen then b.admitted else 0;
      && (v == Admit <==> b.mode == Closed || (Trial(b, now) && before < cfg.probes))
      && (v.Refuse? ==> v.retryIn == if Trial(b, now) then 1.0 else b.openedAt + b.openFor - now)
      && b' == if !Trial(b, now) then b
               else b.(mode := HalfOpen, results := if b.mode == HalfOpen then b.results else [],
                       admitted := if v == Admit then before + 1 else before)
  {
  }

  /** Enough calls, and too large a part of them failed. */
  ghost predicate Rule(cfg: Config, win: seq<bool>) {
    && |win| >= cfg.minSamples && win != []
    && |set i | 0 <= i < |win| && !win[i]| as real > cfg.threshold * |win| as real
  }

  lemma {:induction false} CountIs(s: seq<bool>, value: bool)
    ensures Count(s, value) == |set i | 0 <= i < |s| && s[i] == value|
  {
    if s != [] {
      var n := |s| - 1;
      CountIs(s[..n], value);
      assert (set i | 0 <= i < |s| && s[i] == value) ==
        (set i | 0 <= i < |s[..n]| && s[..n][i] == value) + (if s[n] == value then {n} else {});
    }
  }

  lemma ExceedsIs(failures: nat, calls: nat, threshold: real)
    requires calls > 0
    ensures Exceeds(failures, calls, threshold) <==> failures as real > threshold * calls as real
  {
    var f, n := failures as real, calls as real;
    var q := f / n;
    assert q * n == f;
    if q > threshold {
      assert (q - threshold) * n > 0.0;
    } else {
      assert (threshold - q) * n >= 0.0;
    }
  }

  lemma FailingIs(cfg: Config, win: seq<bool>)
    ensures Failing(cfg, win) <==> Rule(cfg, win)
  {
    if win != [] {
      CountIs(win, false);
      assert (set i | 0 <= i < |win| && win[i] == false) == (set i | 0 <= i < |win| && !win[i]);
      ExceedsIs(Count(win, false), |win|, cfg.threshold);
    }
  }

  predicate OpenedNow(b: State, b': State, now: Time) {
    b'.mode == Open && b'.openedAt == now && b'.outcomes == [] && b'.openedCount == b.openedCount + 1
  }

  predicate ClosedNow(b: State, b': State, now: Time) {
    b'.mode == Closed && b'.closedAt == now && b'.outcomes == [] && b'.openedCount == b.openedCount
  }

  /** A call reported outside a trial joins the last `window` reports, and opens the breaker by the rule. */
  ghost predicate Sampling(cfg: Config, b: State, ok: bool, now: Time, b': State) {
    var all := b.outcomes + [ok];
    var win := if |all| <= cfg.window then all else all[|all| - cfg.window..];
    if Rule(cfg, win) then OpenedNow(b, b', now) else b' == b.(outcomes := win)
  }

  /** A probe's report is kept until there are `probes` of them; their successes then close or re-open. */
  ghost predicate Probing(cfg: Config, b: State, ok: bool, now: Time, b': State) {
    var all := (if b.mode == HalfOpen then b.results else []) + [ok];
    if |all| < cfg.probes then b'.mode == HalfOpen && b'.results == all && b'.openedCount == b.openedCount
    else if |set i | 0 <= i < |all| && all[i]| >= cfg.probesNeeded then ClosedNow(b, b', now)
    else OpenedNow(b, b', now)
  }

  ghost predicate Judged(cfg: Config, b: State, ok: bool, now: Time, b': State) {
    if Trial(b, now) then Probing(cfg, b, ok, now, b') else Sampling(cfg, b, ok, now, b')
  }

  lemma RecordedIsJudged(cfg: Config, b: State, ok: bool, now: Time)
    ensures Judged(cfg, b, ok, now, Recorded(cfg, b, ok, now))
  {
    if Trial(b, now) {
      ProbeIs(cfg, b, ok, now);
    } else {
      SampleIs(cfg, b, ok, now);
    }
  }

  lemma SampleIs(cfg: Config, b: State, ok: bool, now: Time)
    requires !Trial(b, now)
    ensures Sampling(cfg, b, ok, now, Recorded(cfg, b, ok, now))
  {
    FailingIs(cfg, Last(b.outcomes + [ok], cfg.window));
  }

  lemma ProbeIs(cfg: Config, b: State, ok: bool, now: Time)
    requires Trial(b, now)
    ensures Probing(cfg, b, ok, now, Recorded(cfg, b, ok, now))
  {
    var all := (if b.mode == HalfOpen then b.results else []) + [ok];
    CountIs(all, true);
    assert (set i | 0 <= i < |all| && all[i] == true) == (set i | 0 <= i < |all| && all[i]);
  }

  /** Sleeping for the reported time, or for a refused caller's retry time while open, ends the open window. */
  lemma RemainingIsExact(cfg: Config, b: State, now: Time, later: Time)
    requires now <= later
    ensures var open := b.mode == Open && now < b.openedAt + b.openFor;
      && (open <==> Observed(b, now).mode == Open)
      && (open ==> (Observed(b, later).mode == Open <==> later < now + Remaining(b, now)))
      && (open ==> Asked(cfg, b, now).1 == Refuse(Remaining(b, now)) && Remaining(b, now) > 0.0)
      && (!open <==> Remaining(b, now) == 0.0)
  {
  }

  // ---- the object --------------------------------------------------------------------------------------------

  class CircuitBreaker {
    const cfg: Config
    var mode: Mode
    var outcomes: seq<bool>
    var results: seq<bool>
    var admitted: nat
    var openedAt: Time
    var closedAt: Time
    var openFor: real
    var consecutive: nat
    var openedCount: nat

    constructor (c: Config)
      ensures cfg == c && Value() == New()
    {
      cfg := c;
      mode, outcomes, results, admitted := Closed, [], [], 0;
      openedAt, closedAt, openFor, consecutive, openedCount := 0.0, 0.0, 0.0, 0, 0;
    }

    ghost function Value(): State
      reads this
    {
      State(mode, outcomes, results, admitted, openedAt, closedAt, openFor, consecutive, openedCount)
    }

    method Observe(now: Time) returns (m: Mode)
      modifies this
      ensures Value() == Observed(old(Value()), now) && m == mode
    {
      if mode.Open? && now - openedAt >= openFor {
        mode, results, admitted := HalfOpen, [], 0;
      }
      m := mode;
    }

    method SecondsUntilClose(now: Time) returns (s: real)
      modifies this
      ensures Value() == Observed(old(Value()), now) && s == Remaining(old(Value()), now)
    {
      var m := Observe(now);
      if !m.Open? {
        return 0.0;
      }
      s := openFor - (now - openedAt);
      if s < 0.0 {
        s := 0.0;
      }
    }

    method Check(now: Time) returns (v: Verdict)
      modifies this
      ensures (Value(), v) == Asked(cfg, old(Value()), now)
    {
      var m := Observe(now);
      v := Admit;
      if m.Open? {
        v := Refuse(openFor - (now - openedAt));
      } else if m.HalfOpen? {
        if admitted >= cfg.probes {
          v := Refuse(1.0);
        } else {
          admitted := admitted + 1;
        }
      }
    }

    /** With no window and no minimum the failure ratio of no calls would be asked for. */
    method Record(ok: bool, now: Time)
      requires cfg.window >= 1 || cfg.minSamples >= 1
      modifies this
      ensures Value() == Recorded(cfg, old(Value()), ok, now)
      ensures Judged(cfg, old(Value()), ok, now, Value())
    {
      RecordedIsJudged(cfg, Value(), ok, now);
      var m := Observe(now);
      if m.HalfOpen? {
        ReportProbe(ok, now);
      } else {
        outcomes := outcomes + [ok];
        Trim();
        Judge(now);
      }
    }

    method ReportProbe(ok: bool, now: Time)
      modifies this
      ensures Value() == Probed(cfg, old(Value()), ok, now)
    {
      results := results + [ok];
      if |results| >= cfg.probes {
        var good := Tally(results, true);
        if good >= cfg.probesNeeded {
          Close(now);
        } else {
          Trip(now);
        }
      }
    }

    method Trim()
      modifies this`outcomes
      ensures outcomes == Last(old(outcomes), cfg.window)
    {
      var all := outcomes;
      while |outcomes| > cfg.window
        invariant |outcomes| <= |all| && outcomes == all[|all| - |outcomes|..]
        invariant outcomes == all || |outcomes| >= cfg.window
      {
        outcomes := outcomes[1..];
      }
    }

    method Judge(now: Time)
      requires outcomes != [] || cfg.minSamples >= 1
      modifies this
      ensures Value() == if Failing(cfg, old(outcomes)) then Opened(cfg, old(Value()), now) else old(Value())
    {
      if |outcomes| < cfg.minSamples {
        return;
      }
      var failures := Tally(outcomes, false);
      if Exceeds(failures, |outcomes|, cfg.threshold) {
        Trip(now);
      }
    }

    static method Tally(s: seq<bool>, value: bool) returns (n: nat)
      ensures n == Count(s, value)
    {
      n := 0;
      for i := 0 to |s|
        invariant n == Count(s[..i], value)
      {
        assert s[..i + 1][..i] == s[..i];
        if s[i] == value {
          n := n + 1;
        }
      }
      assert s[..|s|] == s;
    }

    method Trip(now: Time)
      modifies this
      ensures Value() == Opened(cfg, old(Value()), now)
    {
      if closedAt != 0.0 && now - closedAt > Recovery(cfg) {
        consecutive := 0;
      }
      openFor := Min(Doubled(cfg.openS, consecutive), cfg.maxOpenS);
      consecutive := consecutive + 1;
      mode, openedAt, outcomes, results, admitted := Open, now, [], [], 0;
      openedCount := openedCount + 1;
    }

    method Close(now: Time)
      modifies this
      ensures Value() == Reclosed(old(Value()), now)
    {
      mode, closedAt, outcomes, results := Closed, now, [], [];
    }
  }

  // ---- any run of calls --------------------------------------------------------------------------------------

  datatype Event = Look(now: Time) | Check(now: Time) | Record(ok: bool, now: Time)

  function After(cfg: Config, b: State, e: Event): State {
    match e
    case Look(now) => Observed(b, now)
    case Check(now) => Asked(cfg, b, now).0
    case Record(ok, now) => Recorded(cfg, b, ok, now)
  }

  ghost predicate EventAt(cfg: Config, bs: seq<State>, es: seq<Event>, i: nat)
    requires |bs| == |es| + 1 && i < |es|
  {
    bs[i + 1] == After(cfg, bs[i], es[i])
  }

  ghost predicate Run(cfg: Config, bs: seq<State>, es: seq<Event>) {
    && |bs| == |es| + 1 && bs[0] == New()
    && forall i | 0 <= i < |es| :: EventAt(cfg, bs, es, i)
  }

  // An event leaves the breaker where it is, opens it or closes it.

  ghost predicate Stays(cfg: Config, b: State, e: Event, b': State) {
    var o := Observed(b, e.now);
    match e
    case Look(_) => b' == o
    case Check(_) => b' == Asked(cfg, b, e.now).0
    case Record(ok, _) =>
      if o.mode.HalfOpen? then b' == o.(results := o.results + [ok]) && |b'.results| < cfg.probes
      else b' == o.(outcomes := Last(o.outcomes + [ok], cfg.window))
  }

  ghost predicate Trips(cfg: Config, b: State, e: Event, b': State) {
    var o := Observed(b, e.now);
    && e.Record? && b' == Opened(cfg, o, e.now)
    && (o.mode.HalfOpen? ==> |o.results| + 1 >= cfg.probes && Count(o.results + [e.ok], true) < cfg.probesNeeded)
  }

  ghost predicate Heals(cfg: Config, b: State, e: Event, b': State) {
    var o := Observed(b, e.now);
    && e.Record? && b' == Reclosed(o, e.now)
    && o.mode.HalfOpen? && |o.results| + 1 >= cfg.probes && Count(o.results + [e.ok], true) >= cfg.probesNeeded
  }

  lemma EventKinds(cfg: Config, b: State, e: Event)
    ensures var b' := After(cfg, b, e); Stays(cfg, b, e, b') || Trips(cfg, b, e, b') || Heals(cfg, b, e, b')
  {
  }

  lemma Moves(cfg: Config, bs: seq<State>, es: seq<Event>, i: nat)
    requires Run(cfg, bs, es) && i < |es|
    ensures Stays(cfg, bs[i], es[i], bs[i + 1]) || Trips(cfg, bs[i], es[i], bs[i + 1]) ||
      Heals(cfg, bs[i], es[i], bs[i + 1])
  {
    assert EventAt(cfg, bs, es, i);
    EventKinds(cfg, bs[i], es[i]);
  }

  predicate Opens(b: State, b': State) {
    b'.openedCount != b.openedCount
  }

  predicate Closes(b: State, b': State) {
    b'.mode.Closed? && !b.mode.Closed?
  }

  predicate Sample(b: State, e: Event) {
    e.Record? && !Trial(b, e.now)
  }

  /** Everything recorded outside half-open since the breaker last opened or closed. */
  ghost function Samples(bs: seq<State>, es: seq<Event>, n: nat): seq<bool>
    requires |bs| == |es| + 1 && n <= |es|
  {
    if n == 0 then [] else Resampled(bs[n - 1], es[n - 1], bs[n], Samples(bs, es, n - 1))
  }

  function Resampled(b: State, e: Event, b': State, samples: seq<bool>): seq<bool> {
    if Opens(b, b') || Closes(b, b') then []
    else if Sample(b, e) then samples + [e.ok]
    else samples
  }

  lemma LastOfLast(s: seq<bool>, x: bool, k: nat)
    ensures Last(Last(s, k) + [x], k) == Last(s + [x], k)
  {
  }

  lemma WindowStays(cfg: Config, b: State, e: Event, b': State, samples: seq<bool>)
    requires Stays(cfg, b, e, b') && b.outcomes == Last(samples, cfg.window)
    ensures Resampled(b, e, b', samples) == if Sample(b, e) then samples + [e.ok] else samples
    ensures b'.outcomes == if Sample(b, e) then Last(b.outcomes + [e.ok], cfg.window) else b.outcomes
  {
  }

  lemma WindowClears(cfg: Config, b: State, e: Event, b': State, samples: seq<bool>)
    requires Trips(cfg, b, e, b') || Heals(cfg, b, e, b')
    ensures Resampled(b, e, b', samples) == [] && b'.outcomes == []
  {
  }

  lemma WindowSlides(cfg: Config, b: State, e: Event, b': State, samples: seq<bool>)
    requires Stays(cfg, b, e, b') || Trips(cfg, b, e, b') || Heals(cfg, b, e, b')
    requires b.outcomes == Last(samples, cfg.window)
    ensures b'.outcomes == Last(Resampled(b, e, b', samples), cfg.window)
  {
    if Stays(cfg, b, e, b') {
      WindowStays(cfg, b, e, b', samples);
      if Sample(b, e) {
        LastOfLast(samples, e.ok, cfg.window);
      }
    } else {
      WindowClears(cfg, b, e, b', samples);
    }
  }

  /** The sliding window holds the last `window` of them. */
  lemma {:induction false} WindowIsRecentSamples(cfg: Config, bs: seq<State>, es: seq<Event>, n: nat)
    requires Run(cfg, bs, es) && n <= |es|
    ensures bs[n].outcomes == Last(Samples(bs, es, n), cfg.window)
  {
    if n > 0 {
      WindowIsRecentSamples(cfg, bs, es, n - 1);
      Moves(cfg, bs, es, n - 1);
      WindowSlides(cfg, bs[n - 1], es[n - 1], bs[n], Samples(bs, es, n - 1));
    }
  }

  lemma RuleDecides(cfg: Config, b: State, samples: seq<bool>, ok: bool, now: Time)
    requires !Trial(b, now) && b.outcomes == Last(samples, cfg.window)
    ensures var all, b' := samples + [ok], Recorded(cfg, b, ok, now);
      var win := if |all| <= cfg.window then all else all[|all| - cfg.window..];
      if Rule(cfg, win) then OpenedNow(b, b', now) else b' == b.(outcomes := win)
  {
    LastOfLast(samples, ok, cfg.window);
    SampleIs(cfg, b, ok, now);
  }

  /**
   A call recorded outside a trial opens the breaker exactly if, of the last `window` calls, there are at least
   `minSamples` and more than `threshold` of them failed.
   */
  lemma OpensExactlyOnRule(cfg: Config, bs: seq<State>, es: seq<Event>, n: nat)
    requires Run(cfg, bs, es) && n < |es| && es[n].Record? && !Trial(bs[n], es[n].now)
    ensures var all, b, b' := Samples(bs, es, n) + [es[n].ok], bs[n], bs[n + 1];
      var win := if |all| <= cfg.window then all else all[|all| - cfg.window..];
      if Rule(cfg, win)
      then b'.openedCount == b.openedCount + 1 && b'.mode == Open && b'.openedAt == es[n].now
      else b'.openedCount == b.openedCount && b'.mode == b.mode && b'.openedAt == b.openedAt && b'.outcomes == win
  {
    WindowIsRecentSamples(cfg, bs, es, n);
    assert EventAt(cfg, bs, es, n);
    RuleDecides(cfg, bs[n], Samples(bs, es, n), es[n].ok, es[n].now);
  }

  // ---- half-open episodes -------------------------------------------------------------------------------------

  predicate Admitted(cfg: Config, b: State, e: Event) {
    e.Check? && Asked(cfg, b, e.now).1.Admit?
  }

  /** Calls let through since the current half-open episode began. */
  ghost function Admissions(cfg: Config, bs: seq<State>, es: seq<Event>, n: nat): nat
    requires |bs| == |es| + 1 && n <= |es|
  {
    if n == 0 || !bs[n].mode.HalfOpen? then 0
    else (if bs[n - 1].mode.HalfOpen? then Admissions(cfg, bs, es, n - 1) else 0) +
         (if Admitted(cfg, bs[n - 1], es[n - 1]) then 1 else 0)
  }

  /** Probe results reported since the current half-open episode began. */
  ghost function Reports(bs: seq<State>, es: seq<Event>, n: nat): seq<bool>
    requires |bs| == |es| + 1 && n <= |es|
  {
    if n == 0 || !bs[n].mode.HalfOpen? then []
    else (if bs[n - 1].mode.HalfOpen? then Reports(bs, es, n - 1) else []) +
         (if es[n - 1].Record? then [es[n - 1].ok] else [])
  }

  lemma {:induction false} EpisodeAdmitsAtMostProbes(cfg: Config, bs: seq<State>, es: seq<Event>, n: nat)
    requires Run(cfg, bs, es) && n <= |es| && bs[n].mode.HalfOpen?
    ensures bs[n].admitted == Admissions(cfg, bs, es, n) <= cfg.probes
  {
    if n > 0 {
      Moves(cfg, bs, es, n - 1);
      if bs[n - 1].mode.HalfOpen? {
        EpisodeAdmitsAtMostProbes(cfg, bs, es, n - 1);
      }
    }
  }

  function Needed(cfg: Config): nat {
    if cfg.probes == 0 then 1 else cfg.probes
  }

  lemma {:induction false} EpisodeCollects(cfg: Config, bs: seq<State>, es: seq<Event>, n: nat)
    requires Run(cfg, bs, es) && n <= |es| && bs[n].mode.HalfOpen?
    ensures bs[n].results == Reports(bs, es, n) && |bs[n].results| < Needed(cfg)
  {
    if n > 0 {
      Moves(cfg, bs, es, n - 1);
      if bs[n - 1].mode.HalfOpen? {
        EpisodeCollects(cfg, bs, es, n - 1);
      }
    }
  }

  /**
    * An episode survives every event but the report that completes it, which closes or re-opens by the count of
    * successes.
    */
  lemma EpisodeEndsAtLastProbe(cfg: Config, bs: seq<State>, es: seq<Event>, n: nat)
    requires Run(cfg, bs, es) && n < |es| && bs[n].mode.HalfOpen?
    ensures var reports := Reports(bs, es, n) + (if es[n].Record? then [es[n].ok] else []);
      && (bs[n + 1].mode.HalfOpen? <==> |reports| < Needed(cfg))
      && |reports| <= Needed(cfg)
      && (bs[n + 1].mode.Closed? <==>
            |reports| == Needed(cfg) && |set i | 0 <= i < |reports| && reports[i]| >= cfg.probesNeeded)
      && (bs[n + 1].mode.Open? <==>
            |reports| == Needed(cfg) && |set i | 0 <= i < |reports| && reports[i]| < cfg.probesNeeded)
  {
    EpisodeCollects(cfg, bs, es, n);
    Moves(cfg, bs, es, n);
    var reports := Reports(bs, es, n) + (if es[n].Record? then [es[n].ok] else []);
    CountIs(reports, true);
    assert (set i | 0 <= i < |reports| && reports[i] == true) == (set i | 0 <= i < |reports| && reports[i]);
  }

  // ---- escalation ---------------------------------------------------------------------------------------------

  lemma {:induction false} DoubledGrows(base: real, k: nat)
    requires base >= 0.0
    ensures Doubled(base, k) >= base
  {
    if k > 0 {
      DoubledGrows(base, k - 1);
    }
  }

  /** Every open window lasts between the configured time and the configured maximum. */
  lemma {:induction false} OpenWindowBounds(cfg: Config, bs: seq<State>, es: seq<Event>, n: nat)
    requires Run(cfg, bs, es) && n <= |es| && cfg.openS >= 0.0
    ensures bs[n].openedCount > 0 ==> Min(cfg.openS, cfg.maxOpenS) <= bs[n].openFor <= cfg.maxOpenS
    ensures bs[n].openedCount == 0 ==> bs[n].mode.Closed?
  {
    if n > 0 {
      OpenWindowBounds(cfg, bs, es, n - 1);
      Moves(cfg, bs, es, n - 1);
      if Opens(bs[n - 1], bs[n]) {
        DoubledGrows(cfg.openS, bs[n].consecutive - 1);
      }
    }
  }

  ghost predicate NeverCloses(bs: seq<State>, n: nat)
    requires n < |bs|
  {
    forall i | 0 < i <= n :: !Closes(bs[i - 1], bs[i])
  }

  /** While it has never closed, the n-th open lasts the base time doubled n - 1 times, capped. */
  lemma {:induction false} NthOpenLasts(cfg: Config, bs: seq<State>, es: seq<Event>, n: nat)
    requires Run(cfg, bs, es) && n <= |es| && NeverCloses(bs, n)
    ensures Escalated(cfg, bs[n])
  {
    if n > 0 {
      NthOpenLasts(cfg, bs, es, n - 1);
      Moves(cfg, bs, es, n - 1);
      assert !Closes(bs[n - 1], bs[n]);
    }
  }

  ghost predicate Escalated(cfg: Config, b: State) {
    && b.consecutive == b.openedCount && b.closedAt == 0.0
    && (b.openedCount > 0 ==> b.openFor == Min(Doubled(cfg.openS, b.openedCount - 1), cfg.maxOpenS))
    && (b.mode.Closed? <==> b.openedCount == 0)
  }

  // ---- when escalation starts over -----------------------------------------------------------------------------

  /** The instant of the last close. */
  ghost function LastClose(bs: seq<State>, es: seq<Event>, n: nat): Option<Time>
    requires |bs| == |es| + 1 && n <= |es|
  {
    if n == 0 then None
    else if Closes(bs[n - 1], bs[n]) then Some(es[n - 1].now)
    else LastClose(bs, es, n - 1)
  }

  /** The instant of the first open since the last close. */
  ghost function Reopened(bs: seq<State>, es: seq<Event>, n: nat): Option<Time>
    requires |bs| == |es| + 1 && n <= |es|
  {
    if n == 0 || Closes(bs[n - 1], bs[n]) then None
    else if Reopened(bs, es, n - 1).None? && Opens(bs[n - 1], bs[n]) then Some(es[n - 1].now)
    else Reopened(bs, es, n - 1)
  }

  /** How long the breaker held closed, for an open at event n. */
  ghost function HeldClosed(bs: seq<State>, es: seq<Event>, n: nat): real
    requires |bs| == |es| + 1 && n < |es| && LastClose(bs, es, n).Some?
  {
    (if Reopened(bs, es, n).Some? then Reopened(bs, es, n).value else es[n].now) - LastClose(bs, es, n).value
  }

  predicate StartsOver(b: State, b': State) {
    Opens(b, b') && b'.consecutive <= b.consecutive
  }

  lemma {:induction false} CloseIsRemembered(cfg: Config, bs: seq<State>, es: seq<Event>, n: nat)
    requires Run(cfg, bs, es) && n <= |es|
    ensures bs[n].closedAt == (if LastClose(bs, es, n).Some? then LastClose(bs, es, n).value else 0.0)
    ensures LastClose(bs, es, n).Some? || !bs[n].mode.Closed? ==> bs[n].consecutive > 0
  {
    if n > 0 {
      CloseIsRemembered(cfg, bs, es, n - 1);
      Moves(cfg, bs, es, n - 1);
    }
  }

  lemma StartsOverWhen(cfg: Config, bs: seq<State>, es: seq<Event>, n: nat)
    requires Run(cfg, bs, es) && n < |es| && Opens(bs[n], bs[n + 1])
    ensures StartsOver(bs[n], bs[n + 1]) <==> bs[n].consecutive > 0 && Recovered(cfg, bs[n], es[n].now)
  {
    Moves(cfg, bs, es, n);
  }

  /** Escalation starts over on the time since the last close ... */
  lemma StartsOverOnTimeSinceClose(cfg: Config, bs: seq<State>, es: seq<Event>, n: nat)
    requires Run(cfg, bs, es) && n < |es| && Opens(bs[n], bs[n + 1])
    ensures StartsOver(bs[n], bs[n + 1]) <==>
      && LastClose(bs, es, n).Some? && LastClose(bs, es, n).value != 0.0
      && es[n].now - LastClose(bs, es, n).value > cfg.openS * cfg.recoveryMultiple
  {
    CloseIsRemembered(cfg, bs, es, n);
    StartsOverWhen(cfg, bs, es, n);
  }

  /**
    * ... which agrees with the time the breaker held closed unless it re-opened within the recovery time
    * and is opening once more after it. (The clock does not run backward.)
    */
  lemma StartsOverMeansHeldClosed(cfg: Config, bs: seq<State>, es: seq<Event>, n: nat)
    requires Run(cfg, bs, es) && n < |es| && Opens(bs[n], bs[n + 1])
    requires LastClose(bs, es, n).Some? && LastClose(bs, es, n).value != 0.0
    requires Reopened(bs, es, n).Some? ==> Reopened(bs, es, n).value <= es[n].now
    ensures var c, again := LastClose(bs, es, n).value, Reopened(bs, es, n);
      var recovery := cfg.openS * cfg.recoveryMultiple;
      (StartsOver(bs[n], bs[n + 1]) <==> HeldClosed(bs, es, n) > recovery) <==>
      !(again.Some? && again.value - c <= recovery < es[n].now - c)
  {
    StartsOverOnTimeSinceClose(cfg, bs, es, n);
  }

  /** A breaker that held closed for one second of the four asked starts over all the same. */
  lemma StartsOverWithoutRecovery() returns (cfg: Config, bs: seq<State>, es: seq<Event>)
    ensures Run(cfg, bs, es) && |es| == 4 && StartsOver(bs[3], bs[4])
    ensures LastClose(bs, es, 3) == Some(2.0) && HeldClosed(bs, es, 3) == 1.0 && Recovery(cfg) == 4.0
  {
    cfg, bs, es := Quick(), QuickStates(), QuickEvents();
    QuickRun();
    assert LastClose(bs, es, 1) == None;
    assert LastClose(bs, es, 2) == Some(2.0);
    assert Reopened(bs, es, 2) == None;
    assert Reopened(bs, es, 3) == Some(3.0);
  }

  function OpenUntil(b: State): Time {
    b.openedAt + b.openFor
  }

  /** A failure recorded while the breaker is open, from a call let in before, opens it again for longer. */
  lemma ReopensWhileOpen() returns (cfg: Config, bs: seq<State>, es: seq<Event>)
    ensures Run(cfg, bs, es) && |es| == 2 && es[1] == Record(false, 2.0)
    ensures bs[1].mode.Open? && OpenUntil(bs[1]) == 11.0 && Observed(bs[1], 2.0) == bs[1]
    ensures Opens(bs[1], bs[2]) && bs[2].mode.Open? && OpenUntil(bs[2]) == 22.0
  {
    cfg, es := Config(1, 0.0, 10.0, 100.0, 1, 1, 1, 4.0), [Record(false, 1.0), Record(false, 2.0)];
    bs := [New(), State(Open, [], [], 0, 1.0, 0.0, 10.0, 1, 1), State(Open, [], [], 0, 2.0, 0.0, 20.0, 2, 2)];
    OneCall(cfg, bs[0], 1.0);
    OneCall(cfg, bs[1], 2.0);
    assert Doubled(10.0, 1) == 20.0;
    forall i | 0 <= i < 2 ensures EventAt(cfg, bs, es, i) {
      assert i == 0 || i == 1;
    }
  }

  function QuickEvents(): seq<Event> {
    [Record(false, 1.0), Record(true, 2.0), Record(false, 3.0), Record(false, 7.0)]
  }

  function QuickStates(): seq<State> {
    [New(), Tripped(1.0, 0.0, 1.0, 1, 1), Healed(), Tripped(3.0, 2.0, 2.0, 2, 2), Tripped(7.0, 2.0, 1.0, 1, 3)]
  }

  function Tripped(at: Time, closedAt: Time, openFor: real, consecutive: nat, count: nat): State {
    State(Open, [], [], 0, at, closedAt, openFor, consecutive, count)
  }

  function Healed(): State {
    State(Closed, [], [], 0, 1.0, 2.0, 1.0, 1, 1)
  }

  function Quick(): Config {
    Config(1, 0.0, 1.0, 10.0, 1, 1, 1, 4.0)
  }

  /** How long the quick breaker opens: one second, or two after one open it has not recovered from. */
  lemma QuickOpens(b: State, now: Time)
    requires b.consecutive <= 1 || (b.closedAt == 2.0 && now == 7.0)
    ensures var before := if b.closedAt != 0.0 && now - b.closedAt > 4.0 then 0 else b.consecutive;
      Opened(Quick(), b, now) ==
        Tripped(now, b.closedAt, if before == 0 then 1.0 else 2.0, before + 1, b.openedCount + 1)
  {
    assert Recovery(Quick()) == 4.0;
    assert Doubled(1.0, 0) == 1.0;
    assert Doubled(1.0, 1) == 2.0;
  }

  lemma QuickFirst()
    ensures After(Quick(), New(), Record(false, 1.0)) == Tripped(1.0, 0.0, 1.0, 1, 1)
  {
    OneCall(Quick(), New(), 1.0);
    QuickOpens(New().(outcomes := [false]), 1.0);
  }

  lemma QuickSecond()
    ensures After(Quick(), Tripped(1.0, 0.0, 1.0, 1, 1), Record(true, 2.0)) == Healed()
  {
    OneProbe(Quick(), Tripped(1.0, 0.0, 1.0, 1, 1), true, 2.0);
  }

  lemma QuickThird()
    ensures After(Quick(), Healed(), Record(false, 3.0)) == Tripped(3.0, 2.0, 2.0, 2, 2)
  {
    OneCall(Quick(), Healed(), 3.0);
    QuickOpens(Healed().(outcomes := [false]), 3.0);
  }

  lemma QuickFourth()
    ensures After(Quick(), Tripped(3.0, 2.0, 2.0, 2, 2), Record(false, 7.0)) == Tripped(7.0, 2.0, 1.0, 1, 3)
  {
    OneProbe(Quick(), Tripped(3.0, 2.0, 2.0, 2, 2), false, 7.0);
    QuickOpens(Tripped(3.0, 2.0, 2.0, 2, 2), 7.0);
  }

  lemma QuickRun()
    ensures Run(Quick(), QuickStates(), QuickEvents())
  {
    QuickFirst();
    QuickSecond();
    QuickThird();
    QuickFourth();
    forall i | 0 <= i < 4 ensures EventAt(Quick(), QuickStates(), QuickEvents(), i) {
      assert i == 0 || i == 1 || i == 2 || i == 3;
    }
  }

  lemma OneProbe(cfg: Config, b: State, ok: bool, now: Time)
    requires cfg.probes == 1 && cfg.probesNeeded == 1 && b.mode.Open? && now - b.openedAt >= b.openFor
    ensures After(cfg, b, Record(ok, now)) == if ok then Reclosed(b.(admitted := 0), now) else Opened(cfg, b, now)
  {
    assert [] + [ok] == [ok];
    assert Count([ok], true) == if ok then 1 else 0;
  }

  lemma OneCall(cfg: Config, b: State, now: Time)
    requires cfg.window == 1 && cfg.minSamples == 1 && cfg.threshold == 0.0
    requires !Observed(b, now).mode.HalfOpen? && b.outcomes == []
    ensures After(cfg, b, Record(false, now)) == Opened(cfg, b.(outcomes := [false]), now)
  {
    assert Last([] + [false], 1) == [false];
    assert Count([false], false) == 1;
  }
}
