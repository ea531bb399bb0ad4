/** The token buckets: one in the process, one shared through Redis. */
module RateLimit {
  import opened Tables

  // ---- the local bucket, as values -----------------------------------------------------------

  datatype Bucket = Bucket(
    rate: real,          // tokens per second
    capacity: real,
    tokens: real,
    updated: Time,
    penaltyFactor: real,
    penaltyUntil: Time)

  datatype Op =
    | Take(n: nat, at: Time)                             // one turn of acquire's loop
    | Slow(fraction: real, seconds: real, at: Time)      // penalize
    | Look(at: Time)                                     // the tokens property

  function EffectiveRate(b: Bucket, now: Time): real {
    if now < b.penaltyUntil then b.rate * b.penaltyFactor else b.rate
  }

  function Refilled(b: Bucket, now: Time): Bucket {
    b.(tokens := Min(b.capacity, b.tokens + (now - b.updated) * EffectiveRate(b, now)), updated := now)
  }

  function Apply(b: Bucket, op: Op): Bucket {
    match op
    case Take(n, now) =>
      var r := Refilled(b, now);
      if r.tokens >= n as real then r.(tokens := r.tokens - n as real) else r
    case Slow(fraction, seconds, now) => b.(penaltyFactor := Max(0.05, 1.0 - fraction), penaltyUntil := now + seconds)
    case Look(now) => Refilled(b, now)
  }

  function Granted(b: Bucket, op: Op): real {
    if op.Take? && Refilled(b, op.at).tokens >= op.n as real then op.n as real else 0.0
  }

  ghost predicate Valid(b: Bucket) {
    b.rate >= 0.0 && b.capacity >= 0.0 && 0.0 <= b.tokens <= b.capacity && 0.05 <= b.penaltyFactor <= 1.0
  }

  /**
   The bucket before and after each operation, on a monotonic clock, with penalties that slow
   it down. `gs[i]` is what operation `i` was granted.
   */
  ghost predicate Trace(bs: seq<Bucket>, ops: seq<Op>, gs: seq<real>) {
    Calls(bs, ops, gs) && forall i | 0 <= i < |ops| && ops[i].Slow? :: ops[i].fraction >= 0.0
  }

  /** The same with any penalties. */
  ghost predicate Calls(bs: seq<Bucket>, ops: seq<Op>, gs: seq<real>) {
    && |bs| == |ops| + 1 && |gs| == |ops| && Valid(bs[0])
    && (ops != [] ==> bs[0].updated <= ops[0].at)
    && (forall i | 0 <= i < |ops| :: OpAt(bs, ops, gs, i))
  }

  ghost predicate OpAt(bs: seq<Bucket>, ops: seq<Op>, gs: seq<real>, i: nat)
    requires |bs| == |ops| + 1 && |gs| == |ops| && i < |ops|
  {
    && bs[i + 1] == Apply(bs[i], ops[i])
    && gs[i] == Granted(bs[i], ops[i])
    && (i + 1 < |ops| ==> ops[i].at <= ops[i + 1].at)
  }

  function Sum(gs: seq<real>, n: nat): real
    requires n <= |gs|
  {
    if n == 0 then 0.0 else Sum(gs, n - 1) + gs[n - 1]
  }

  // ---- one call, in the bucket's own fields ---------------------------------------------------------

  /** What comes in by `now`: at the rate in force, up to the capacity. */
  lemma RefillIs(b: Bucket, now: Time)
    ensures var slow, full := b.rate * b.penaltyFactor, b.rate;
      && (now < b.penaltyUntil ==> Refilled(b, now).tokens == Min(b.capacity, b.tokens + (now - b.updated) * slow))
      && (now >= b.penaltyUntil ==> Refilled(b, now).tokens == Min(b.capacity, b.tokens + (now - b.updated) * full))
  {
  }

  /** It is taken if it is enough, else only booked. */
  lemma TakeIs(b: Bucket, n: nat, now: Time)
    ensures var have := Refilled(b, now).tokens;
      && Granted(b, Take(n, now)) == (if have >= n as real then n as real else 0.0)
      && Apply(b, Take(n, now)) == b.(tokens := have - Granted(b, Take(n, now)), updated := now)
  {
  }

  /** Until a penalty runs out tokens come in slower by its fraction, though never below a twentieth of the rate. */
  lemma PenaltyTakesEffect(b: Bucket, fraction: real, seconds: real, now: Time, later: Time)
    ensures var slowed := Apply(b, Slow(fraction, seconds, now));
      var share := if later >= now + seconds then 1.0 else if fraction <= 0.95 then 1.0 - fraction else 0.05;
      && slowed.tokens == b.tokens && slowed.updated == b.updated
      && Refilled(slowed, later).tokens == Min(b.capacity, b.tokens + (later - b.updated) * (b.rate * share))
  {
    assert b.rate * 1.0 == b.rate;
  }

  // ---- the bound --------------------------------------------------------------------------------

  lemma SlowerEarnsLess(dt: real, rate: real, factor: real)
    requires dt >= 0.0 && rate >= 0.0 && 0.0 <= factor <= 1.0
    ensures 0.0 <= dt * (rate * factor) <= dt * rate
  {
    assert rate * factor <= rate * 1.0;
  }

  lemma EarnsAtMostRate(b: Bucket, now: Time)
    requires Valid(b) && now >= b.updated
    ensures Valid(Refilled(b, now)) && Refilled(b, now).tokens <= b.tokens + (now - b.updated) * b.rate
  {
    SlowerEarnsLess(now - b.updated, b.rate, b.penaltyFactor);
    SlowerEarnsLess(now - b.updated, b.rate, 1.0);
  }

  /** What a bucket refilled at full rate since time zero would have earned by each moment. */
  ghost predicate Credit(earned: Time -> real, rate: real) {
    forall t :: earned(t) == t * rate
  }

  ghost predicate Grows(earned: Time -> real) {
    forall a, b | a <= b :: earned(a) <= earned(b)
  }

  ghost function FullRate(rate: real): Time -> real {
    (t: Time) => t * rate
  }

  lemma FullRateEarns(rate: real)
    requires rate >= 0.0
    ensures Credit(FullRate(rate), rate) && Grows(FullRate(rate))
  {
    var earned := FullRate(rate);
    forall a, b | a <= b ensures earned(a) <= earned(b) {
      Scaled(a, b, rate);
    }
  }

  lemma Difference(earned: Time -> real, rate: real, a: Time, b: Time)
    requires Credit(earned, rate)
    ensures earned(b) - earned(a) == (b - a) * rate
  {
    assert b * rate - a * rate == (b - a) * rate;
  }

  /** One operation: what it grants and leaves is at most what was there plus what time earned. */
  ghost predicate Turn(b: Bucket, op: Op, g: real, c: Bucket, earned: Time -> real) {
    && Valid(c) && c.rate == b.rate && c.capacity == b.capacity && b.updated <= c.updated <= op.at
    && g + c.tokens <= b.tokens + earned(c.updated) - earned(b.updated)
    && (op.Slow? ==> g == 0.0 && c.updated == b.updated)
    && (!op.Slow? ==> c.updated == op.at && g + c.tokens <= b.capacity)
  }

  lemma OpTurns(b: Bucket, op: Op, earned: Time -> real)
    requires Valid(b) && b.updated <= op.at && (op.Slow? ==> op.fraction >= 0.0) && Credit(earned, b.rate)
    ensures Turn(b, op, Granted(b, op), Apply(b, op), earned)
  {
    if !op.Slow? {
      EarnsAtMostRate(b, op.at);
      Difference(earned, b.rate, b.updated, op.at);
    }
  }

  ghost predicate Ledger(bs: seq<Bucket>, ops: seq<Op>, gs: seq<real>, earned: Time -> real) {
    && |bs| == |ops| + 1 && |gs| == |ops| && Valid(bs[0])
    && (forall i | 0 <= i < |ops| :: Turn(bs[i], ops[i], gs[i], bs[i + 1], earned))
  }

  lemma {:induction false} TraceTurns(bs: seq<Bucket>, ops: seq<Op>, gs: seq<real>, earned: Time -> real, i: nat)
    requires Trace(bs, ops, gs) && i < |ops| && Credit(earned, bs[0].rate)
    ensures Valid(bs[i]) && bs[i].rate == bs[0].rate && bs[i].updated <= ops[i].at
    ensures Turn(bs[i], ops[i], gs[i], bs[i + 1], earned)
  {
    assert OpAt(bs, ops, gs, i);
    if i > 0 {
      TraceTurns(bs, ops, gs, earned, i - 1);
      assert OpAt(bs, ops, gs, i - 1);
    }
    OpTurns(bs[i], ops[i], earned);
  }

  lemma TraceLedger(bs: seq<Bucket>, ops: seq<Op>, gs: seq<real>, earned: Time -> real)
    requires Trace(bs, ops, gs) && Credit(earned, bs[0].rate)
    ensures Ledger(bs, ops, gs, earned)
  {
    forall i | 0 <= i < |ops| ensures Turn(bs[i], ops[i], gs[i], bs[i + 1], earned) {
      TraceTurns(bs, ops, gs, earned, i);
    }
  }

  /** Tokens granted and tokens left never exceed what was there plus what the rate allows. */
  lemma {:induction false} LedgerBalances(bs: seq<Bucket>, ops: seq<Op>, gs: seq<real>, earned: Time -> real, n: nat)
    requires Ledger(bs, ops, gs, earned) && n <= |ops|
    ensures Sum(gs, n) + bs[n].tokens <= bs[0].tokens + earned(bs[n].updated) - earned(bs[0].updated)
  {
    if n > 0 {
      LedgerBalances(bs, ops, gs, earned, n - 1);
      assert Turn(bs[n - 1], ops[n - 1], gs[n - 1], bs[n - 1 + 1], earned);
    }
  }

  /** So over any trace: what is granted and what is left is at most what was there and what the rate earned. */
  lemma TraceBalances(bs: seq<Bucket>, ops: seq<Op>, gs: seq<real>, n: nat)
    requires Trace(bs, ops, gs) && n <= |ops|
    ensures Sum(gs, n) + bs[n].tokens <= bs[0].tokens + (bs[n].updated - bs[0].updated) * bs[0].rate
  {
    var earned := FullRate(bs[0].rate);
    FullRateEarns(bs[0].rate);
    TraceLedger(bs, ops, gs, earned);
    LedgerBalances(bs, ops, gs, earned, n);
    Difference(earned, bs[0].rate, bs[0].updated, bs[n].updated);
  }

  ghost predicate NoneBefore(ops: seq<Op>, start: Time) {
    forall i | 0 <= i < |ops| :: start <= ops[i].at
  }

  /** Within an interval, everything earned before it is cut off at the capacity by its first turn. */
  lemma {:induction false} IntervalBalances(bs: seq<Bucket>, ops: seq<Op>, gs: seq<real>, earned: Time -> real,
      start: Time, n: nat)
    requires Ledger(bs, ops, gs, earned) && n <= |ops| && NoneBefore(ops, start) && Grows(earned)
    ensures bs[n].capacity == bs[0].capacity && Valid(bs[n])
    ensures Sum(gs, n) == 0.0
      || (start <= bs[n].updated && Sum(gs, n) + bs[n].tokens <= bs[0].capacity + earned(bs[n].updated) - earned(start))
  {
    if n > 0 {
      IntervalBalances(bs, ops, gs, earned, start, n - 1);
      assert Turn(bs[n - 1], ops[n - 1], gs[n - 1], bs[n - 1 + 1], earned);
      assert earned(start) <= earned(ops[n - 1].at);
    }
  }

  lemma {:induction false} TimesGrow(bs: seq<Bucket>, ops: seq<Op>, gs: seq<real>, i: nat, n: nat)
    requires Trace(bs, ops, gs) && i <= n < |ops|
    ensures ops[i].at <= ops[n].at
    decreases n - i
  {
    if i < n {
      TimesGrow(bs, ops, gs, i, n - 1);
      assert OpAt(bs, ops, gs, n - 1);
    }
  }

  lemma Scaled(a: real, b: real, rate: real)
    requires a <= b && rate >= 0.0
    ensures a * rate <= b * rate
  {
  }

  predicate Within(ops: seq<Op>, start: Time, end: Time) {
    start <= end && (ops != [] ==> start <= ops[0].at && ops[|ops| - 1].at <= end)
  }

  /**
   Over any interval, from any state of the bucket, the tokens granted are at most the burst
   capacity plus the interval's length times the rate, whatever penalties are applied.
   */
  lemma GrantedInInterval(bs: seq<Bucket>, ops: seq<Op>, gs: seq<real>, start: Time, end: Time)
    requires Trace(bs, ops, gs) && Within(ops, start, end)
    ensures Sum(gs, |ops|) <= bs[0].capacity + (end - start) * bs[0].rate
  {
    var earned := FullRate(bs[0].rate);
    FullRateEarns(bs[0].rate);
    TraceLedger(bs, ops, gs, earned);
    forall i | 0 <= i < |ops| ensures start <= ops[i].at {
      TimesGrow(bs, ops, gs, 0, i);
    }
    GrantedWithinCredit(bs, ops, gs, earned, start, end);
    Difference(earned, bs[0].rate, start, end);
  }

  lemma GrantedWithinCredit(bs: seq<Bucket>, ops: seq<Op>, gs: seq<real>, earned: Time -> real, start: Time, end: Time)
    requires Ledger(bs, ops, gs, earned) && start <= end && (ops != [] ==> ops[|ops| - 1].at <= end)
    requires Grows(earned) && NoneBefore(ops, start)
    ensures Sum(gs, |ops|) <= bs[0].capacity + earned(end) - earned(start)
  {
    IntervalBalances(bs, ops, gs, earned, start, |ops|);
    if ops != [] {
      assert Turn(bs[|ops| - 1], ops[|ops| - 1], gs[|ops| - 1], bs[|ops| - 1 + 1], earned);
      assert earned(bs[|ops|].updated) <= earned(end);
    }
    assert earned(start) <= earned(end);
  }

  // ---- when the bound and the waiting time hold -------------------------------------------------------

  /**
   A penalty with a negative fraction speeds the bucket up, and the bound is lost for every
   rate and capacity. `after` is the time in which the faster bucket earns one token.
   */
  lemma NegativePenaltyBreaksBound(rate: real, capacity: nat, fraction: real, after: Time)
    requires rate > 0.0 && capacity >= 1 && fraction < 0.0 && after > 0.0 && after * (rate * (1.0 - fraction)) == 1.0
    ensures
      var b := Bucket(rate, capacity as real, capacity as real, 0.0, 1.0, 0.0);
      var c := Apply(b, Take(capacity, 0.0));
      var d := Apply(c, Slow(fraction, after + 1.0, 0.0));
      Granted(b, Take(capacity, 0.0)) + Granted(d, Take(1, after)) > b.capacity + after * rate
  {
    var b := Bucket(rate, capacity as real, capacity as real, 0.0, 1.0, 0.0);
    var c := Apply(b, Take(capacity, 0.0));
    assert c.tokens == 0.0 && c.updated == 0.0 && Granted(b, Take(capacity, 0.0)) == capacity as real;
    var d := Apply(c, Slow(fraction, after + 1.0, 0.0));
    assert EffectiveRate(d, after) == rate * (1.0 - fraction);
    assert Refilled(d, after).tokens >= 1.0;
    Associates(after, rate, 1.0 - fraction);
    Positive(after, rate);
    BelowOne(after * rate, 1.0 - fraction);
  }

  /** Every penalty among the calls has this fraction. */
  ghost predicate AllSlow(ops: seq<Op>, fraction: real) {
    forall i | 0 <= i < |ops| && ops[i].Slow? :: ops[i].fraction == fraction
  }

  /** The bound holds over every interval of every sequence of calls that penalize by this fraction. */
  ghost predicate Bounds(fraction: real) {
    forall bs: seq<Bucket>, ops, gs, start, end |
      Calls(bs, ops, gs) && AllSlow(ops, fraction) && Within(ops, start, end) ::
      Sum(gs, |ops|) <= bs[0].capacity + (end - start) * bs[0].rate
  }

  /** Three calls in a row, as a sequence of calls. */
  lemma ThreeCalls(b: Bucket, x: Op, y: Op, z: Op) returns (bs: seq<Bucket>, gs: seq<real>)
    requires Valid(b) && b.updated <= x.at <= y.at <= z.at
    ensures Calls(bs, [x, y, z], gs) && bs[0] == b
    ensures Sum(gs, 3) == Granted(b, x) + Granted(Apply(b, x), y) + Granted(Apply(Apply(b, x), y), z)
  {
    var c := Apply(b, x);
    var d := Apply(c, y);
    bs, gs := [b, c, d, Apply(d, z)], [Granted(b, x), Granted(c, y), Granted(d, z)];
    var ops := [x, y, z];
    forall i | 0 <= i < 3 ensures OpAt(bs, ops, gs, i) {
      assert i == 0 || i == 1 || i == 2;
    }
    assert Sum(gs, 1) == gs[0] && Sum(gs, 2) == gs[0] + gs[1];
  }

  lemma BreaksBound(fraction: real)
    requires fraction < 0.0
    ensures !Bounds(fraction)
  {
    Quotient(1.0, 1.0 - fraction);
    var after := 1.0 / (1.0 - fraction);
    NegativePenaltyBreaksBound(1.0, 1, fraction, after);
    var x, y, z := Take(1, 0.0), Slow(fraction, after + 1.0, 0.0), Take(1, after);
    var bs, gs := ThreeCalls(Bucket(1.0, 1.0, 1.0, 0.0, 1.0, 0.0), x, y, z);
    assert Calls(bs, [x, y, z], gs) && AllSlow([x, y, z], fraction) && Within([x, y, z], 0.0, after);
  }

  /** Penalties by a fraction leave the bound alone exactly if it is not negative. */
  lemma BoundHoldsExactlyIf(fraction: real)
    ensures Bounds(fraction) <==> fraction >= 0.0
  {
    if fraction < 0.0 {
      BreaksBound(fraction);
    } else {
      forall bs: seq<Bucket>, ops, gs, start, end |
        Calls(bs, ops, gs) && AllSlow(ops, fraction) && Within(ops, start, end)
        ensures Sum(gs, |ops|) <= bs[0].capacity + (end - start) * bs[0].rate
      {
        GrantedInInterval(bs, ops, gs, start, end);
      }
    }
  }

  lemma Positive(x: real, y: real)
    requires x > 0.0 && y > 0.0
    ensures x * y > 0.0
  {
  }

  lemma BelowOne(y: real, f: real)
    requires y > 0.0 && f > 1.0 && y * f == 1.0
    ensures y < 1.0
  {
    Positive(y, f - 1.0);
  }

  lemma Associates(x: real, y: real, z: real)
    ensures x * (y * z) == (x * y) * z
  {
  }

  /** A request beyond the capacity is never granted, so `acquire` would wait for it forever. */
  lemma NeverMoreThanCapacity(b: Bucket, n: nat, now: Time)
    requires Valid(b) && b.updated <= now && n as real > b.capacity
    ensures Granted(b, Take(n, now)) == 0.0
  {
    EarnsAtMostRate(b, now);
  }

  function WaitFor(b: Bucket, n: nat, now: Time): real {
    (n as real - b.tokens) / Max(EffectiveRate(b, now), 0.000000001)
  }

  /** Any other refused request is granted if it is repeated after the wait and nothing came between. */
  lemma WaitIsEnough(b: Bucket, n: nat, now: Time)
    requires Valid(b) && b.updated == now && b.tokens < n as real <= b.capacity && EffectiveRate(b, now) >= 0.000000001
    ensures WaitFor(b, n, now) > 0.0
    ensures Granted(b, Take(n, now + WaitFor(b, n, now))) == n as real
  {
    var r, w := EffectiveRate(b, now), WaitFor(b, n, now);
    Quotient(n as real - b.tokens, r);
    RateNeverDrops(b, now, now + w);
    EarnedEnough(b, n as real, now, w);
  }

  /** And not before, while the rate stays what it is. */
  lemma WaitIsNeeded(b: Bucket, n: nat, now: Time, later: Time)
    requires Valid(b) && b.updated == now && b.tokens < n as real && EffectiveRate(b, now) >= 0.000000001
    requires now <= later < now + WaitFor(b, n, now) && EffectiveRate(b, later) == EffectiveRate(b, now)
    ensures Granted(b, Take(n, later)) == 0.0
  {
    var r, w := EffectiveRate(b, now), WaitFor(b, n, now);
    Quotient(n as real - b.tokens, r);
    Positive(w - (later - now), r);
    assert (later - now) * r == w * r - (w - (later - now)) * r;
  }

  lemma PenaltySlows(rate: real, factor: real)
    requires rate >= 0.0 && 0.0 <= factor <= 1.0
    ensures rate * factor <= rate
  {
    assert rate * factor <= rate * 1.0;
  }

  /** A penalty only runs out. */
  lemma RateNeverDrops(b: Bucket, now: Time, later: Time)
    requires Valid(b) && now <= later
    ensures EffectiveRate(b, now) <= EffectiveRate(b, later)
  {
    PenaltySlows(b.rate, b.penaltyFactor);
  }

  lemma EarnedEnough(b: Bucket, n: real, now: Time, w: real)
    requires b.updated == now && b.tokens < n <= b.capacity && w > 0.0 && w * EffectiveRate(b, now) == n - b.tokens
    requires EffectiveRate(b, now) <= EffectiveRate(b, now + w)
    ensures Refilled(b, now + w).tokens >= n
  {
    Scaled(EffectiveRate(b, now), EffectiveRate(b, now + w), w);
  }

  lemma Quotient(x: real, r: real)
    requires x > 0.0 && r > 0.0
    ensures x / r > 0.0 && (x / r) * r == x
  {
  }

  // ---- the local bucket as it runs -----------------------------------------------------------------------

  /** The capacity given, or a fiftieth of a minute's tokens, at least one. */
  function Burst(ratePerMinute: nat, burst: Option<nat>): nat {
    if burst.Some? then burst.value else if ratePerMinute / 50 >= 1 then ratePerMinute / 50 else 1
  }

  class TokenBucket {
    const rate: real
    const capacity: real
    var tokens: real
    var updated: Time
    var penaltyFactor: real
    var penaltyUntil: Time

    function State(): Bucket
      reads this
    {
      Bucket(rate, capacity, tokens, updated, penaltyFactor, penaltyUntil)
    }

    constructor (ratePerMinute: nat, burst: Option<nat>, now: Time)
      ensures Valid(State()) && tokens == capacity && updated == now
      ensures capacity == if burst.Some? then burst.value as real
        else if ratePerMinute < 50 then 1.0 else (ratePerMinute / 50) as real
      ensures rate * 60.0 == ratePerMinute as real
    {
      rate := ratePerMinute as real / 60.0;
      capacity := Burst(ratePerMinute, burst) as real;
      tokens := Burst(ratePerMinute, burst) as real;
      updated := now;
      penaltyFactor, penaltyUntil := 1.0, 0.0;
    }

    method Refill(now: Time)
      modifies this`tokens, this`updated
      ensures State() == Refilled(old(State()), now)
    {
      var elapsed := now - updated;
      updated := now;
      var r := rate;
      if now < penaltyUntil {
        r := rate * penaltyFactor;
      }
      tokens := tokens + elapsed * r;
      if tokens > capacity {
        tokens := capacity;
      }
    }

    method Penalize(fraction: real, seconds: real, now: Time)
      modifies this`penaltyFactor, this`penaltyUntil
      ensures State() == Apply(old(State()), Slow(fraction, seconds, now))
    {
      penaltyFactor := if 1.0 - fraction >= 0.05 then 1.0 - fraction else 0.05;
      penaltyUntil := now + seconds;
    }

    method SleepTime(n: nat, now: Time) returns (wait: real)
      requires tokens < n as real
      ensures wait == WaitFor(State(), n, now)
    {
      var r := rate;
      if now < penaltyUntil {
        r := rate * penaltyFactor;
      }
      wait := (n as real - tokens) / (if r >= 0.000000001 then r else 0.000000001);
    }

    /** One turn of `acquire`: takes the tokens, or says how long to sleep before the next turn. */
    method TryAcquire(n: nat, now: Time) returns (granted: bool, wait: real)
      requires Valid(State()) && updated <= now
      modifies this`tokens, this`updated
      ensures State() == Apply(old(State()), Take(n, now))
      ensures Valid(State())
      ensures granted <==> Refilled(old(State()), now).tokens >= n as real
      ensures !granted && n as real <= capacity && EffectiveRate(State(), now) >= 0.000000001 ==>
        wait > 0.0 && Granted(State(), Take(n, now + wait)) == n as real
    {
      assert Valid(Refilled(State(), now)) by { EarnsAtMostRate(State(), now); }
      Refill(now);
      wait := 0.0;
      granted := tokens >= n as real;
      if granted {
        tokens := tokens - n as real;
      } else {
        wait := SleepTime(n, now);
        if n as real <= capacity && EffectiveRate(State(), now) >= 0.000000001 {
          WaitIsEnough(State(), n, now);
        }
      }
    }
  }
}
