/** The token bucket every process shares: a script over one stored pair, run with the caller's own clock. */
module SharedBucket {
  import opened Tables
  import opened RateLimit

  datatype Stored = Stored(t: real, ts: Time)

  /** One run of the script; `factor` is the penalty in force, 1 when there is none. */
  datatype Call = Call(now: Time, n: nat, factor: real)

  function Loaded(s: Option<Stored>, capacity: real, now: Time): Stored {
    if s.Some? then s.value else Stored(capacity, now)
  }

  function Slowed(rate: real, factor: real): real {
    rate * factor
  }

  function Gain(elapsed: real, rate: real): real {
    elapsed * rate
  }

  /** A clock that is not ahead of the stored one earns nothing and moves nothing. */
  function Topped(s: Stored, rate: real, capacity: real, c: Call): Stored {
    if c.now > s.ts then Stored(Min(capacity, s.t + Gain(c.now - s.ts, Slowed(rate, c.factor))), c.now) else s
  }

  function Ready(s: Option<Stored>, rate: real, capacity: real, c: Call): Stored {
    Topped(Loaded(s, capacity, c.now), rate, capacity, c)
  }

  function Taken(s: Option<Stored>, rate: real, capacity: real, c: Call): real {
    if Ready(s, rate, capacity, c).t >= c.n as real then c.n as real else 0.0
  }

  function After(s: Option<Stored>, rate: real, capacity: real, c: Call): Stored {
    Ready(s, rate, capacity, c).(t := Ready(s, rate, capacity, c).t - Taken(s, rate, capacity, c))
  }

  ghost predicate Valid(s: Stored, capacity: real) {
    0.0 <= s.t <= capacity
  }

  class RedisBucket {
    var stored: Option<Stored>

    /** The script. Returns 0 when the tokens were taken, else the seconds to wait. */
    method Run(rate: real, capacity: real, c: Call) returns (wait: real)
      requires rate > 0.0 && c.factor > 0.0
      modifies this
      ensures stored == Some(After(old(stored), rate, capacity, c))
      ensures wait <= 0.0 <==> Ready(old(stored), rate, capacity, c).t >= c.n as real
      ensures wait > 0.0 ==> Gain(wait, Slowed(rate, c.factor)) == c.n as real - Ready(old(stored), rate, capacity, c).t
    {
      var r := Slowed(rate, c.factor);
      assert r > 0.0 by { Positive(rate, c.factor); }
      var t, ts := capacity, c.now;
      if stored.Some? {
        t, ts := stored.value.t, stored.value.ts;
      }
      if c.now > ts {
        t := t + Gain(c.now - ts, r);
        if t > capacity {
          t := capacity;
        }
        ts := c.now;
      }
      assert Stored(t, ts) == Ready(old(stored), rate, capacity, c);
      wait := 0.0;
      if t >= c.n as real {
        t := t - c.n as real;
      } else {
        assert (c.n as real - t) / r > 0.0 by { Quotient(c.n as real - t, r); }
        wait := (c.n as real - t) / r;
      }
      stored := Some(Stored(t, ts));
    }
  }

  // ---- one call, in the stored pair's own fields --------------------------------------------------------

  /** A new bucket is full. A clock ahead of the stored one brings tokens in, up to the capacity, and is stored. */
  lemma ReadyIs(s: Stored, rate: real, capacity: real, c: Call)
    ensures Ready(None, rate, capacity, c) == Stored(capacity, c.now)
    ensures c.now <= s.ts ==> Ready(Some(s), rate, capacity, c) == s
    ensures var earned := s.t + (c.now - s.ts) * (rate * c.factor);
      c.now > s.ts ==> Ready(Some(s), rate, capacity, c) == Stored(Min(capacity, earned), c.now)
  {
  }

  /** What is then there is taken if it is enough. */
  lemma CallIs(s: Option<Stored>, rate: real, capacity: real, c: Call)
    ensures var r := Ready(s, rate, capacity, c);
      && Taken(s, rate, capacity, c) == (if r.t >= c.n as real then c.n as real else 0.0)
      && After(s, rate, capacity, c) == r.(t := if r.t >= c.n as real then r.t - c.n as real else r.t)
  {
  }

  /** Whoever waits as long as told, on a clock not behind the stored one, is served unless another came between. */
  lemma RetrySucceeds(s: Option<Stored>, rate: real, capacity: real, c: Call, wait: real)
    requires c.n as real <= capacity && (s.Some? ==> s.value.ts <= c.now)
    requires wait > 0.0 && Gain(wait, Slowed(rate, c.factor)) == c.n as real - Ready(s, rate, capacity, c).t > 0.0
    ensures Taken(Some(After(s, rate, capacity, c)), rate, capacity, c.(now := c.now + wait)) == c.n as real
  {
    var r := After(s, rate, capacity, c);
    assert r.ts == c.now && r.t == Ready(s, rate, capacity, c).t;
    assert c.now + wait - r.ts == wait;
  }

  // ---- any number of processes, any clocks -----------------------------------------------------------

  ghost predicate CallAt(ss: seq<Stored>, calls: seq<Call>, gs: seq<real>, rate: real, capacity: real, i: nat)
    requires |ss| == |calls| + 1 && |gs| == |calls| && i < |calls|
  {
    && 0.0 <= calls[i].factor <= 1.0
    && ss[i + 1] == After(Some(ss[i]), rate, capacity, calls[i])
    && gs[i] == Taken(Some(ss[i]), rate, capacity, calls[i])
  }

  /** Calls in the order Redis runs them, on clocks that may disagree and run backward. */
  ghost predicate Calls(ss: seq<Stored>, calls: seq<Call>, gs: seq<real>, rate: real, capacity: real) {
    && |ss| == |calls| + 1 && |gs| == |calls| && rate >= 0.0 && Valid(ss[0], capacity)
    && forall i | 0 <= i < |calls| :: CallAt(ss, calls, gs, rate, capacity, i)
  }

  ghost predicate Turn(s: Stored, g: real, s': Stored, now: Time, capacity: real, earned: Time -> real) {
    && Valid(s', capacity) && s.ts <= s'.ts && (s'.ts == s.ts || s'.ts == now)
    && g + s'.t <= s.t + earned(s'.ts) - earned(s.ts)
  }

  lemma ToppedEarns(s: Stored, c: Call, rate: real, capacity: real)
    requires Valid(s, capacity) && rate >= 0.0 && 0.0 <= c.factor <= 1.0 && c.now > s.ts
    ensures var r := Ready(Some(s), rate, capacity, c);
      r.ts == c.now && Valid(r, capacity) && r.t <= s.t + (c.now - s.ts) * rate
  {
    SlowedBounds(rate, c.factor);
    GainBounds(c.now - s.ts, Slowed(rate, c.factor), rate);
    MinBounds(capacity, s.t, Gain(c.now - s.ts, Slowed(rate, c.factor)), (c.now - s.ts) * rate);
  }

  lemma SlowedBounds(rate: real, factor: real)
    requires rate >= 0.0 && 0.0 <= factor <= 1.0
    ensures 0.0 <= Slowed(rate, factor) <= rate
  {
    assert rate * factor <= rate * 1.0;
  }

  lemma GainBounds(dt: real, r: real, rate: real)
    requires dt >= 0.0 && 0.0 <= r <= rate
    ensures 0.0 <= Gain(dt, r) <= dt * rate
  {
    assert dt * r <= dt * rate;
  }

  lemma MinBounds(capacity: real, t: real, gain: real, allowed: real)
    requires 0.0 <= t <= capacity && 0.0 <= gain <= allowed
    ensures 0.0 <= Min(capacity, t + gain) <= capacity && Min(capacity, t + gain) <= t + allowed
  {
  }

  lemma ReadyEarns(s: Stored, c: Call, rate: real, capacity: real, earned: Time -> real)
    requires Valid(s, capacity) && rate >= 0.0 && 0.0 <= c.factor <= 1.0 && Credit(earned, rate)
    ensures var r := Ready(Some(s), rate, capacity, c);
      Valid(r, capacity) && s.ts <= r.ts && (r.ts == s.ts || r.ts == c.now) && r.t <= s.t + earned(r.ts) - earned(s.ts)
  {
    if c.now > s.ts {
      ToppedEarns(s, c, rate, capacity);
      Difference(earned, rate, s.ts, c.now);
    }
  }

  lemma CallTurns(s: Stored, c: Call, rate: real, capacity: real, earned: Time -> real)
    requires Valid(s, capacity) && rate >= 0.0 && 0.0 <= c.factor <= 1.0 && Credit(earned, rate)
    ensures Turn(s, Taken(Some(s), rate, capacity, c), After(Some(s), rate, capacity, c), c.now, capacity, earned)
  {
    ReadyEarns(s, c, rate, capacity, earned);
  }

  lemma {:induction false} CreditBound(ss: seq<Stored>, calls: seq<Call>, gs: seq<real>, rate: real, capacity: real,
      earned: Time -> real, n: nat)
    requires Calls(ss, calls, gs, rate, capacity) && n <= |calls| && Credit(earned, rate)
    ensures Valid(ss[n], capacity)
    ensures ss[0].ts <= ss[n].ts
    ensures Sum(gs, n) + ss[n].t <= ss[0].t + earned(ss[n].ts) - earned(ss[0].ts)
  {
    if n > 0 {
      CreditBound(ss, calls, gs, rate, capacity, earned, n - 1);
      assert CallAt(ss, calls, gs, rate, capacity, n - 1);
      CallTurns(ss[n - 1], calls[n - 1], rate, capacity, earned);
    }
  }

  /** All processes together get at most the capacity plus the rate times the advance of the stored clock. */
  lemma GrantedAcrossProcesses(ss: seq<Stored>, calls: seq<Call>, gs: seq<real>, rate: real, capacity: real)
    requires Calls(ss, calls, gs, rate, capacity)
    ensures Sum(gs, |calls|) <= capacity + (ss[|calls|].ts - ss[0].ts) * rate
  {
    var earned, n := FullRate(rate), |calls|;
    FullRateEarns(rate);
    CreditBound(ss, calls, gs, rate, capacity, earned, n);
    Difference(earned, rate, ss[0].ts, ss[n].ts);
  }

  /** ... and the stored clock never runs ahead of the furthest clock any caller passed. */
  lemma {:induction false} StampIsACallersClock(ss: seq<Stored>, calls: seq<Call>, gs: seq<real>, rate: real,
      capacity: real, n: nat)
    requires Calls(ss, calls, gs, rate, capacity) && n <= |calls|
    ensures ss[n].ts == ss[0].ts || exists i | 0 <= i < n :: ss[n].ts == calls[i].now
    ensures forall i | 0 <= i < n :: calls[i].now <= ss[n].ts
  {
    if n > 0 {
      StampIsACallersClock(ss, calls, gs, rate, capacity, n - 1);
      assert CallAt(ss, calls, gs, rate, capacity, n - 1);
    }
  }
}
