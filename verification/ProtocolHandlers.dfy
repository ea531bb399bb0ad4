/** Where every recorded result and every delay comes from. */
module ProtocolHandlers {
  import opened Tables
  import opened Protocol
  import opened ProtocolInv
  import opened ProtocolSteps
  import opened ProtocolFrames
  import E = QueueEffects
  import T = ProtocolTheorems
  import Q = QueueSpec

  /** The step is one of the claim's own. */
  predicate By(s: Step, t: Token) {
    (s.ClaimRow? || s.Open? || s.ReadCache? || s.TryLock? || s.ReadCacheLocked? || s.Unlock? || s.PipelineReturns? ||
     s.AccountError? || s.Finish? || s.GiveBack? || s.Fail? || s.Crash?) && s.token == t
  }

  ghost predicate SamePhase(w: World, w': World, t: Token) {
    t in w.handlers && t in w'.handlers && w'.handlers[t] == w.handlers[t]
  }

  lemma OthersLeave(w: World, s: Step, t: Token)
    requires Enabled(w, s) && !By(s, t) && t in Next(w, s).handlers
    ensures SamePhase(w, Next(w, s), t)
  {
    StepKinds(s);
    if HandlerStep(s) {
      HandlersMove(w, s, t);
    } else if LockStep(s) {
      LockFrame(w, s);
    } else if OneRow(s) {
      OneRowHandlers(w, s, t);
    } else if JobStep(s) {
      JobStepOnlyJobs(w, s);
    } else if ManyRows(s) {
      ManyRowsFrame(w, s);
    }
  }

  lemma HandlersMove(w: World, s: Step, t: Token)
    requires Enabled(w, s) && HandlerStep(s) && s.token != t && t in Next(w, s).handlers
    ensures SamePhase(w, Next(w, s), t)
  {
  }

  lemma OneRowHandlers(w: World, s: Step, t: Token)
    requires Enabled(w, s) && OneRow(s) && s.token != t && t in Next(w, s).handlers
    ensures SamePhase(w, Next(w, s), t)
  {
  }

  /** The claim's last own step, which put it where it stands. */
  lemma {:induction false} LastMove(ws: seq<World>, ss: seq<Step>, n: nat, t: Token) returns (m: nat)
    requires Run(ws, ss) && n < |ws| && t in ws[n].handlers
    ensures m < n && By(ss[m], t) && t in ws[m + 1].handlers && ws[m + 1].handlers[t] == ws[n].handlers[t]
  {
    assert StepAt(ws, ss, n - 1);
    if By(ss[n - 1], t) {
      m := n - 1;
    } else {
      OthersLeave(ws[n - 1], ss[n - 1], t);
      m := LastMove(ws, ss, n - 1, t);
    }
  }

  // ---- results ----------------------------------------------------------------------------------------

  /** The claim may reuse what the cache holds for its domain, and that is `r`, finished at `at`. */
  ghost predicate Reads(w: World, t: Token, r: DomainResult, at: Time) {
    && At(w, t) && var c := w.claims[t];
    && c.key.domain in w.db.domains && var e := w.db.domains[c.key.domain];
    && e.result == Some(r) && e.finishedAt == Some(at) && E.Usable(w.db.jobs[c.key.job], e, c.notBefore, w.now)
  }

  lemma ReadableReads(w: World, t: Token, readable: bool)
    requires At(w, t) && Readable(w, t, readable)
    ensures var e := Q.Entry(w.db, w.claims[t].key.domain);
      readable && e.result.Some? && e.finishedAt.Some? && Reads(w, t, e.result.value, e.finishedAt.value)
  {
    var c := w.claims[t];
    E.CacheUsableExactlyIf(w.db.jobs[c.key.job], Q.Entry(w.db, c.key.domain), c.notBefore, w.now);
  }

  lemma ReadableExactlyIf(w: World, t: Token, readable: bool)
    requires At(w, t)
    ensures Readable(w, t, readable) <==> readable && exists r, at :: Reads(w, t, r, at)
  {
    var c := w.claims[t];
    E.CacheUsableExactlyIf(w.db.jobs[c.key.job], Q.Entry(w.db, c.key.domain), c.notBefore, w.now);
    if Readable(w, t, readable) {
      ReadableReads(w, t, readable);
    }
  }

  /**
   A usable result that can be read is always reused. Without one a claim past all attempts gives up before it asks
   for the lock; any other asks for it, and fetches only if there is none with the lock in hand either.
   */
  lemma ReadDecides(ws: seq<World>, ss: seq<Step>, i: nat, t: Token)
    requires Run(ws, ss) && i < |ss| && (ss[i].ReadCache? || ss[i].ReadCacheLocked?) && ss[i].token == t
    ensures t in ws[i].claims && t in ws[i + 1].handlers && ws[i + 1].db == ws[i].db
    ensures var p, usable := ws[i + 1].handlers[t], ss[i].readable && exists r, at :: Reads(ws[i], t, r, at);
      if ss[i].ReadCacheLocked? then p.HoldingHit? == usable && p.Fetching? == !usable
      else && p.Hit? == usable
           && p.TooMany? == (!usable && ws[i].claims[t].attempts > 5)
           && p.Missed? == (!usable && ws[i].claims[t].attempts <= 5)
  {
    assert StepAt(ws, ss, i);
    ReadableExactlyIf(ws[i], t, ss[i].readable);
  }

  ghost predicate FetchedBy(w: World, s: Step, t: Token, r: DomainResult) {
    s == PipelineReturns(t, r) && t in w.claims && (r.errorReason == Some(CircuitOpen) ==> w.claims[t].attempts >= 3)
  }

  ghost predicate ReadBy(w: World, s: Step, t: Token, r: DomainResult, at: Time) {
    (s == ReadCache(t, true) || s == ReadCacheLocked(t, true)) && Reads(w, t, r, at)
  }

  ghost predicate GivenUpBy(w: World, s: Step, t: Token) {
    s.ReadCache? && s.token == t && t in w.claims && w.claims[t].attempts > 5
  }

  lemma FetchedStep(w: World, s: Step, t: Token)
    requires Enabled(w, s) && By(s, t) && t in Next(w, s).handlers && Next(w, s).handlers[t].Fetched?
    ensures FetchedBy(w, s, t, Next(w, s).handlers[t].result)
  {
  }

  lemma TooManyStep(w: World, s: Step, t: Token)
    requires Enabled(w, s) && By(s, t) && t in Next(w, s).handlers && Next(w, s).handlers[t].TooMany?
    ensures GivenUpBy(w, s, t)
  {
  }

  /** A cached result was just read, or had been and the lock is now dropped. */
  lemma HitStep(w: World, s: Step, t: Token)
    requires Enabled(w, s) && By(s, t) && t in Next(w, s).handlers
    requires Next(w, s).handlers[t].Hit? || Next(w, s).handlers[t].HoldingHit?
    ensures var p := Next(w, s).handlers[t];
      || ReadBy(w, s, t, p.hit, p.entryAt)
      || (&& t in w.handlers && w.handlers[t].HoldingHit?
          && w.handlers[t].hit == p.hit && w.handlers[t].entryAt == p.entryAt)
  {
    if s.ReadCache? || s.ReadCacheLocked? {
      ReadableReads(w, t, s.readable);
    }
  }

  lemma {:induction false} HitFrom(ws: seq<World>, ss: seq<Step>, n: nat, t: Token) returns (m: nat)
    requires Run(ws, ss) && n < |ws| && t in ws[n].handlers
    requires ws[n].handlers[t].Hit? || ws[n].handlers[t].HoldingHit?
    ensures m < n && ReadBy(ws[m], ss[m], t, ws[n].handlers[t].hit, ws[n].handlers[t].entryAt)
  {
    m := LastMove(ws, ss, n, t);
    assert StepAt(ws, ss, m);
    HitStep(ws[m], ss[m], t);
    if !ReadBy(ws[m], ss[m], t, ws[n].handlers[t].hit, ws[n].handlers[t].entryAt) {
      m := HitFrom(ws, ss, m, t);
    }
  }

  /** What the claim came to record, and how: from the cache, from its pipeline, or because it is past all attempts. */
  ghost predicate Source(w: World, s: Step, t: Token, r: DomainResult, fromCache: bool) {
    || (fromCache && exists at :: ReadBy(w, s, t, r, at))
    || (!fromCache && FetchedBy(w, s, t, r))
    || (&& !fromCache && GivenUpBy(w, s, t)
        && r == DomainResult(FetchFailed, Some(InternalError), Some(TooManyAttempts), 0, ""))
  }

  lemma OutcomeFrom(ws: seq<World>, ss: seq<Step>, n: nat, t: Token) returns (m: nat)
    requires Run(ws, ss) && n < |ws| && At(ws[n], t)
    requires ws[n].handlers[t].Hit? || ws[n].handlers[t].TooMany? || ws[n].handlers[t].Fetched?
    ensures m < n && Source(ws[m], ss[m], t, Outcome(ws[n].handlers[t]), ws[n].handlers[t].Hit?)
    ensures ws[n].handlers[t].Fetched? <==> FetchedBy(ws[m], ss[m], t, Outcome(ws[n].handlers[t]))
  {
    if ws[n].handlers[t].Hit? {
      m := HitFrom(ws, ss, n, t);
    } else {
      m := LastMove(ws, ss, n, t);
      assert StepAt(ws, ss, m);
      if ws[n].handlers[t].Fetched? {
        FetchedStep(ws[m], ss[m], t);
      } else {
        TooManyStep(ws[m], ss[m], t);
      }
    }
  }

  /**
   Whatever a claim records, it read from the shared cache when it was usable, or had from its own pipeline, or gave
   up after too many claims; a provider's outage is recorded at the third attempt at the earliest. Only what the
   pipeline returned goes into the cache.
   */
  lemma RecordedFrom(ws: seq<World>, ss: seq<Step>, n: nat, t: Token) returns (m: nat)
    requires Run(ws, ss) && n < |ss| && ss[n].Finish? && ss[n].token == t
    requires t in ws[n].claims && Q.Owns(ws[n].db, ws[n].claims[t].key, t)
    ensures m < n
    ensures var k, db' := ws[n].claims[t].key, ws[n + 1].db;
      && k in db'.rows && db'.rows[k].state == RowDone && db'.rows[k].finishedAt == Some(ss[n].since)
      && db'.rows[k].result.Some? && var r := db'.rows[k].result.value;
      && Source(ws[m], ss[m], t, r, db'.rows[k].fromCache)
      && (k.domain in ws[n].db.domains ==> k.domain in db'.domains && var e, e' := ws[n].db.domains[k.domain],
            db'.domains[k.domain];
          if FetchedBy(ws[m], ss[m], t, r) then e'.result == Some(r) && e'.finishedAt == Some(ss[n].since)
          else e'.result == e.result && e'.finishedAt == e.finishedAt)
  {
    assert StepAt(ws, ss, n);
    m := OutcomeFrom(ws, ss, n, t);
    var w, p, k := ws[n], ws[n].handlers[t], ws[n].claims[t].key;
    assert ws[n + 1] == DoFinish(w, t, ss[n].since);
    E.FinishRows(w.db, k, t, Outcome(p), p.Hit?, !p.TooMany?, ss[n].since);
    E.FinishDomains(w.db, k, t, Outcome(p), p.Hit?, !p.TooMany?, ss[n].since);
  }

  // ---- delays -----------------------------------------------------------------------------------------

  ghost predicate LockedOut(w: World, t: Token) {
    At(w, t) && w.handlers[t].Missed? && !E.Free(w.db, w.claims[t].key.domain, w.handlers[t].since)
  }

  /** Why a claim gives its row back, for how long, and whether the attempt counts. */
  ghost predicate Excuse(w: World, s: Step, t: Token, delay: Time, counted: bool) {
    || (s == TryLock(t) && LockedOut(w, t) && delay == 10.0 && !counted)
    || (s == AccountError(t) && delay == 0.0 && !counted)
    || (s == Fail(t) && delay == 30.0 && counted)
    || (&& s.PipelineReturns? && s.token == t && s.result.errorReason == Some(CircuitOpen)
        && t in w.claims && w.claims[t].attempts < 3 && delay == 600.0 && counted)
  }

  lemma ExcuseStep(w: World, s: Step, t: Token)
    requires Enabled(w, s) && By(s, t) && t in Next(w, s).handlers && Next(w, s).handlers[t].GivingBack?
    ensures var p := Next(w, s).handlers[t];
      || Excuse(w, s, t, p.delay, p.counted)
      || (t in w.handlers && w.handlers[t].GivingBack? && w.handlers[t].delay == p.delay &&
          w.handlers[t].counted == p.counted)
  {
    if s.TryLock? {
      E.LockEffect(w.db, w.claims[t].key.domain, t, w.handlers[t].since);
    }
  }

  lemma {:induction false} ExcuseFrom(ws: seq<World>, ss: seq<Step>, n: nat, t: Token) returns (m: nat)
    requires Run(ws, ss) && n < |ws| && t in ws[n].handlers && ws[n].handlers[t].GivingBack?
    ensures m < n && Excuse(ws[m], ss[m], t, ws[n].handlers[t].delay, ws[n].handlers[t].counted)
  {
    m := LastMove(ws, ss, n, t);
    assert StepAt(ws, ss, m);
    ExcuseStep(ws[m], ss[m], t);
    if !Excuse(ws[m], ss[m], t, ws[n].handlers[t].delay, ws[n].handlers[t].counted) {
      m := ExcuseFrom(ws, ss, m, t);
    }
  }

  /**
   A row a claim gives back waits 10 s for a domain another job works on, not at all after a problem with the
   account, 30 s after an error, or 600 s for a provider that is down; only the last two cost it an attempt.
   */
  lemma GivenBackFor(ws: seq<World>, ss: seq<Step>, n: nat, t: Token) returns (m: nat, delay: Time, counted: bool)
    requires Run(ws, ss) && n < |ss| && ss[n].GiveBack? && ss[n].token == t
    requires t in ws[n].claims && Q.Owns(ws[n].db, ws[n].claims[t].key, t)
    ensures m < n && Excuse(ws[m], ss[m], t, delay, counted)
    ensures var k, db' := ws[n].claims[t].key, ws[n + 1].db;
      var r := ws[n].db.rows[k];
      k in db'.rows && db'.rows[k] == r.(state := RowQueued, claimedBy := None, heartbeatAt := None,
        availableAt := ss[n].since + delay, attempts := if counted then r.attempts else r.attempts - 1)
  {
    assert StepAt(ws, ss, n);
    m := ExcuseFrom(ws, ss, n, t);
    var p, k := ws[n].handlers[t], ws[n].claims[t].key;
    delay, counted := p.delay, p.counted;
    assert ws[n + 1] == DoGiveBack(ws[n], t, ss[n].since);
    E.RequeueEffect(ws[n].db, k, t, delay, counted, ss[n].since);
  }
}
