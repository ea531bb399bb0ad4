/** What comes back after crashes, and what can still finish. */
module ProtocolProgress {
  import opened Tables
  import opened Protocol
  import opened ProtocolInv
  import opened ProtocolProof
  import F = FairShare
  import T = ProtocolTheorems
  import Q = QueueSpec

  // ---- the reaper ---------------------------------------------------------------------------------

  /** After a reap nothing runs on a heartbeat older than the lease, counted from the reap's start. */
  lemma NothingSilentAfterReap(ws: seq<World>, ss: seq<Step>, i: nat, k: RowKey)
    requires Run(ws, ss) && i < |ss| && ss[i].Reap? && k in ws[i + 1].db.rows
    ensures var r := ws[i + 1].db.rows[k];
      r.state == RowRunning ==> r.heartbeatAt.Some? && r.heartbeatAt.value >= ss[i].since - LEASE_S
  {
    assert StepAt(ws, ss, i);
    RunKeeps(ws, ss, i);
    assert RowOk(ws[i], k);
  }

  /** What it takes back may be claimed at once by anybody, with the attempts it had; nothing else changes. */
  lemma ReapedRowIsClaimable(ws: seq<World>, ss: seq<Step>, i: nat, k: RowKey, u: Token, since: Time)
    requires Run(ws, ss) && i < |ss| && ss[i].Reap? && k in ws[i].db.rows
    requires u !in ws[i].claims && ss[i].since <= since <= ws[i].now
    ensures k in ws[i + 1].db.rows
    ensures var r, r' := ws[i].db.rows[k], ws[i + 1].db.rows[k];
      if r.state == RowRunning && r.heartbeatAt.Some? && r.heartbeatAt.value < ss[i].since - LEASE_S
      then && r' == r.(state := RowQueued, claimedBy := None, heartbeatAt := None, availableAt := ss[i].since)
           && Enabled(ws[i + 1], ClaimRow(k, u, since))
      else r' == r
  {
    assert StepAt(ws, ss, i);
    RunKeeps(ws, ss, i);
    assert RowOk(ws[i], k);
  }

  /** Nobody speaks for the claim any more from step `i` on. */
  ghost predicate Deserted(ss: seq<Step>, i: nat, t: Token) {
    forall j | i <= j < |ss| :: !T.Beats(ss[j], t)
  }

  /**
   A crash costs no more than the lease: the first reap begun later than that has the row back, unless it was
   taken back, or recorded, before.
   */
  lemma CrashedRowComesBack(ws: seq<World>, ss: seq<Step>, i: nat, n: nat, k: RowKey, t: Token)
    requires Run(ws, ss) && i < n < |ss| && ss[i] == Crash(t) && Deserted(ss, i, t)
    requires ss[n].Reap? && ss[n].since - LEASE_S > ws[i].now
    ensures !Q.Owns(ws[n + 1].db, k, t)
  {
    assert StepAt(ws, ss, i);
    assert StepAt(ws, ss, n);
    if Q.Owns(ws[n + 1].db, k, t) {
      var j := T.BeatSource(ws, ss, n, k, t);
      assert StepAt(ws, ss, j);
      if i <= j {
        T.ClaimsGrow(ws, ss, i, j, t);
      } else {
        T.ClockAdvances(ws, ss, j, i);
      }
      assert false;
    }
  }

  // ---- the other bulk operations ----------------------------------------------------------------------

  /** Once the active jobs are paused, no fair claim is possible until one is resumed, created or retried. */
  lemma NothingClaimedAfterPause(ws: seq<World>, ss: seq<Step>, i: nat, db': Db, k: RowKey, t: Token, now: Time)
    requires Run(ws, ss) && i < |ss| && ss[i].PauseActive?
    ensures !F.FairClaim(ws[i + 1].db, db', k, t, now)
  {
    assert StepAt(ws, ss, i);
  }

  /** A sweep leaves no job active that has nothing open. */
  lemma NothingOverAfterSweep(ws: seq<World>, ss: seq<Step>, i: nat, j: JobId)
    requires Run(ws, ss) && i < |ss| && ss[i].Sweep? && j in ws[i + 1].db.jobs
    requires ws[i + 1].db.jobs[j].status == Queued || ws[i + 1].db.jobs[j].status == Running
    ensures exists k | k in ws[i + 1].db.rows :: k.job == j && ws[i + 1].db.rows[k].state != RowDone
  {
    assert StepAt(ws, ss, i);
    var k :| k in ws[i].db.rows && k.job == j && Q.Open(ws[i].db.rows[k]);
    assert ws[i + 1].db.rows[k].state != RowDone;
  }

  /** A worker released has no row and no lock any more. */
  lemma NothingHeldAfterRelease(ws: seq<World>, ss: seq<Step>, i: nat, t: Token, k: RowKey)
    requires Run(ws, ss) && i < |ss| && ss[i].ReleaseWorker? && t.worker == ss[i].worker
    ensures var db := ws[i + 1].db;
      && (k in db.rows ==> db.rows[k].claimedBy != Some(t))
      && (k.domain in db.domains ==> db.domains[k.domain].lockOwner != Some(t))
  {
    assert StepAt(ws, ss, i);
    RunKeeps(ws, ss, i);
    if k in ws[i].db.rows {
      assert RowOk(ws[i], k);
    }
  }

  // ---- reaching -----------------------------------------------------------------------------------

  /** Steps that follow one another from `ws[0]`. */
  ghost predicate Path(ws: seq<World>, ss: seq<Step>) {
    |ws| == |ss| + 1 && forall i | 0 <= i < |ss| :: StepAt(ws, ss, i)
  }

  ghost predicate Reaches(w: World, w': World) {
    exists ws, ss :: Path(ws, ss) && ws[0] == w && ws[|ss|] == w'
  }

  lemma Stay(w: World)
    ensures Reaches(w, w)
  {
    assert Path([w], []);
  }

  lemma Step(w: World, s: Step)
    requires Enabled(w, s) && Inv(w)
    ensures Reaches(w, Next(w, s)) && Inv(Next(w, s))
  {
    assert StepAt([w, Next(w, s)], [s], 0);
    assert Path([w, Next(w, s)], [s]);
    StepKeeps(w, s);
  }

  lemma Then(u: World, v: World, w: World)
    requires Reaches(u, v) && Reaches(v, w)
    ensures Reaches(u, w)
  {
    var us, ss :| Path(us, ss) && us[0] == u && us[|ss|] == v;
    var vs, rs :| Path(vs, rs) && vs[0] == v && vs[|rs|] == w;
    var ws, qs := us + vs[1..], ss + rs;
    forall i | 0 <= i < |qs| ensures StepAt(ws, qs, i) {
      if i < |ss| {
        assert StepAt(us, ss, i);
      } else {
        assert StepAt(vs, rs, i - |ss|);
      }
    }
    assert Path(ws, qs);
  }

  /** A run that goes on: what the last world of a run reaches, a longer run ends in. */
  lemma ReachedByRun(ws: seq<World>, ss: seq<Step>, w: World) returns (ws': seq<World>, ss': seq<Step>)
    requires Run(ws, ss) && Reaches(ws[|ss|], w)
    ensures Run(ws', ss') && ws <= ws' && ss <= ss' && ws'[|ss'|] == w
  {
    var vs, rs :| Path(vs, rs) && vs[0] == ws[|ss|] && vs[|rs|] == w;
    ws', ss' := ws + vs[1..], ss + rs;
    forall i | 0 <= i < |ss'| ensures StepAt(ws', ss', i) {
      if i < |ss| {
        assert StepAt(ws, ss, i);
      } else {
        assert StepAt(vs, rs, i - |ss|);
      }
    }
  }

  // ---- what a row's way to its end leaves alone --------------------------------------------------------

  /** No row comes or goes, no recorded row opens, and no job leaves the running or done ones. */
  ghost predicate Keeps(w: World, w': World) {
    && w'.db.rows.Keys == w.db.rows.Keys
    && (forall k | k in w.db.rows && w.db.rows[k].state == RowDone :: w'.db.rows[k].state == RowDone)
    && (forall j | j in w.db.jobs && InHand(w.db.jobs[j]) :: j in w'.db.jobs && InHand(w'.db.jobs[j]))
  }

  predicate InHand(j: Job) {
    j.status == Queued || j.status == Running || j.status == Done
  }

  /** Wherever the way leads it stays reachable, sound and harmless. */
  ghost predicate On(w: World, w': World) {
    Reaches(w, w') && Inv(w') && Keeps(w, w')
  }

  lemma Go(w: World, v: World, s: Step)
    requires On(w, v) && Enabled(v, s) && Keeps(v, Next(v, s))
    ensures On(w, Next(v, s))
  {
    Step(v, s);
    Then(w, v, Next(v, s));
  }

  lemma Onward(u: World, v: World, w: World)
    requires On(u, v) && On(v, w)
    ensures On(u, w)
  {
    Then(u, v, w);
  }

  // ---- one row ----------------------------------------------------------------------------------------

  predicate Waiting(w: World, k: RowKey) {
    && k in w.db.rows && w.db.rows[k].state == RowQueued && w.db.rows[k].availableAt <= w.now
    && Q.LockFree(Q.Entry(w.db, k.domain), w.now)
  }

  /** Late enough for the row's lease, its domain's lock and any delay to be over. */
  function Later(w: World, k: RowKey): (t: Time)
    requires k in w.db.rows
    ensures t > w.now
  {
    var r, e := w.db.rows[k], Q.Entry(w.db, k.domain);
    var heartbeat, until := Coalesce(r.heartbeatAt, w.now), Coalesce(e.lockUntil, w.now);
    Max(Max(w.now, r.availableAt), Max(heartbeat, until)) + LEASE_S + 1.0
  }

  /** The row is due, or its worker has been silent for longer than the lease; and its domain can be locked. */
  predicate Due(r: Row, e: Domain, now: Time) {
    && (r.state == RowQueued ==> r.availableAt <= now)
    && (r.state == RowRunning ==> Q.Silent(r, now))
    && Q.LockFree(e, now)
  }

  lemma DueLater(w: World, k: RowKey)
    requires Inv(w) && k in w.db.rows
    ensures Due(w.db.rows[k], Q.Entry(w.db, k.domain), Later(w, k))
  {
    assert RowOk(w, k);
    assert k.domain in w.db.domains ==> LockOk(w, k.domain);
  }

  lemma Await(w: World, k: RowKey) returns (v: World)
    requires Inv(w) && k in w.db.rows
    ensures On(w, v) && v.db == w.db && v.claims == w.claims && Due(v.db.rows[k], Q.Entry(v.db, k.domain), v.now)
  {
    Stay(w);
    DueLater(w, k);
    var s := Tick(Later(w, k) - w.now);
    v := Next(w, s);
    assert v == DoTick(w, s.dt);
    Go(w, w, s);
  }

  lemma TakeBack(w: World, k: RowKey) returns (v: World)
    requires Inv(w) && k in w.db.rows && w.db.rows[k].state != RowDone
    requires Due(w.db.rows[k], Q.Entry(w.db, k.domain), w.now)
    ensures On(w, v) && v.claims == w.claims && Waiting(v, k)
  {
    Stay(w);
    v := Next(w, Reap(w.now));
    assert v == w.(db := Q.Reap(w.db, w.now));
    Go(w, w, Reap(w.now));
  }

  /** The claim's handler stands at `p`, and the row is its own. */
  ghost predicate Stands(w: World, k: RowKey, t: Token, p: Phase) {
    At(w, t) && w.handlers[t] == p && w.claims[t].key == k && Q.Owns(w.db, k, t)
  }

  lemma Taking(w: World, k: RowKey, t: Token)
    requires Shape(w) && Waiting(w, k) && t !in w.claims
    ensures Enabled(w, ClaimRow(k, t, w.now))
    ensures var v := DoClaim(w, k, t, w.now);
      Keeps(w, v) && Stands(v, k, t, Claimed) && Q.LockFree(Q.Entry(v.db, k.domain), v.now)
  {
  }

  lemma Take(w: World, k: RowKey, t: Token) returns (v: World)
    requires Inv(w) && Waiting(w, k) && t !in w.claims
    ensures On(w, v) && Stands(v, k, t, Claimed) && Q.LockFree(Q.Entry(v.db, k.domain), v.now)
  {
    Stay(w);
    Taking(w, k, t);
    v := DoClaim(w, k, t, w.now);
    assert v == Next(w, ClaimRow(k, t, w.now));
    Go(w, w, ClaimRow(k, t, w.now));
  }

  lemma Begin(w: World, k: RowKey, t: Token) returns (v: World)
    requires Inv(w) && Stands(w, k, t, Claimed) && Q.LockFree(Q.Entry(w.db, k.domain), w.now)
    ensures On(w, v) && Stands(v, k, t, Opened(v.now)) && Q.LockFree(Q.Entry(v.db, k.domain), v.now)
  {
    Stay(w);
    v := Next(w, Open(t));
    assert v == w.(handlers := w.handlers[t := Opened(w.now)]);
    Go(w, w, Open(t));
  }

  /** Too many claims: nothing is fetched any more. */
  lemma GiveUp(w: World, k: RowKey, t: Token) returns (v: World)
    requires Inv(w) && Stands(w, k, t, Opened(w.now)) && w.claims[t].attempts > MAX_CLAIMS
    ensures On(w, v) && Stands(v, k, t, TooMany(v.now))
  {
    Stay(w);
    v := Next(w, ReadCache(t, false));
    assert v == w.(handlers := w.handlers[t := AfterRead(w, t, false)]);
    Go(w, w, ReadCache(t, false));
  }

  lemma Miss(w: World, k: RowKey, t: Token) returns (v: World)
    requires Inv(w) && Stands(w, k, t, Opened(w.now)) && w.claims[t].attempts <= MAX_CLAIMS
    requires Q.LockFree(Q.Entry(w.db, k.domain), w.now)
    ensures On(w, v) && Stands(v, k, t, Missed(v.now)) && Q.LockFree(Q.Entry(v.db, k.domain), v.now)
  {
    Stay(w);
    v := Next(w, ReadCache(t, false));
    assert v == w.(handlers := w.handlers[t := AfterRead(w, t, false)]);
    Go(w, w, ReadCache(t, false));
  }

  lemma Lock(w: World, k: RowKey, t: Token) returns (v: World)
    requires Inv(w) && Stands(w, k, t, Missed(w.now)) && Q.LockFree(Q.Entry(w.db, k.domain), w.now)
    ensures On(w, v) && Stands(v, k, t, Holding)
  {
    Stay(w);
    v := Next(w, TryLock(t));
    assert v == DoTryLock(w, t);
    Go(w, w, TryLock(t));
  }

  lemma Fetch(w: World, k: RowKey, t: Token, r: DomainResult) returns (v: World)
    requires Inv(w) && Stands(w, k, t, Holding) && r.errorReason != Some(CircuitOpen)
    ensures On(w, v) && Stands(v, k, t, Fetched(r, v.now))
  {
    Stay(w);
    var u := Next(w, ReadCacheLocked(t, false));
    assert u == DoReadLocked(w, t, false);
    Go(w, w, ReadCacheLocked(t, false));
    v := Next(u, PipelineReturns(t, r));
    assert v == u.(handlers := u.handlers[t := AfterPipeline(u.claims[t], r, u.now)]);
    Go(w, u, PipelineReturns(t, r));
  }

  lemma Record(w: World, k: RowKey, t: Token, p: Phase) returns (v: World)
    requires Inv(w) && Stands(w, k, t, p) && (p.TooMany? || p.Fetched?) && p.since == w.now
    ensures On(w, v) && v.db.rows[k].state == RowDone
  {
    Stay(w);
    v := Next(w, Finish(t, w.now));
    assert v == DoFinish(w, t, w.now);
    Go(w, w, Finish(t, w.now));
  }

  lemma Work(w: World, k: RowKey, t: Token, r: DomainResult) returns (v: World)
    requires Inv(w) && Stands(w, k, t, Opened(w.now)) && Q.LockFree(Q.Entry(w.db, k.domain), w.now)
    requires r.errorReason != Some(CircuitOpen)
    ensures On(w, v) && v.db.rows[k].state == RowDone
  {
    if w.claims[t].attempts > MAX_CLAIMS {
      var a := GiveUp(w, k, t);
      v := Record(a, k, t, TooMany(a.now));
      Onward(w, a, v);
    } else {
      var a := Miss(w, k, t);
      var b := Lock(a, k, t);
      var c := Fetch(b, k, t, r);
      v := Record(c, k, t, Fetched(r, c.now));
      Onward(w, a, b);
      Onward(w, b, c);
      Onward(w, c, v);
    }
  }

  /** However its claims crashed or lost their leases, an open row can still be claimed and recorded. */
  lemma RowCanFinish(w: World, k: RowKey, t: Token, r: DomainResult) returns (v: World)
    requires Inv(w) && k in w.db.rows && w.db.rows[k].state != RowDone
    requires t !in w.claims && r.errorReason != Some(CircuitOpen)
    ensures On(w, v) && v.db.rows[k].state == RowDone
  {
    var a := Await(w, k);
    var b := TakeBack(a, k);
    var c := Take(b, k, t);
    var d := Begin(c, k, t);
    v := Work(d, k, t, r);
    Onward(w, a, b);
    Onward(w, b, c);
    Onward(w, c, d);
    Onward(w, d, v);
  }

  // ---- whole jobs -------------------------------------------------------------------------------------

  function OpenRows(w: World, j: JobId): set<RowKey> {
    set k | k in w.db.rows && k.job == j && w.db.rows[k].state != RowDone
  }

  /** A token nobody has used. */
  lemma Unused(ts: set<Token>) returns (t: Token)
    ensures t !in ts
  {
    var n := AboveAll(ts);
    t := Token(0, n);
  }

  lemma {:induction false} AboveAll(ts: set<Token>) returns (n: int)
    ensures forall t | t in ts :: t.nonce < n
    decreases ts
  {
    if ts == {} {
      n := 0;
    } else {
      var t :| t in ts;
      n := AboveAll(ts - {t});
      n := if n > t.nonce then n else t.nonce + 1;
      assert forall u | u in ts :: u == t || u in ts - {t};
    }
  }

  lemma {:induction false} RowsCanFinish(w: World, j: JobId) returns (v: World)
    requires Inv(w)
    ensures On(w, v) && OpenRows(v, j) == {}
    decreases OpenRows(w, j)
  {
    if OpenRows(w, j) == {} {
      Stay(w);
      v := w;
    } else {
      var k :| k in OpenRows(w, j);
      var t := Unused(w.claims.Keys);
      var u := RowCanFinish(w, k, t, DomainResult(NoContactInfo, None, None, 0, ""));
      assert OpenRows(u, j) < OpenRows(w, j);
      v := RowsCanFinish(u, j);
      Onward(w, u, v);
    }
  }

  lemma Unpause(w: World, j: JobId) returns (v: World)
    requires Inv(w) && j in w.db.jobs && w.db.jobs[j].status != Cancelled
    ensures Reaches(w, v) && Inv(v) && j in v.db.jobs && InHand(v.db.jobs[j])
  {
    if w.db.jobs[j].status == Paused {
      Step(w, Resume(j, w.now));
      v := Next(w, Resume(j, w.now));
    } else {
      Stay(w);
      v := w;
    }
  }

  lemma Complete(w: World, j: JobId) returns (v: World)
    requires Inv(w) && j in w.db.jobs && InHand(w.db.jobs[j]) && OpenRows(w, j) == {}
    ensures Reaches(w, v) && j in v.db.jobs && v.db.jobs[j].status == Done && OpenRows(v, j) == {}
  {
    Step(w, Sweep(w.now));
    v := Next(w, Sweep(w.now));
    assert v == w.(db := Q.CompleteFinishedJobs(w.db, w.now), owed := {});
    SweepCompletes(w, j);
  }

  lemma SweepCompletes(w: World, j: JobId)
    requires j in w.db.jobs && InHand(w.db.jobs[j]) && OpenRows(w, j) == {}
    ensures Q.CompleteFinishedJobs(w.db, w.now).jobs[j].status == Done
  {
    assert forall k | k in w.db.rows && k.job == j && w.db.rows[k].state != RowDone :: k in OpenRows(w, j);
  }

  /** Nothing that happens in a run keeps a job that is not cancelled from being completed, every row recorded. */
  lemma EveryJobCanComplete(ws: seq<World>, ss: seq<Step>, j: JobId) returns (ws': seq<World>, ss': seq<Step>)
    requires Run(ws, ss) && j in ws[|ss|].db.jobs && ws[|ss|].db.jobs[j].status != Cancelled
    ensures Run(ws', ss') && ws <= ws' && ss <= ss'
    ensures var db := ws'[|ss'|].db;
      j in db.jobs && db.jobs[j].status == Done && forall k | k in db.rows && k.job == j :: db.rows[k].state == RowDone
  {
    var w := ws[|ss|];
    RunKeeps(ws, ss, |ss|);
    var a := Unpause(w, j);
    var b := RowsCanFinish(a, j);
    var c := Complete(b, j);
    Then(w, a, b);
    Then(w, b, c);
    ws', ss' := ReachedByRun(ws, ss, c);
    assert forall k | k in c.db.rows && k.job == j && c.db.rows[k].state != RowDone :: k in OpenRows(c, j);
  }
}
