/** What the queue promises over whole runs, whatever workers do in whatever order. */
module ProtocolTheorems {
  import opened Tables
  import opened Protocol
  import opened ProtocolInv
  import opened ProtocolMoves
  import opened ProtocolSteps
  import opened ProtocolProof
  import opened ProtocolFrames
  import F = FairShare
  import Q = QueueSpec

  // ---- leases and mutual exclusion ------------------------------------------------------------

  /** The claim owns both its row and the domain lock. */
  ghost predicate OwnsBoth(w: World, t: Token) {
    t in w.claims && Q.Owns(w.db, w.claims[t].key, t) && HoldsLock(w, w.claims[t].(token := t))
  }

  /**
   Whenever a claim owns both its row and the domain lock, the lock outlives the row's lease, but for a renewal
   between the start of the transaction that took the lock and the lock itself; so it is short by no more than that.
   */
  lemma LockOutlivesLease(ws: seq<World>, ss: seq<Step>, i: nat, t: Token)
    requires Run(ws, ss) && i < |ws| && OwnsBoth(ws[i], t)
    ensures t in ws[i].lockings && ws[i].lockings[t].since <= ws[i].lockings[t].at
    ensures var e, r := ws[i].db.domains[ws[i].claims[t].key.domain], ws[i].db.rows[ws[i].claims[t].key];
      var l := ws[i].lockings[t];
      && e.lockUntil.Some? && r.heartbeatAt.Some?
      && (e.lockUntil.value >= r.heartbeatAt.value + LEASE_S || Short(l, e.lockUntil.value, r.heartbeatAt.value))
      && e.lockUntil.value >= r.heartbeatAt.value + LEASE_S - (l.at - l.since)
  {
    RunKeeps(ws, ss, i);
    assert RowOk(ws[i], ws[i].claims[t].key);
    assert LockOk(ws[i], ws[i].claims[t].key.domain);
  }

  /** At every moment it outlives the lease in full exactly if it is not still counted from before the last renewal. */
  lemma LockOutlivesLeaseExactlyIf(ws: seq<World>, ss: seq<Step>, i: nat, t: Token)
    requires Run(ws, ss) && i < |ws| && OwnsBoth(ws[i], t)
    ensures var e, r := ws[i].db.domains[ws[i].claims[t].key.domain], ws[i].db.rows[ws[i].claims[t].key];
      && t in ws[i].lockings && e.lockUntil.Some? && r.heartbeatAt.Some?
      && (e.lockUntil.value >= r.heartbeatAt.value + LEASE_S <==>
          !(e.lockUntil.value == ws[i].lockings[t].since + LEASE_S && r.heartbeatAt.value > ws[i].lockings[t].since))
  {
    LockOutlivesLease(ws, ss, i, t);
  }

  /**
   The claim owns its row and its heartbeat is older than the lease; or it was not renewed since it took its lock, in
   a transaction that began longer ago than the lease.
   */
  ghost predicate Late(w: World, t: Token) {
    && t in w.claims && Q.Owns(w.db, w.claims[t].key, t)
    && w.db.rows[w.claims[t].key].heartbeatAt.Some?
    && var heartbeat := w.db.rows[w.claims[t].key].heartbeatAt.value;
    && (|| heartbeat < w.now - LEASE_S
        || (t in w.lockings && heartbeat <= w.lockings[t].at && w.lockings[t].since < w.now - LEASE_S))
  }

  lemma OverdueIsLate(w: World, t: Token)
    requires Shape(w) && RowsInv(w) && LocksInv(w) && t in w.claims && Overdue(w.db, w.claims[t].key, t, w.now)
    ensures Late(w, t)
  {
    var k := w.claims[t].key;
    assert RowOk(w, k);
    if k.domain in w.db.domains {
      assert LockOk(w, k.domain);
    }
  }

  /** A lock held by `u` can be taken over only if `u` lost its row or is late. */
  lemma LockTakenOnlyFromLate(ws: seq<World>, ss: seq<Step>, i: nat, t: Token, u: Token)
    requires Run(ws, ss) && i < |ss| && ss[i] == TryLock(t) && u != t && t in ws[i].claims
    requires HoldsLock(ws[i], ws[i].claims[t].(token := u))
    requires !HoldsLock(ws[i + 1], ws[i].claims[t].(token := u))
    ensures u in ws[i].claims
    ensures !Q.Owns(ws[i].db, ws[i].claims[u].key, u) || Late(ws[i], u)
  {
    assert StepAt(ws, ss, i);
    RunKeeps(ws, ss, i);
    TakenOnlyIfFree(ws[i], t, u);
    assert LockOk(ws[i], ws[i].claims[t].key.domain);
    PhaseNow(ws[i], t);
    if Q.Owns(ws[i].db, ws[i].claims[u].key, u) {
      OverdueIsLate(ws[i], u);
    }
  }

  lemma TakenOnlyIfFree(w: World, t: Token, u: Token)
    requires At(w, t) && w.handlers[t].Missed? && u != t && HoldsLock(w, w.claims[t].(token := u))
    requires !HoldsLock(DoTryLock(w, t), w.claims[t].(token := u))
    ensures Q.LockFree(w.db.domains[w.claims[t].key.domain], w.handlers[t].since)
  {
  }

  /** At some moment up to `i`, claim `t` was late. */
  ghost predicate WasLate(ws: seq<World>, i: nat, t: Token)
    requires i < |ws|
  {
    exists h | 0 <= h <= i :: Late(ws[h], t)
  }

  lemma LapsedByTick(w: World, dt: Time, t: Token)
    requires Shape(w) && t in DoTick(w, dt).lapsed && t !in w.lapsed
    ensures var w' := DoTick(w, dt); t in w'.claims && Overdue(w'.db, w'.claims[t].key, t, w'.now)
  {
  }

  lemma LapsedByLock(w: World, u: Token, t: Token)
    requires At(w, u) && w.handlers[u].Missed? && t in DoTryLock(w, u).lapsed && t !in w.lapsed
    ensures var w' := DoTryLock(w, u); t in w'.claims && Overdue(w'.db, w'.claims[t].key, t, w'.now)
  {
  }

  lemma LapsedByClaim(w: World, k: RowKey, u: Token, since: Time, t: Token)
    requires CanClaim(w, k, u, since) && t in DoClaim(w, k, u, since).lapsed && t !in w.lapsed
    ensures var w' := DoClaim(w, k, u, since); t in w'.claims && Overdue(w'.db, w'.claims[t].key, t, w'.now)
  {
  }

  lemma LapsedByBeat(w: World, ts: set<Token>, since: Time, t: Token)
    requires t in DoHeartbeat(w, ts, since).lapsed && t !in w.lapsed
    ensures var w' := DoHeartbeat(w, ts, since); t in w'.claims && Overdue(w'.db, w'.claims[t].key, t, w'.now)
  {
  }

  lemma {:induction false} LapsedMeansLate(ws: seq<World>, ss: seq<Step>, i: nat, t: Token)
    requires Run(ws, ss) && i < |ws| && t in ws[i].lapsed
    ensures WasLate(ws, i, t)
  {
    if i > 0 {
      assert StepAt(ws, ss, i - 1);
      if t in ws[i - 1].lapsed {
        LapsedMeansLate(ws, ss, i - 1, t);
        var h :| 0 <= h <= i - 1 && Late(ws[h], t);
        assert 0 <= h <= i;
      } else {
        LapsedJustNow(ws, ss, i, t);
      }
    }
  }

  lemma LapsedJustNow(ws: seq<World>, ss: seq<Step>, i: nat, t: Token)
    requires Run(ws, ss) && 0 < i < |ws| && t in ws[i].lapsed && t !in ws[i - 1].lapsed
    ensures Late(ws[i], t)
  {
    var w, s := ws[i - 1], ss[i - 1];
    assert StepAt(ws, ss, i - 1);
    RunKeeps(ws, ss, i - 1);
    RunKeeps(ws, ss, i);
    if s.Tick? {
      LapsedByTick(w, s.dt, t);
      OverdueIsLate(ws[i], t);
    } else if s.TryLock? {
      LapsedByLock(w, s.token, t);
      OverdueIsLate(ws[i], t);
    } else if s.ClaimRow? {
      LapsedByClaim(w, s.key, s.token, s.since, t);
      OverdueIsLate(ws[i], t);
    } else if s.Heartbeat? {
      LapsedByBeat(w, s.tokens, s.since, t);
      OverdueIsLate(ws[i], t);
    } else {
      LapsedStays(w, s);
    }
  }

  /** Two claims run the pipeline on one domain at once only if one of them was late before. */
  lemma MutualExclusion(ws: seq<World>, ss: seq<Step>, i: nat, t: Token, u: Token)
    requires Run(ws, ss) && i < |ws| && t != u
    requires t in ws[i].handlers && u in ws[i].handlers && ws[i].handlers[t].Fetching? && ws[i].handlers[u].Fetching?
    requires t in ws[i].claims && u in ws[i].claims && ws[i].claims[t].key.domain == ws[i].claims[u].key.domain
    ensures WasLate(ws, i, t) || WasLate(ws, i, u)
  {
    RunKeeps(ws, ss, i);
    var w := ws[i];
    assert HandlerOk(w, t);
    assert HandlerOk(w, u);
    if t in w.lapsed {
      LapsedMeansLate(ws, ss, i, t);
    } else {
      assert u in w.lapsed;
      LapsedMeansLate(ws, ss, i, u);
    }
  }

  // ---- when the lock outlives the lease in full -------------------------------------------------

  ghost predicate SinceIs(p: Phase, since: Time) {
    (p.Opened? || p.Missed?) && p.since == since
  }

  ghost predicate SinceKept(w: World, s: Step, t: Token, since: Time)
    requires Enabled(w, s)
  {
    (t in w.handlers && SinceIs(w.handlers[t], since)) || (s == Open(t) && since == w.now && t in w.claims)
  }

  lemma SinceRead(w: World, s: Step, t: Token, since: Time)
    requires Enabled(w, s) && ReadStep(s) && t in Next(w, s).handlers && SinceIs(Next(w, s).handlers[t], since)
    ensures SinceKept(w, s, t, since)
  {
  }

  lemma SinceError(w: World, s: Step, t: Token, since: Time)
    requires Enabled(w, s) && ErrorStep(s) && t in Next(w, s).handlers && SinceIs(Next(w, s).handlers[t], since)
    ensures SinceKept(w, s, t, since)
  {
  }

  lemma SinceLock(w: World, s: Step, t: Token, since: Time)
    requires Enabled(w, s) && LockStep(s) && t in Next(w, s).handlers && SinceIs(Next(w, s).handlers[t], since)
    ensures SinceKept(w, s, t, since)
  {
  }

  lemma SinceOneRow(w: World, s: Step, t: Token, since: Time)
    requires Enabled(w, s) && OneRow(s) && t in Next(w, s).handlers && SinceIs(Next(w, s).handlers[t], since)
    ensures SinceKept(w, s, t, since)
  {
  }

  lemma SinceFrom(w: World, s: Step, t: Token, since: Time)
    requires Enabled(w, s) && t in Next(w, s).handlers && SinceIs(Next(w, s).handlers[t], since)
    ensures SinceKept(w, s, t, since)
  {
    StepKinds(s);
    if ReadStep(s) {
      SinceRead(w, s, t, since);
    } else if ErrorStep(s) {
      SinceError(w, s, t, since);
    } else if LockStep(s) {
      SinceLock(w, s, t, since);
    } else if OneRow(s) {
      SinceOneRow(w, s, t, since);
    } else if JobStep(s) {
      JobStepOnlyJobs(w, s);
    } else if ManyRows(s) {
      ManyRowsFrame(w, s);
    }
  }

  /** A transaction begins at the moment its handler opens it. */
  lemma {:induction false} OpenedBy(ws: seq<World>, ss: seq<Step>, i: nat, t: Token, since: Time) returns (o: nat)
    requires Run(ws, ss) && i < |ws| && t in ws[i].handlers && SinceIs(ws[i].handlers[t], since)
    ensures o < i && since == ws[o].now && t in ws[o].claims
  {
    assert StepAt(ws, ss, i - 1);
    SinceFrom(ws[i - 1], ss[i - 1], t, since);
    if t in ws[i - 1].handlers && SinceIs(ws[i - 1].handlers[t], since) {
      o := OpenedBy(ws, ss, i - 1, t, since);
    } else {
      o := i - 1;
    }
  }

  lemma {:induction false} ClaimsGrow(ws: seq<World>, ss: seq<Step>, i: nat, n: nat, t: Token)
    requires Run(ws, ss) && i <= n < |ws| && t in ws[i].claims
    ensures t in ws[n].claims && ws[n].claims[t] == ws[i].claims[t]
    decreases n - i
  {
    if i < n {
      ClaimsGrow(ws, ss, i, n - 1, t);
      assert StepAt(ws, ss, n - 1);
      RunKeeps(ws, ss, n - 1);
      ClaimsExtend(ws[n - 1], ss[n - 1]);
    }
  }

  lemma ClaimsExtend(w: World, s: Step)
    requires Inv(w) && Enabled(w, s)
    ensures Extends(w.claims, Next(w, s).claims)
  {
    StepMoves(w, s);
  }

  /** Whatever came before the claim came before its transaction. */
  lemma BeforeClaim(ws: seq<World>, ss: seq<Step>, j: nat, i: nat, t: Token, since: Time)
    requires Run(ws, ss) && j < i < |ws| && t !in ws[j].claims
    requires t in ws[i].handlers && SinceIs(ws[i].handlers[t], since)
    ensures ws[j].now <= since
  {
    var o := OpenedBy(ws, ss, i, t, since);
    if o <= j {
      ClaimsGrow(ws, ss, o, j, t);
    } else {
      ClockAdvances(ws, ss, j, o);
    }
  }

  ghost predicate Beats(s: Step, t: Token) {
    s.Heartbeat? && t in s.tokens
  }

  /** The step stamps row `k`, as claimed by `t`, with its start. */
  ghost predicate Renews(s: Step, k: RowKey, t: Token) {
    (s.ClaimRow? && s.key == k && s.token == t) || Beats(s, t)
  }

  ghost predicate SameRow(w: World, w': World, k: RowKey) {
    k in w.db.rows && k in w'.db.rows && w'.db.rows[k] == w.db.rows[k]
  }

  lemma NoBeatFinish(w: World, u: Token, since: Time, k: RowKey, t: Token)
    requires Shape(w) && CanFinish(w, u, since) && Q.Owns(DoFinish(w, u, since).db, k, t)
    ensures SameRow(w, DoFinish(w, u, since), k)
  {
    FinishRows(w, u, since);
  }

  lemma NoBeatGiveBack(w: World, u: Token, since: Time, k: RowKey, t: Token)
    requires Shape(w) && Enabled(w, GiveBack(u, since)) && Q.Owns(DoGiveBack(w, u, since).db, k, t)
    ensures SameRow(w, DoGiveBack(w, u, since), k)
  {
  }

  lemma NoBeatOneRow(w: World, s: Step, k: RowKey, t: Token)
    requires Shape(w) && Enabled(w, s) && OneRow(s) && !Renews(s, k, t) && Q.Owns(Next(w, s).db, k, t)
    ensures SameRow(w, Next(w, s), k)
  {
    if s.Finish? {
      NoBeatFinish(w, s.token, s.since, k, t);
    } else if s.GiveBack? {
      NoBeatGiveBack(w, s.token, s.since, k, t);
    }
  }

  lemma BeatNamed(w: World, s: Step, k: RowKey, t: Token)
    requires Enabled(w, s) && Q.Owns(Next(w, s).db, k, t) && Renews(s, k, t)
    ensures k in w.db.rows && Next(w, s).db.rows[k].heartbeatAt == Some(s.since) && s.since <= w.now
    ensures s.Heartbeat? && w.db.rows[k].heartbeatAt.Some? ==> w.db.rows[k].heartbeatAt.value <= s.since
  {
  }

  lemma NoBeatGivenBack(w: World, s: Step, k: RowKey, t: Token)
    requires Enabled(w, s) && (s.Reap? || s.ReleaseWorker?) && Q.Owns(Next(w, s).db, k, t)
    ensures SameRow(w, Next(w, s), k)
  {
  }

  lemma NoBeatMade(w: World, s: Step, k: RowKey, t: Token)
    requires Shape(w) && Enabled(w, s) && (s.CreateJob? || s.RequeueFailed?) && Q.Owns(Next(w, s).db, k, t)
    ensures SameRow(w, Next(w, s), k)
  {
    if s.CreateJob? {
      CreateJobRows(w, s.newJob, s.domains, s.isFresh, s.owner, s.since);
    }
  }

  lemma NoBeatOther(w: World, ts: set<Token>, since: Time, k: RowKey, t: Token)
    requires t !in ts && Q.Owns(DoHeartbeat(w, ts, since).db, k, t)
    ensures SameRow(w, DoHeartbeat(w, ts, since), k)
  {
  }

  /** Only its claim and heartbeats that name it move the heartbeat of the row a claim owns. */
  lemma BeatStep(w: World, s: Step, k: RowKey, t: Token)
    requires Shape(w) && Enabled(w, s) && Q.Owns(Next(w, s).db, k, t) && !Renews(s, k, t)
    ensures SameRow(w, Next(w, s), k)
  {
    if OneRow(s) {
      NoBeatOneRow(w, s, k, t);
    } else if s.Heartbeat? {
      NoBeatOther(w, s.tokens, s.since, k, t);
    } else if s.Reap? || s.ReleaseWorker? {
      NoBeatGivenBack(w, s, k, t);
    } else if ManyRows(s) {
      NoBeatMade(w, s, k, t);
    } else {
      RowsStill(w, s);
    }
  }

  lemma {:induction false} BeatSource(ws: seq<World>, ss: seq<Step>, i: nat, k: RowKey, t: Token) returns (j: nat)
    requires Run(ws, ss) && i < |ws| && Q.Owns(ws[i].db, k, t)
    ensures j < i && Renews(ss[j], k, t) && ss[j].since <= ws[j].now
    ensures ws[i].db.rows[k].heartbeatAt == Some(ss[j].since)
  {
    assert StepAt(ws, ss, i - 1);
    RunKeeps(ws, ss, i - 1);
    if Renews(ss[i - 1], k, t) {
      BeatNamed(ws[i - 1], ss[i - 1], k, t);
      j := i - 1;
    } else {
      BeatStep(ws[i - 1], ss[i - 1], k, t);
      j := BeatSource(ws, ss, i - 1, k, t);
    }
  }

  ghost predicate BeatenBy(w: World, k: RowKey, since: Time) {
    k in w.db.rows && w.db.rows[k].heartbeatAt.Some? && w.db.rows[k].heartbeatAt.value >= since
  }

  /** No later step moves a heartbeat back while the claim owns its row. */
  lemma BeatenStays(w: World, s: Step, k: RowKey, t: Token, since: Time)
    requires Shape(w) && Enabled(w, s) && t in w.claims && Q.Owns(Next(w, s).db, k, t)
    requires Q.Owns(w.db, k, t) ==> BeatenBy(w, k, since)
    ensures Q.Owns(w.db, k, t) && BeatenBy(Next(w, s), k, since)
  {
    if Renews(s, k, t) {
      BeatNamed(w, s, k, t);
    } else {
      BeatStep(w, s, k, t);
    }
  }

  lemma ShapeAt(ws: seq<World>, ss: seq<Step>, i: nat)
    requires Run(ws, ss) && i < |ws|
    ensures Shape(ws[i])
  {
    RunKeeps(ws, ss, i);
  }

  lemma BeatNow(ws: seq<World>, ss: seq<Step>, j: nat, k: RowKey, t: Token)
    requires Run(ws, ss) && j < |ss| && Q.Owns(ws[j + 1].db, k, t) && Beats(ss[j], t)
    ensures BeatenBy(ws[j + 1], k, ss[j].since)
  {
    assert StepAt(ws, ss, j);
    BeatNamed(ws[j], ss[j], k, t);
  }

  lemma BeatLater(ws: seq<World>, ss: seq<Step>, i: nat, k: RowKey, t: Token, since: Time)
    requires Run(ws, ss) && i < |ss| && t in ws[i].claims && Q.Owns(ws[i + 1].db, k, t)
    requires Q.Owns(ws[i].db, k, t) ==> BeatenBy(ws[i], k, since)
    ensures BeatenBy(ws[i + 1], k, since)
  {
    assert StepAt(ws, ss, i);
    ShapeAt(ws, ss, i);
    BeatenStays(ws[i], ss[i], k, t, since);
  }

  /** A row's heartbeat is no older than any heartbeat that named its claim. */
  lemma {:induction false} BeatsCount(ws: seq<World>, ss: seq<Step>, j: nat, i: nat, k: RowKey, t: Token)
    requires Run(ws, ss) && j < i < |ws| && Q.Owns(ws[i].db, k, t) && Beats(ss[j], t) && t in ws[j].claims
    ensures BeatenBy(ws[i], k, ss[j].since)
    decreases i
  {
    if j == i - 1 {
      BeatNow(ws, ss, j, k, t);
    } else {
      ClaimsGrow(ws, ss, j, i - 1, t);
      if Q.Owns(ws[i - 1].db, k, t) {
        BeatsCount(ws, ss, j, i - 1, k, t);
      }
      BeatLater(ws, ss, i - 1, k, t, ss[j].since);
    }
  }

  /** A heartbeat named the claim after its lock transaction had begun. */
  ghost predicate BeatSince(ss: seq<Step>, i: nat, t: Token, since: Time)
    requires i <= |ss|
  {
    exists j | 0 <= j < i :: Beats(ss[j], t) && ss[j].since > since
  }

  /** A lock just taken expires no earlier than the row's lease exactly if no heartbeat fell in its transaction. */
  lemma FullAtLockExactlyIf(ws: seq<World>, ss: seq<Step>, i: nat, t: Token)
    requires Run(ws, ss) && i < |ss| && ss[i] == TryLock(t) && Enabled(ws[i], ss[i])
    requires Q.Owns(ws[i].db, ws[i].claims[t].key, t) && LockIsFree(ws[i], t)
    ensures var k, since := ws[i].claims[t].key, ws[i].handlers[t].since;
      var e, r := Q.Entry(ws[i + 1].db, k.domain), ws[i].db.rows[k];
      && ws[i + 1].db.rows == ws[i].db.rows && r.heartbeatAt.Some? && e.lockUntil == Some(since + LEASE_S)
      && (e.lockUntil.value >= r.heartbeatAt.value + LEASE_S <==> !BeatSince(ss, i, t, since))
  {
    assert StepAt(ws, ss, i);
    var k, since := ws[i].claims[t].key, ws[i].handlers[t].since;
    var b := BeatSource(ws, ss, i, k, t);
    if t !in ws[b].claims {
      BeforeClaim(ws, ss, b, i, t, since);
    }
    if BeatSince(ss, i, t, since) {
      var j :| 0 <= j < i && Beats(ss[j], t) && ss[j].since > since;
      assert StepAt(ws, ss, j);
      if t !in ws[j].claims {
        BeforeClaim(ws, ss, j, i, t, since);
      } else {
        BeatsCount(ws, ss, j, i, k, t);
      }
    }
    assert StepAt(ws, ss, b);
  }

  lemma LockingKept(w: World, s: Step, t: Token)
    requires Enabled(w, s) && t in Next(w, s).lockings && s != TryLock(t)
    ensures t in w.lockings && Next(w, s).lockings[t] == w.lockings[t]
  {
    StepKinds(s);
    if HandlerStep(s) {
      HandlerFrame(w, s);
    } else if JobStep(s) {
      JobStepOnlyJobs(w, s);
    } else if OneRow(s) {
      OneRowFrame(w, s);
    } else if ManyRows(s) {
      ManyRowsFrame(w, s);
    }
  }

  /** What is noted of a lock is when its transaction began, before the claim got the lock and after it got the row. */
  lemma {:induction false} LockedBy(ws: seq<World>, ss: seq<Step>, i: nat, t: Token) returns (m: nat)
    requires Run(ws, ss) && i < |ws| && t in ws[i].lockings
    ensures m < i && t in ws[m].handlers && t in ws[m].claims && SinceIs(ws[m].handlers[t], ws[i].lockings[t].since)
  {
    assert StepAt(ws, ss, i - 1);
    if ss[i - 1] == TryLock(t) && ws[i].lockings != ws[i - 1].lockings {
      m := i - 1;
    } else {
      if ss[i - 1] != TryLock(t) {
        LockingKept(ws[i - 1], ss[i - 1], t);
      }
      m := LockedBy(ws, ss, i - 1, t);
    }
  }

  lemma ClaimBeforeLock(ws: seq<World>, ss: seq<Step>, b: nat, i: nat, t: Token)
    requires Run(ws, ss) && b < i < |ws| && t in ws[i].lockings && t !in ws[b].claims
    ensures ws[b].now <= ws[i].lockings[t].since
  {
    var m := LockedBy(ws, ss, i, t);
    if m <= b {
      ClaimsGrow(ws, ss, m, b, t);
    } else {
      BeforeClaim(ws, ss, b, m, t, ws[i].lockings[t].since);
    }
  }

  /** The claim's lock runs out before its row's lease. */
  ghost predicate LockShort(w: World, t: Token)
    requires OwnsBoth(w, t)
  {
    var until, heartbeat := w.db.domains[w.claims[t].key.domain].lockUntil, w.db.rows[w.claims[t].key].heartbeatAt;
    until.Some? && heartbeat.Some? && until.value < heartbeat.value + LEASE_S
  }

  /**
   A lock is short of the lease only while the last heartbeat of its claim is one that came after its transaction
   began and no later than the lock.
   */
  lemma ShortMeansBeatInGap(ws: seq<World>, ss: seq<Step>, i: nat, t: Token)
    requires Run(ws, ss) && i < |ws| && OwnsBoth(ws[i], t) && LockShort(ws[i], t)
    ensures t in ws[i].lockings
    ensures exists b | 0 <= b < i ::
      Beats(ss[b], t) && ws[i].lockings[t].since < ss[b].since <= ws[i].lockings[t].at
    ensures forall j | 0 <= j < i && Beats(ss[j], t) :: ss[j].since <= ws[i].lockings[t].at
  {
    var k := ws[i].claims[t].key;
    LockOutlivesLease(ws, ss, i, t);
    var b := BeatSource(ws, ss, i, k, t);
    assert StepAt(ws, ss, b);
    if t !in ws[b].claims {
      ClaimBeforeLock(ws, ss, b, i, t);
    }
    forall j | 0 <= j < i && Beats(ss[j], t) ensures ss[j].since <= ws[i].lockings[t].at {
      assert StepAt(ws, ss, j);
      if t in ws[j].claims {
        BeatsCount(ws, ss, j, i, k, t);
      } else {
        ClaimBeforeLock(ws, ss, j, i, t);
      }
    }
  }

  // ---- attempts ---------------------------------------------------------------------------------

  /** `attempts` counts the unrefunded claims of the round, which carry the numbers 1, 2, ... */
  lemma AttemptsCountCharges(ws: seq<World>, ss: seq<Step>, i: nat, k: RowKey)
    requires Run(ws, ss) && i < |ws| && k in ws[i].db.rows
    ensures k in ws[i].logs && ws[i].db.rows[k].attempts == |ws[i].logs[k].charges|
    ensures var cs, l := ws[i].claims, ws[i].logs[k].charges;
      && (forall n | 0 <= n < |l| :: l[n] in cs && cs[l[n]].key == k && cs[l[n]].attempts == n + 1)
      && (forall m, n | 0 <= m < n < |l| :: l[m] != l[n])
    ensures ws[i].db.rows[k].state.RowRunning? ==> ws[i].db.rows[k].attempts >= 1
  {
    RunKeeps(ws, ss, i);
    assert RowOk(ws[i], k);
  }

  /** The charged claims of a round that started the pipeline. */
  ghost function ChargedRuns(w: World, k: RowKey): set<Token>
    requires k in w.logs
  {
    set t | t in w.logs[k].charges && t in w.started
  }

  /** However often workers crash and rows are reaped, a round charges at most MAX_CLAIMS pipeline runs. */
  lemma ChargedRunsBounded(ws: seq<World>, ss: seq<Step>, i: nat, k: RowKey)
    requires Run(ws, ss) && i < |ws| && k in ws[i].db.rows
    ensures k in ws[i].logs && |ChargedRuns(ws[i], k)| <= MAX_CLAIMS
  {
    RunKeeps(ws, ss, i);
    AttemptsCountCharges(ws, ss, i, k);
    var l := ws[i].logs[k].charges;
    var first := l[..if |l| <= MAX_CLAIMS then |l| else MAX_CLAIMS];
    assert ChargedRuns(ws[i], k) <= set t | t in first by {
      forall t | t in ChargedRuns(ws[i], k) ensures t in first {
        var n :| 0 <= n < |l| && l[n] == t;
        assert n < |first| && first[n] == t;
      }
    }
    ElementsBounded(first);
    CardinalityMonotone(ChargedRuns(ws[i], k), set t | t in first);
  }

  lemma {:induction false} ElementsBounded(s: seq<Token>)
    ensures |set t | t in s| <= |s|
  {
    if s != [] {
      ElementsBounded(s[1..]);
      assert (set t | t in s) == {s[0]} + (set t | t in s[1..]);
    }
  }

  lemma {:induction false} CardinalityMonotone(a: set<Token>, b: set<Token>)
    requires a <= b
    ensures |a| <= |b|
  {
    if a != {} {
      var x :| x in a;
      CardinalityMonotone(a - {x}, b - {x});
    }
  }

  // ---- every row lives by its moves ---------------------------------------------------------------

  lemma OneRowMoves(w: World, s: Step)
    requires Shape(w) && RowsInv(w) && HandlersInv(w) && Enabled(w, s) && OneRow(s)
    ensures Shape(Next(w, s)) && RowsMove(w, Next(w, s))
  {
    if s.ClaimRow? {
      assert Next(w, s) == DoClaim(w, s.key, s.token, s.since);
      ClaimQuiet(w, s.key, s.token, s.since);
    } else if s.GiveBack? {
      assert Next(w, s) == DoGiveBack(w, s.token, s.since);
      GiveBackQuiet(w, s.token, s.since);
    } else {
      assert Next(w, s) == DoFinish(w, s.token, s.since);
      FinishQuiet(w, s.token, s.since);
    }
  }

  lemma ManyRowsMove(w: World, s: Step)
    requires Shape(w) && RowsInv(w) && Enabled(w, s) && ManyRows(s)
    ensures Shape(Next(w, s)) && RowsMove(w, Next(w, s))
  {
    if s.CreateJob? {
      assert Next(w, s) == DoCreateJob(w, s.newJob, s.domains, s.isFresh, s.owner, s.since);
      CreateJobQuiet(w, s.newJob, s.domains, s.isFresh, s.owner, s.since);
    } else if s.Heartbeat? {
      assert Next(w, s) == DoHeartbeat(w, s.tokens, s.since);
      HeartbeatMoves(w, s.tokens, s.since);
    } else if s.Reap? {
      assert s == Reap(s.since);
      ReapQuiet(w, s.since);
    } else if s.ReleaseWorker? {
      assert Next(w, s) == DoRelease(w, s.worker, s.since);
      ReleaseQuiet(w, s.worker, s.since);
    } else {
      assert Next(w, s) == DoRequeueFailed(w, s.job, s.seen, s.since);
      RequeueFailedQuiet(w, s.job, s.seen, s.since);
    }
  }

  lemma StillMoves(w: World, w': World)
    requires Shape(w) && Shape(w') && w'.db.rows == w.db.rows && w'.logs == w.logs && w'.claims == w.claims
    requires w'.now >= w.now
    ensures RowsMove(w, w')
  {
  }

  /** Every step moves each row by at most one row move. */
  lemma StepMoves(w: World, s: Step)
    requires Inv(w) && Enabled(w, s)
    ensures Shape(Next(w, s)) && RowsMove(w, Next(w, s))
  {
    if OneRow(s) {
      OneRowMoves(w, s);
    } else if ManyRows(s) {
      ManyRowsMove(w, s);
    } else {
      StepKeeps(w, s);
      RowsStill(w, s);
      StillMoves(w, Next(w, s));
    }
  }

  // ---- exactly-once recording -----------------------------------------------------------------------

  /** Results recorded for a row = times it was reopened, plus one while it is done. */
  lemma RecordedExactlyOnce(ws: seq<World>, ss: seq<Step>, i: nat, k: RowKey)
    requires Run(ws, ss) && i < |ws| && k in ws[i].db.rows
    ensures k in ws[i].logs
    ensures ws[i].logs[k].recorded == ws[i].logs[k].reopened + (if ws[i].db.rows[k].state.RowDone? then 1 else 0)
  {
    RunKeeps(ws, ss, i);
    assert RowOk(ws[i], k);
  }

  /** A finish by a claim that lost its row changes no row, no job and no cached result. */
  lemma StaleFinishWritesNothing(w: World, t: Token, since: Time)
    requires Enabled(w, Finish(t, since)) && !Q.Owns(w.db, w.claims[t].key, t)
    ensures var w' := Next(w, Finish(t, since));
      && w'.db.rows == w.db.rows && w'.db.jobs == w.db.jobs && w'.logs == w.logs
      && w'.db.domains.Keys == w.db.domains.Keys
      && (forall d | d in w.db.domains ::
            && w'.db.domains[d].result == w.db.domains[d].result
            && w'.db.domains[d].finishedAt == w.db.domains[d].finishedAt
            && (w'.db.domains[d] == w.db.domains[d]
                || (w.db.domains[d].lockOwner == Some(t) && w'.db.domains[d].lockOwner.None?)))
  {
  }

  /** A row's result changes only at a recording, and only a retryable failure is reopened. */
  lemma MoveFreezes(w: World, w': World, k: RowKey)
    requires Shape(w) && Shape(w') && k in w.db.rows && k in w'.db.rows && RowMove(w, w', k)
    ensures w'.logs[k].recorded >= w.logs[k].recorded && w'.logs[k].reopened >= w.logs[k].reopened
    ensures w'.logs[k].recorded == w.logs[k].recorded ==>
      w'.db.rows[k].result == w.db.rows[k].result && w'.db.rows[k].finishedAt == w.db.rows[k].finishedAt
    ensures w'.logs[k].reopened != w.logs[k].reopened ==> Q.Retryable(w.db.rows[k])
  {
  }

  lemma RunMoves(ws: seq<World>, ss: seq<Step>, n: nat, k: RowKey)
    requires Run(ws, ss) && n < |ss| && k in ws[n].db.rows
    ensures Shape(ws[n]) && Shape(ws[n + 1]) && k in ws[n + 1].db.rows && RowMove(ws[n], ws[n + 1], k)
  {
    assert StepAt(ws, ss, n);
    RunKeeps(ws, ss, n);
    StepMoves(ws[n], ss[n]);
  }

  /** Between two recordings a row's stored result and finish time do not change. */
  lemma {:induction false} ResultFrozen(ws: seq<World>, ss: seq<Step>, i: nat, n: nat, k: RowKey)
    requires Run(ws, ss) && i <= n < |ws| && k in ws[i].db.rows && k in ws[i].logs
    ensures k in ws[n].logs && k in ws[n].db.rows
    ensures ws[i].logs[k].recorded <= ws[n].logs[k].recorded
    ensures ws[i].logs[k].recorded == ws[n].logs[k].recorded ==>
      ws[n].db.rows[k].result == ws[i].db.rows[k].result && ws[n].db.rows[k].finishedAt == ws[i].db.rows[k].finishedAt
    decreases n - i
  {
    if i < n {
      ResultFrozen(ws, ss, i, n - 1, k);
      RunMoves(ws, ss, n - 1, k);
      MoveFreezes(ws[n - 1], ws[n], k);
    }
  }

  // ---- back-off ---------------------------------------------------------------------------------

  lemma QueuedWaits(w: World, w': World, k: RowKey)
    requires Shape(w) && Shape(w') && k in w.db.rows && k in w'.db.rows && RowMove(w, w', k)
    requires w.db.rows[k].state.RowQueued? && w.now < w.db.rows[k].availableAt
    ensures w'.db.rows[k] == w.db.rows[k]
  {
  }

  /** A queued row is left alone until the time it becomes available. */
  lemma {:induction false} QueuedUntilAvailable(ws: seq<World>, ss: seq<Step>, i: nat, n: nat, k: RowKey)
    requires Run(ws, ss) && i <= n < |ws| && k in ws[i].db.rows
    requires ws[i].db.rows[k].state.RowQueued? && ws[n].now < ws[i].db.rows[k].availableAt
    ensures k in ws[n].db.rows && ws[n].db.rows[k] == ws[i].db.rows[k]
    decreases n - i
  {
    if i < n {
      ClockAdvances(ws, ss, i, n);
      RunMoves(ws, ss, i, k);
      QueuedWaits(ws[i], ws[i + 1], k);
      QueuedUntilAvailable(ws, ss, i + 1, n, k);
    }
  }

  lemma {:induction false} ClockAdvances(ws: seq<World>, ss: seq<Step>, i: nat, n: nat)
    requires Run(ws, ss) && i <= n < |ws|
    ensures ws[i].now <= ws[n].now
    decreases n - i
  {
    if i < n {
      ClockAdvances(ws, ss, i, n - 1);
      assert StepAt(ws, ss, n - 1);
      ClockNeverBack(ws[n - 1], ss[n - 1]);
    }
  }

  /** A row its handler gave back with a delay is in nobody's hands until the delay is over. */
  lemma BackoffRespected(ws: seq<World>, ss: seq<Step>, i: nat, n: nat, t: Token)
    requires Run(ws, ss) && i < n < |ws| && ss[i].GiveBack? && ss[i].token == t && Enabled(ws[i], ss[i])
    requires Q.Owns(ws[i].db, ws[i].claims[t].key, t) && ws[n].now < ss[i].since + ws[i].handlers[t].delay
    ensures var k := ws[i].claims[t].key;
      k in ws[n].db.rows && ws[n].db.rows[k].state.RowQueued? && ws[n].db.rows[k].claimedBy.None?
  {
    assert StepAt(ws, ss, i);
    QueuedUntilAvailable(ws, ss, i + 1, n, ws[i].claims[t].key);
  }

  // ---- fair claims are claims -------------------------------------------------------------------

  /**
   What the fair order picks in a reachable world, under a new token, is a step of the protocol. It is a waiting
   row whose time has come, of a job that is neither paused, done nor cancelled.
   */
  lemma FairClaimIsStep(ws: seq<World>, ss: seq<Step>, i: nat, db': Db, k: RowKey, t: Token, since: Time)
    requires Run(ws, ss) && i < |ws| && t !in ws[i].claims && since <= ws[i].now
    requires F.FairClaim(ws[i].db, db', k, t, since)
    ensures Enabled(ws[i], ClaimRow(k, t, since)) && Next(ws[i], ClaimRow(k, t, since)).db == db'
    ensures ws[i].db.jobs[k.job].status == Queued || ws[i].db.jobs[k.job].status == Running
    ensures ws[i].db.rows[k].state == RowQueued && ws[i].db.rows[k].availableAt <= since
  {
    RunKeeps(ws, ss, i);
  }
}
