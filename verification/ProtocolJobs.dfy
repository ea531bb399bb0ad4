/** Jobs, the shared cache and the domain locks over whole runs. */
module ProtocolJobs {
  import opened Tables
  import opened Protocol
  import opened ProtocolInv
  import opened ProtocolMoves
  import opened ProtocolSteps
  import opened ProtocolProof
  import opened ProtocolFrames
  import Q = QueueSpec

  // ---- the job state machine --------------------------------------------------------------------

  lemma JobStatusSound(ws: seq<World>, ss: seq<Step>, i: nat, j: JobId)
    requires Run(ws, ss) && i < |ws| && j in ws[i].db.jobs
    ensures var job, hasOpen := ws[i].db.jobs[j], Q.HasOpen(ws[i].db.rows, j);
      && (job.pausedAt.Some? <==> job.status.Paused?)
      && (job.finishedAt.Some? <==> job.status.Done? || job.status.Cancelled?)
      && (job.status.Done? ==> !hasOpen || j in ws[i].stranded)
      && (Q.Active(job) ==> hasOpen || j in ws[i].owed)
  {
    RunKeeps(ws, ss, i);
    assert JobInv(ws[i], j);
  }

  lemma StrandedStays(w: World, s: Step)
    requires Enabled(w, s) && !s.RequeueFailed?
    ensures Next(w, s).stranded == w.stranded
  {
    StepKinds(s);
    if HandlerStep(s) {
      HandlerFrame(w, s);
    } else if JobStep(s) {
      JobStepOnlyJobs(w, s);
    } else if LockStep(s) {
      LockFrame(w, s);
    } else if OneRow(s) {
      OneRowFrame(w, s);
    } else if ManyRows(s) {
      ManyRowsFrame(w, s);
    }
  }

  /** While every retry sees the completions before it, no done job has an open row. */
  lemma {:induction false} SeenRetriesStrandNothing(ws: seq<World>, ss: seq<Step>, i: nat)
    requires Run(ws, ss) && i < |ws| && forall n | 0 <= n < i :: ss[n].RequeueFailed? ==> ss[n].seen
    ensures ws[i].stranded == {}
    ensures forall j | j in ws[i].db.jobs && ws[i].db.jobs[j].status.Done? :: !Q.HasOpen(ws[i].db.rows, j)
  {
    if i > 0 {
      SeenRetriesStrandNothing(ws, ss, i - 1);
      NothingStranded(ws, ss, i);
    }
    forall j | j in ws[i].db.jobs && ws[i].db.jobs[j].status.Done? ensures !Q.HasOpen(ws[i].db.rows, j) {
      JobStatusSound(ws, ss, i, j);
    }
  }

  lemma NothingStranded(ws: seq<World>, ss: seq<Step>, i: nat)
    requires Run(ws, ss) && 0 < i < |ws| && ws[i - 1].stranded == {} && (ss[i - 1].RequeueFailed? ==> ss[i - 1].seen)
    ensures ws[i].stranded == {}
  {
    assert StepAt(ws, ss, i - 1);
    if !ss[i - 1].RequeueFailed? {
      StrandedStays(ws[i - 1], ss[i - 1]);
    }
  }

  /** A completion check becomes due only when a paused job is resumed. */
  lemma OwedOnlyAfterResume(w: World, s: Step, j: JobId)
    requires Enabled(w, s) && j in Next(w, s).owed && j !in w.owed
    ensures j in w.db.jobs && w.db.jobs[j].status.Paused?
    ensures (s.Resume? && s.job == j) || (s.ResumeFor? && Q.PausedFor(w.db.jobs[j], s.reason))
  {
    StepKinds(s);
    if HandlerStep(s) {
      HandlerFrame(w, s);
    } else if LockStep(s) {
      LockFrame(w, s);
    } else if OneRow(s) {
      OneRowFrame(w, s);
    } else if ManyRows(s) {
      ManyRowsFrame(w, s);
    }
  }

  ghost predicate ClaimOrFinish(s: Step) {
    s.ClaimRow? || s.Finish?
  }

  ghost predicate JobOrRetryStep(s: Step) {
    JobStep(s) || s.RequeueFailed?
  }

  lemma QuietSteps(w: World, s: Step, j: JobId)
    requires Enabled(w, s) && !ClaimOrFinish(s) && !JobOrRetryStep(s) && j in w.db.jobs
    ensures j in Next(w, s).db.jobs && Next(w, s).db.jobs[j] == w.db.jobs[j]
  {
    StepKinds(s);
    if HandlerStep(s) {
      HandlerFrame(w, s);
    } else if LockStep(s) {
      LockFrame(w, s);
    } else if ManyRows(s) {
      ManyRowsFrame(w, s);
    } else if s.GiveBack? {
      GiveBackFrame(w, s.token, s.since);
    }
  }

  /** No row of a done job is claimed before the job has started. */
  ghost predicate ClaimFits(w: World, s: Step, j: JobId)
    requires j in w.db.jobs
  {
    s.ClaimRow? && s.key.job == j && w.db.jobs[j].status.Done? ==> w.db.jobs[j].startedAt.Some?
  }

  lemma ClaimOrFinishMoves(w: World, s: Step, j: JobId)
    requires Enabled(w, s) && ClaimOrFinish(s) && j in w.db.jobs && ClaimFits(w, s, j)
    ensures j in Next(w, s).db.jobs && JobMove(w.db.jobs[j], Next(w, s).db.jobs[j], s.since)
  {
  }

  lemma RetryMoves(w: World, j: JobId, i: JobId, seen: bool, since: Time)
    requires i in w.db.jobs && (i == j && Q.AnyRetryable(w.db.rows, j) ==> w.db.jobs[j].startedAt.Some?)
    ensures i in DoRequeueFailed(w, j, seen, since).db.jobs
    ensures JobMove(w.db.jobs[i], DoRequeueFailed(w, j, seen, since).db.jobs[i], since)
  {
  }

  lemma JobStepMoves(w: World, s: Step, j: JobId)
    requires Enabled(w, s) && JobStep(s) && j in w.db.jobs && JobInv(w, j)
    ensures j in Next(w, s).db.jobs && JobMove(w.db.jobs[j], Next(w, s).db.jobs[j], s.since)
  {
    JobStepMove(w, s, j);
  }

  /** When the transaction of a step that moves jobs began. */
  ghost function Began(w: World, s: Step): Time {
    if ClaimOrFinish(s) || JobOrRetryStep(s) then s.since else w.now
  }

  lemma BeganInPast(w: World, s: Step)
    requires Enabled(w, s)
    ensures Began(w, s) <= w.now
  {
  }

  ghost predicate MovesJob(w: World, s: Step, j: JobId)
    requires Enabled(w, s) && j in w.db.jobs
  {
    j in Next(w, s).db.jobs && JobMove(w.db.jobs[j], Next(w, s).db.jobs[j], Began(w, s))
  }

  lemma RowStepMovesJob(w: World, s: Step, j: JobId)
    requires Enabled(w, s) && !JobOrRetryStep(s) && j in w.db.jobs && ClaimFits(w, s, j)
    ensures MovesJob(w, s, j)
  {
    if ClaimOrFinish(s) {
      ClaimOrFinishMoves(w, s, j);
    } else {
      QuietSteps(w, s, j);
    }
  }

  lemma JobOrRetryMoves(w: World, s: Step, j: JobId)
    requires Enabled(w, s) && JobOrRetryStep(s) && j in w.db.jobs && JobInv(w, j)
    requires Q.AnyRetryable(w.db.rows, j) ==> w.db.jobs[j].startedAt.Some?
    ensures MovesJob(w, s, j)
  {
    if JobStep(s) {
      JobStepMoves(w, s, j);
    } else {
      RetryMoves(w, s.job, j, s.seen, s.since);
    }
  }

  /** Every step moves each job by at most one job move. */
  lemma StepMovesJob(w: World, s: Step, j: JobId)
    requires Inv(w) && Enabled(w, s) && j in w.db.jobs
    ensures MovesJob(w, s, j)
  {
    assert JobInv(w, j);
    assert s.ClaimRow? ==> Q.Open(w.db.rows[s.key]);
    if Q.AnyRetryable(w.db.rows, j) {
      RetryableJobStarted(w, j);
    }
    if JobOrRetryStep(s) {
      JobOrRetryMoves(w, s, j);
    } else {
      RowStepMovesJob(w, s, j);
    }
  }

  lemma RunMovesJob(ws: seq<World>, ss: seq<Step>, n: nat, j: JobId)
    requires Run(ws, ss) && n < |ss| && j in ws[n].db.jobs
    ensures j in ws[n + 1].db.jobs
    ensures JobMove(ws[n].db.jobs[j], ws[n + 1].db.jobs[j], Began(ws[n], ss[n]))
  {
    assert StepAt(ws, ss, n);
    RunKeeps(ws, ss, n);
    StepMovesJob(ws[n], ss[n], j);
  }

  lemma CancelledStays(j: Job, j': Job, since: Time)
    requires JobMove(j, j', since) && j.status.Cancelled?
    ensures j'.status.Cancelled? && j'.finishedAt == j.finishedAt
  {
  }

  /** Nothing brings a cancelled job back. */
  lemma {:induction false} CancelledForever(ws: seq<World>, ss: seq<Step>, i: nat, n: nat, j: JobId)
    requires Run(ws, ss) && i <= n < |ws| && j in ws[i].db.jobs && ws[i].db.jobs[j].status.Cancelled?
    ensures j in ws[n].db.jobs && ws[n].db.jobs[j].status.Cancelled?
    ensures ws[n].db.jobs[j].finishedAt == ws[i].db.jobs[j].finishedAt
    decreases n - i
  {
    if i < n {
      CancelledForever(ws, ss, i, n - 1, j);
      RunMovesJob(ws, ss, n - 1, j);
      CancelledStays(ws[n - 1].db.jobs[j], ws[n].db.jobs[j], Began(ws[n - 1], ss[n - 1]));
    }
  }

  lemma DoneSurvivesClaims(w: World, s: Step, j: JobId)
    requires Enabled(w, s) && ClaimOrFinish(s) && j in w.db.jobs && w.db.jobs[j].status.Done?
    ensures j in Next(w, s).db.jobs && Next(w, s).db.jobs[j].status.Done?
  {
  }

  lemma DoneSurvivesJobs(w: World, s: Step, j: JobId)
    requires Enabled(w, s) && JobStep(s) && j in w.db.jobs && w.db.jobs[j].status.Done?
    ensures j in Next(w, s).db.jobs && Next(w, s).db.jobs[j].status.Done?
  {
  }

  lemma DoneSurvivesRetry(w: World, j: JobId, i: JobId, seen: bool, since: Time)
    requires i in w.db.jobs && w.db.jobs[i].status.Done? && (i == j && seen ==> !Q.AnyRetryable(w.db.rows, j))
    ensures var w' := DoRequeueFailed(w, j, seen, since); i in w'.db.jobs && w'.db.jobs[i].status.Done?
  {
  }

  /** Only a retry that reopened a row takes a job out of done. */
  lemma DoneLeftOnlyByRetry(w: World, s: Step, j: JobId)
    requires Inv(w) && Enabled(w, s) && j in w.db.jobs && w.db.jobs[j].status.Done?
    requires j in Next(w, s).db.jobs && !Next(w, s).db.jobs[j].status.Done?
    ensures s.RequeueFailed? && s.job == j && s.seen
    ensures exists k | k in w.db.rows ::
      k.job == j && Q.Retryable(w.db.rows[k]) && Q.RequeueFailed(w.db, j, s.since).rows[k].state.RowQueued?
  {
    if ClaimOrFinish(s) {
      DoneSurvivesClaims(w, s, j);
    } else if JobStep(s) {
      DoneSurvivesJobs(w, s, j);
    } else if !s.RequeueFailed? {
      QuietSteps(w, s, j);
    } else if s.job != j || !s.seen || !Q.AnyRetryable(w.db.rows, j) {
      DoneSurvivesRetry(w, s.job, j, s.seen, s.since);
    } else {
      var k :| k in w.db.rows && k.job == j && Q.Retryable(w.db.rows[k]);
      assert Q.RequeueFailed(w.db, j, s.since).rows[k].state.RowQueued?;
    }
  }

  // ---- time accounting --------------------------------------------------------------------------

  // Columns are stamped with the start of a transaction, so they show a job running from before it took effect, and
  // stopped from before it did.

  ghost predicate Accrues(j: Job) {
    j.startedAt.Some? && Q.Active(j)
  }

  /** Up to when the columns count a job's time. */
  ghost function End(j: Job, now: Time): Time
    requires j.startedAt.Some?
  {
    if Q.Active(j) then now
    else if j.status.Paused? then Max(Coalesce(j.pausedAt, now), j.startedAt.value)
    else Coalesce(j.finishedAt, now)
  }

  /** `time` is what the columns hold. (A job cancelled before its first claim can hold less than nothing.) */
  ghost predicate TimeInv(j: Job, time: Time, now: Time) {
    && (j.pausedAt.Some? ==> j.pausedAt.value <= now) && (j.finishedAt.Some? ==> j.finishedAt.value <= now)
    && (j.startedAt.None? ==> time == 0.0 && j.pausedSeconds == 0.0)
    && (j.startedAt.Some? ==>
          var held := End(j, now) - j.startedAt.value - j.pausedSeconds;
          && j.startedAt.value <= now
          && (if j.status.Cancelled? then Max(0.0, time) == Max(0.0, held) else time == held))
  }

  /**
   What a transaction that began at `since` adds to the time shown: a first claim and a return to running count from
   before they took effect, a completion, pause or cancel stops the count before it did.
   */
  ghost function Shift(j: Job, j': Job, now: Time, since: Time): Time {
    if j'.startedAt.None? then 0.0
    else if j.startedAt.None? then Max(0.0, End(j', now) - since)
    else if !Q.Active(j) && Q.Active(j') then now - since
    else if Q.Active(j) && !Q.Active(j') then End(j', now) - now
    else 0.0
  }

  lemma JobMoveKeepsTime(j: Job, j': Job, time: Time, now: Time, since: Time, hasOpen: bool, owed: bool, stranded: bool)
    requires StatusInv(j, hasOpen, owed, stranded) && TimeInv(j, time, now) && JobMove(j, j', since) && since <= now
    ensures TimeInv(j', time + Shift(j, j', now, since), now)
  {
  }

  lemma TickKeepsTime(j: Job, time: Time, now: Time, dt: Time, hasOpen: bool, owed: bool, stranded: bool)
    requires StatusInv(j, hasOpen, owed, stranded) && TimeInv(j, time, now) && dt > 0.0
    ensures TimeInv(j, time + (if Accrues(j) then dt else 0.0), now + dt)
  {
  }

  /** The time up to world `i` during which job `j` was started, not paused and not over. */
  ghost function RunnableTime(ws: seq<World>, ss: seq<Step>, i: nat, j: JobId): Time
    requires |ws| == |ss| + 1 && i < |ws|
  {
    if i == 0 then 0.0 else RunnableTime(ws, ss, i - 1, j) + Ran(ws[i - 1], ss[i - 1], j)
  }

  ghost function Ran(w: World, s: Step, j: JobId): Time {
    if s.Tick? && j in w.db.jobs && Accrues(w.db.jobs[j]) then s.dt else 0.0
  }

  /** What the stamps up to world `i` are off. */
  ghost function Drift(ws: seq<World>, ss: seq<Step>, i: nat, j: JobId): Time
    requires |ws| == |ss| + 1 && i < |ws|
  {
    if i == 0 then 0.0 else Drift(ws, ss, i - 1, j) + Off(ws[i - 1], ss[i - 1], ws[i], j)
  }

  ghost function Off(w: World, s: Step, w': World, j: JobId): Time {
    if s.Tick? || j !in w.db.jobs || j !in w'.db.jobs then 0.0
    else Shift(w.db.jobs[j], w'.db.jobs[j], w.now, Began(w, s))
  }

  lemma {:induction false} NothingBefore(ws: seq<World>, ss: seq<Step>, i: nat, j: JobId)
    requires Run(ws, ss) && i < |ws| && j !in ws[i].db.jobs
    ensures RunnableTime(ws, ss, i, j) == 0.0 && Drift(ws, ss, i, j) == 0.0
  {
    if i > 0 {
      if j in ws[i - 1].db.jobs {
        RunMovesJob(ws, ss, i - 1, j);
      }
      NothingBefore(ws, ss, i - 1, j);
    }
  }

  lemma JobsBorn(w: World, s: Step, j: JobId)
    requires Enabled(w, s) && j !in w.db.jobs && j in Next(w, s).db.jobs
    ensures TimeInv(Next(w, s).db.jobs[j], 0.0, w.now) && Next(w, s).now == w.now
  {
    StepKinds(s);
    if HandlerStep(s) {
      HandlerFrame(w, s);
    } else if JobStep(s) {
      JobStepOnlyJobs(w, s);
    } else if LockStep(s) {
      LockFrame(w, s);
    } else if OneRow(s) {
      OneRowFrame(w, s);
    } else if ManyRows(s) && !s.CreateJob? && !s.RequeueFailed? {
      ManyRowsFrame(w, s);
    }
  }

  lemma TimeStep(ws: seq<World>, ss: seq<Step>, i: nat, j: JobId, time: Time)
    requires Run(ws, ss) && i < |ss| && j in ws[i].db.jobs && TimeInv(ws[i].db.jobs[j], time, ws[i].now)
    ensures j in ws[i + 1].db.jobs
    ensures TimeInv(ws[i + 1].db.jobs[j], time + Ran(ws[i], ss[i], j) + Off(ws[i], ss[i], ws[i + 1], j), ws[i + 1].now)
  {
    var w, s, job := ws[i], ss[i], ws[i].db.jobs[j];
    assert StepAt(ws, ss, i);
    RunKeeps(ws, ss, i);
    assert JobInv(w, j);
    var hasOpen, owed, stranded := Q.HasOpen(w.db.rows, j), j in w.owed, j in w.stranded;
    if s.Tick? {
      TickKeepsTime(job, time, w.now, s.dt, hasOpen, owed, stranded);
    } else {
      RunMovesJob(ws, ss, i, j);
      ClockNeverBack(w, s);
      BeganInPast(w, s);
      JobMoveKeepsTime(job, ws[i + 1].db.jobs[j], time, w.now, Began(w, s), hasOpen, owed, stranded);
    }
  }

  lemma {:induction false} ColumnsHold(ws: seq<World>, ss: seq<Step>, i: nat, j: JobId)
    requires Run(ws, ss) && i < |ws| && j in ws[i].db.jobs
    ensures TimeInv(ws[i].db.jobs[j], RunnableTime(ws, ss, i, j) + Drift(ws, ss, i, j), ws[i].now)
  {
    if i > 0 {
      if j in ws[i - 1].db.jobs {
        ColumnsHold(ws, ss, i - 1, j);
        TimeStep(ws, ss, i - 1, j, RunnableTime(ws, ss, i - 1, j) + Drift(ws, ss, i - 1, j));
      } else {
        assert StepAt(ws, ss, i - 1);
        NothingBefore(ws, ss, i - 1, j);
        JobsBorn(ws[i - 1], ss[i - 1], j);
      }
    }
  }

  lemma ColumnsShow(j: Job, time: Time, now: Time, hasOpen: bool, owed: bool, stranded: bool)
    requires StatusInv(j, hasOpen, owed, stranded) && TimeInv(j, time, now)
    ensures Q.ActiveSeconds(j, now) == if j.startedAt.Some? then Some(Max(0.0, time)) else None
  {
  }

  /** The columns alone give exactly that time, but for the age of stamps, through every pause, retry and cancel. */
  lemma ActiveSecondsExact(ws: seq<World>, ss: seq<Step>, i: nat, j: JobId)
    requires Run(ws, ss) && i < |ws| && j in ws[i].db.jobs
    ensures var time := RunnableTime(ws, ss, i, j) + Drift(ws, ss, i, j);
      Q.ActiveSeconds(ws[i].db.jobs[j], ws[i].now) ==
        if ws[i].db.jobs[j].startedAt.Some? then Some(Max(0.0, time)) else None
  {
    RunKeeps(ws, ss, i);
    assert JobInv(ws[i], j);
    ColumnsHold(ws, ss, i, j);
    ColumnsShow(ws[i].db.jobs[j], RunnableTime(ws, ss, i, j) + Drift(ws, ss, i, j), ws[i].now,
      Q.HasOpen(ws[i].db.rows, j), j in ws[i].owed, j in ws[i].stranded);
  }

  lemma {:induction false} RunnableTimePositive(ws: seq<World>, ss: seq<Step>, i: nat, j: JobId)
    requires Run(ws, ss) && i < |ws|
    ensures RunnableTime(ws, ss, i, j) >= 0.0
  {
    if i > 0 {
      assert StepAt(ws, ss, i - 1);
      RunnableTimePositive(ws, ss, i - 1, j);
    }
  }

  lemma ShownExactly(time: Time, drift: Time)
    requires time >= 0.0
    ensures Max(0.0, time + drift) == time <==> drift == 0.0 || (time == 0.0 && drift < 0.0)
  {
  }

  /** A started job shows exactly its time if and only if what its stamps are off adds up to nothing. */
  lemma ActiveSecondsExactlyIf(ws: seq<World>, ss: seq<Step>, i: nat, j: JobId)
    requires Run(ws, ss) && i < |ws| && j in ws[i].db.jobs && ws[i].db.jobs[j].startedAt.Some?
    ensures var time, drift := RunnableTime(ws, ss, i, j), Drift(ws, ss, i, j);
      Q.ActiveSeconds(ws[i].db.jobs[j], ws[i].now) == Some(time) <==> drift == 0.0 || (time == 0.0 && drift < 0.0)
  {
    ActiveSecondsExact(ws, ss, i, j);
    RunnableTimePositive(ws, ss, i, j);
    ShownExactly(RunnableTime(ws, ss, i, j), Drift(ws, ss, i, j));
  }

  // The steps whose stamps are off.

  /** The step first claims a row of the job in a transaction that began earlier, while the job could run. */
  ghost predicate LateStart(w: World, s: Step, w': World, j: JobId) {
    && j in w.db.jobs && j in w'.db.jobs && w.db.jobs[j].startedAt.None? && w'.db.jobs[j].startedAt.Some?
    && Began(w, s) < End(w'.db.jobs[j], w.now)
  }

  /** The step brings a started job back to running in a transaction that began earlier. */
  ghost predicate LateReturn(w: World, s: Step, w': World, j: JobId) {
    && j in w.db.jobs && j in w'.db.jobs && w.db.jobs[j].startedAt.Some? && w'.db.jobs[j].startedAt.Some?
    && !Q.Active(w.db.jobs[j]) && Q.Active(w'.db.jobs[j]) && Began(w, s) < w.now
  }

  /** The step completes, pauses or cancels a running job with a stamp of an earlier moment at which it ran. */
  ghost predicate LateStop(w: World, w': World, j: JobId) {
    && j in w.db.jobs && j in w'.db.jobs && w.db.jobs[j].startedAt.Some? && w'.db.jobs[j].startedAt.Some?
    && Q.Active(w.db.jobs[j]) && !Q.Active(w'.db.jobs[j]) && End(w'.db.jobs[j], w.now) < w.now
  }

  ghost predicate EndsInPast(w: World, w': World, j: JobId) {
    j in w'.db.jobs && w'.db.jobs[j].startedAt.Some? ==> End(w'.db.jobs[j], w.now) <= w.now
  }

  lemma LateSteps(w: World, s: Step, w': World, j: JobId)
    requires !s.Tick? && Began(w, s) <= w.now
    ensures Off(w, s, w', j) > 0.0 ==> LateStart(w, s, w', j) || LateReturn(w, s, w', j) || !EndsInPast(w, w', j)
    ensures LateStart(w, s, w', j) || LateReturn(w, s, w', j) ==> Off(w, s, w', j) > 0.0
    ensures Off(w, s, w', j) < 0.0 <==> LateStop(w, w', j)
  {
  }

  ghost predicate NoLateStep(ws: seq<World>, ss: seq<Step>, i: nat, j: JobId)
    requires |ws| == |ss| + 1 && i < |ws|
  {
    forall m | 0 <= m < i :: InStep(ws, ss, m, j)
  }

  /** Step `m` moves job `j` with a stamp of its own moment, or does not move it. */
  ghost predicate InStep(ws: seq<World>, ss: seq<Step>, m: nat, j: JobId)
    requires |ws| == |ss| + 1 && m < |ss|
  {
    && !LateStart(ws[m], ss[m], ws[m + 1], j) && !LateReturn(ws[m], ss[m], ws[m + 1], j)
    && !LateStop(ws[m], ws[m + 1], j)
  }

  lemma OffAt(ws: seq<World>, ss: seq<Step>, i: nat, j: JobId)
    requires Run(ws, ss) && i < |ss|
    ensures var off := Off(ws[i], ss[i], ws[i + 1], j);
      && (off > 0.0 <==> LateStart(ws[i], ss[i], ws[i + 1], j) || LateReturn(ws[i], ss[i], ws[i + 1], j))
      && (off < 0.0 <==> LateStop(ws[i], ws[i + 1], j))
  {
    assert StepAt(ws, ss, i);
    if ss[i].Tick? {
      assert ws[i + 1].db == ws[i].db;
    } else {
      BeganInPast(ws[i], ss[i]);
      ClockNeverBack(ws[i], ss[i]);
      if j in ws[i + 1].db.jobs {
        ColumnsHold(ws, ss, i + 1, j);
      }
      LateSteps(ws[i], ss[i], ws[i + 1], j);
    }
  }

  lemma {:induction false} NoDrift(ws: seq<World>, ss: seq<Step>, i: nat, j: JobId)
    requires Run(ws, ss) && i < |ws| && NoLateStep(ws, ss, i, j)
    ensures Drift(ws, ss, i, j) == 0.0
  {
    if i > 0 {
      NoDrift(ws, ss, i - 1, j);
      assert InStep(ws, ss, i - 1, j);
      OffAt(ws, ss, i - 1, j);
    }
  }

  /** So without a late first claim, return or stop the time shown is right. */
  lemma ActiveSecondsRight(ws: seq<World>, ss: seq<Step>, i: nat, j: JobId)
    requires Run(ws, ss) && i < |ws| && NoLateStep(ws, ss, i, j)
    requires j in ws[i].db.jobs && ws[i].db.jobs[j].startedAt.Some?
    ensures Q.ActiveSeconds(ws[i].db.jobs[j], ws[i].now) == Some(RunnableTime(ws, ss, i, j))
  {
    NoDrift(ws, ss, i, j);
    ActiveSecondsExactlyIf(ws, ss, i, j);
  }

  lemma ShownMoves(time: Time, ran: Time, off: Time)
    requires ran >= 0.0 && (ran > 0.0 ==> off == 0.0)
    ensures Max(0.0, time + ran + off) < Max(0.0, time) <==> off < 0.0 && Max(0.0, time) > 0.0
    ensures ran == 0.0 && off == 0.0 ==> Max(0.0, time + ran + off) == Max(0.0, time)
  {
  }

  lemma OnlyOneMove(ws: seq<World>, ss: seq<Step>, i: nat, j: JobId)
    requires Run(ws, ss) && i < |ss|
    ensures Ran(ws[i], ss[i], j) >= 0.0
    ensures Ran(ws[i], ss[i], j) > 0.0 ==> Off(ws[i], ss[i], ws[i + 1], j) == 0.0
  {
    assert StepAt(ws, ss, i);
  }

  /**
   The time shown falls exactly when a running job with time to show is completed, paused or cancelled by a transaction
   that began earlier. It does not move while the job is paused, done or cancelled, until one brings it back.
   */
  lemma ActiveSecondsMonotone(ws: seq<World>, ss: seq<Step>, i: nat, j: JobId)
    requires Run(ws, ss) && i < |ss| && j in ws[i].db.jobs && ws[i].db.jobs[j].startedAt.Some?
    ensures j in ws[i + 1].db.jobs && ws[i + 1].db.jobs[j].startedAt.Some?
    ensures var a, b := Q.ActiveSeconds(ws[i].db.jobs[j], ws[i].now),
      Q.ActiveSeconds(ws[i + 1].db.jobs[j], ws[i + 1].now);
      && a.Some? && b.Some?
      && (b.value < a.value <==> LateStop(ws[i], ws[i + 1], j) && a.value > 0.0)
      && (!Q.Active(ws[i].db.jobs[j]) && !LateReturn(ws[i], ss[i], ws[i + 1], j) ==> b == a)
  {
    RunMovesJob(ws, ss, i, j);
    ActiveSecondsExact(ws, ss, i, j);
    ActiveSecondsExact(ws, ss, i + 1, j);
    OffAt(ws, ss, i, j);
    OnlyOneMove(ws, ss, i, j);
    ShownMoves(RunnableTime(ws, ss, i, j) + Drift(ws, ss, i, j), Ran(ws[i], ss[i], j), Off(ws[i], ss[i], ws[i + 1], j));
  }

  // ---- the shared cache ---------------------------------------------------------------------------

  /** A row of a fresh job, or one holding a failure, recorded from cache used an entry past its floor. */
  lemma CacheFloor(ws: seq<World>, ss: seq<Step>, i: nat, k: RowKey)
    requires Run(ws, ss) && i < |ws| && k in ws[i].db.rows
    requires ws[i].db.rows[k].state.RowDone? && ws[i].db.rows[k].fromCache
    ensures k.job in ws[i].db.jobs && k in ws[i].logs && ws[i].logs[k].entryAt.Some? && ws[i].db.rows[k].result.Some?
    ensures ws[i].db.jobs[k.job].isFresh || ws[i].db.rows[k].result.value.status.FetchFailed? ==>
      ws[i].logs[k].entryAt.value >= Q.Floor(ws[i].db.jobs[k.job], ws[i].db.rows[k].requeuedAt)
  {
    RunKeeps(ws, ss, i);
    assert RowOk(ws[i], k);
  }

  /** The step is a retry that reopens row `k`. */
  ghost predicate Reopens(w: World, s: Step, k: RowKey) {
    s.RequeueFailed? && s.job == k.job && k in w.db.rows && Q.Retryable(w.db.rows[k])
  }

  ghost predicate SameStamp(w: World, w': World, k: RowKey)
    requires k in w.db.rows
  {
    k in w'.db.rows && w'.db.rows[k].requeuedAt == w.db.rows[k].requeuedAt
  }

  lemma FinishStamp(w: World, t: Token, since: Time, k: RowKey)
    requires CanFinish(w, t, since) && k in w.db.rows
    ensures SameStamp(w, DoFinish(w, t, since), k)
  {
  }

  lemma GiveBackStamp(w: World, t: Token, since: Time, k: RowKey)
    requires Enabled(w, GiveBack(t, since)) && k in w.db.rows
    ensures SameStamp(w, DoGiveBack(w, t, since), k)
  {
  }

  lemma OneRowStamp(w: World, s: Step, k: RowKey)
    requires Enabled(w, s) && OneRow(s) && k in w.db.rows
    ensures SameStamp(w, Next(w, s), k)
  {
    if s.Finish? {
      assert Next(w, s) == DoFinish(w, s.token, s.since);
      FinishStamp(w, s.token, s.since, k);
    } else if s.GiveBack? {
      assert Next(w, s) == DoGiveBack(w, s.token, s.since);
      GiveBackStamp(w, s.token, s.since, k);
    } else {
      assert Next(w, s) == DoClaim(w, s.key, s.token, s.since);
    }
  }

  lemma BulkStamp(w: World, s: Step, k: RowKey)
    requires Enabled(w, s) && (s.Heartbeat? || s.Reap? || s.ReleaseWorker?) && k in w.db.rows
    ensures SameStamp(w, Next(w, s), k)
  {
  }

  lemma RetryStamp(w: World, s: Step, k: RowKey)
    requires Enabled(w, s) && s.RequeueFailed? && k in w.db.rows
    ensures if Reopens(w, s, k) then k in Next(w, s).db.rows && Next(w, s).db.rows[k].requeuedAt == Some(s.since)
            else SameStamp(w, Next(w, s), k)
  {
    assert Next(w, s) == DoRequeueFailed(w, s.job, s.seen, s.since);
  }

  lemma CreateStamp(w: World, s: Step, k: RowKey)
    requires Shape(w) && Enabled(w, s) && s.CreateJob? && k in w.db.rows
    ensures SameStamp(w, Next(w, s), k)
  {
    assert Next(w, s) == DoCreateJob(w, s.newJob, s.domains, s.isFresh, s.owner, s.since);
    CreateJobRows(w, s.newJob, s.domains, s.isFresh, s.owner, s.since);
  }

  lemma OtherStamp(w: World, s: Step, k: RowKey)
    requires Shape(w) && Enabled(w, s) && !s.RequeueFailed? && k in w.db.rows
    ensures SameStamp(w, Next(w, s), k)
  {
    if OneRow(s) {
      OneRowStamp(w, s, k);
    } else if s.CreateJob? {
      CreateStamp(w, s, k);
    } else if ManyRows(s) {
      BulkStamp(w, s, k);
    } else {
      RowsStill(w, s);
    }
  }

  /** Only a retry that reopens a row changes its `requeued_at`, to the start of its transaction. */
  lemma RequeuedStep(w: World, s: Step, k: RowKey)
    requires Shape(w) && Enabled(w, s) && k in w.db.rows
    ensures k in Next(w, s).db.rows
    ensures Next(w, s).db.rows[k].requeuedAt == if Reopens(w, s, k) then Some(s.since) else w.db.rows[k].requeuedAt
  {
    if s.RequeueFailed? {
      RetryStamp(w, s, k);
    } else {
      OtherStamp(w, s, k);
    }
  }

  /** A row's `requeued_at` moves back exactly when a retry reopens it whose transaction began before the stamp. */
  lemma RequeuedAtFallsExactlyIf(ws: seq<World>, ss: seq<Step>, i: nat, k: RowKey)
    requires Run(ws, ss) && i < |ss| && k in ws[i].db.rows && ws[i].db.rows[k].requeuedAt.Some?
    ensures k in ws[i + 1].db.rows && ws[i + 1].db.rows[k].requeuedAt.Some?
    ensures ws[i + 1].db.rows[k].requeuedAt.value < ws[i].db.rows[k].requeuedAt.value <==>
      Reopens(ws[i], ss[i], k) && ss[i].since < ws[i].db.rows[k].requeuedAt.value
  {
    assert StepAt(ws, ss, i);
    RunKeeps(ws, ss, i);
    RequeuedStep(ws[i], ss[i], k);
  }

  /** When the last retry began that reopened row `k` between worlds `i` and `n`; its stamp at `i` without one. */
  ghost function LastRetry(ws: seq<World>, ss: seq<Step>, i: nat, n: nat, k: RowKey): Option<Time>
    requires |ws| == |ss| + 1 && i <= n < |ws| && k in ws[i].db.rows
  {
    if i == n then ws[i].db.rows[k].requeuedAt
    else if Reopens(ws[n - 1], ss[n - 1], k) then Some(ss[n - 1].since)
    else LastRetry(ws, ss, i, n - 1, k)
  }

  lemma {:induction false} RequeuedAtIsLastRetry(ws: seq<World>, ss: seq<Step>, i: nat, n: nat, k: RowKey)
    requires Run(ws, ss) && i <= n < |ws| && k in ws[i].db.rows
    ensures k in ws[n].db.rows && ws[n].db.rows[k].requeuedAt == LastRetry(ws, ss, i, n, k)
    decreases n - i
  {
    if i < n {
      RequeuedAtIsLastRetry(ws, ss, i, n - 1, k);
      assert StepAt(ws, ss, n - 1);
      RunKeeps(ws, ss, n - 1);
      RequeuedStep(ws[n - 1], ss[n - 1], k);
    }
  }

  lemma {:induction false} LastRetryAfter(ws: seq<World>, ss: seq<Step>, i: nat, n: nat, k: RowKey, at: Time)
    requires |ws| == |ss| + 1 && i < n < |ws| && k in ws[i].db.rows && Reopens(ws[i], ss[i], k)
    requires forall m | i <= m < n && Reopens(ws[m], ss[m], k) :: ss[m].since > at
    ensures LastRetry(ws, ss, i, n, k).Some? && LastRetry(ws, ss, i, n, k).value > at
    decreases n - i
  {
    if !Reopens(ws[n - 1], ss[n - 1], k) {
      LastRetryAfter(ws, ss, i, n - 1, k, at);
    }
  }

  /**
   A retry sends back a failure recorded at `failedAt`. When it and every later retry of the row began after that, no
   later recording of the row from a cached failure can have read that one back.
   */
  lemma RetryNeverReadsItsFailureBack(ws: seq<World>, ss: seq<Step>, i: nat, n: nat, k: RowKey, failedAt: Time)
    requires Run(ws, ss) && i < n < |ws| && Reopens(ws[i], ss[i], k)
    requires ws[i].db.rows[k].finishedAt == Some(failedAt)
    requires forall m | i <= m < n && Reopens(ws[m], ss[m], k) :: ss[m].since > failedAt
    requires k in ws[n].db.rows && ws[n].db.rows[k].state.RowDone? && ws[n].db.rows[k].fromCache
    requires ws[n].db.rows[k].result.Some? && ws[n].db.rows[k].result.value.status.FetchFailed?
    ensures k in ws[n].logs && ws[n].logs[k].entryAt.Some? && ws[n].logs[k].entryAt.value > failedAt
  {
    CacheFloor(ws, ss, n, k);
    RequeuedAtIsLastRetry(ws, ss, i, n, k);
    LastRetryAfter(ws, ss, i, n, k, failedAt);
  }

  lemma MoveKeepsCreation(j: Job, j': Job, since: Time)
    requires JobMove(j, j', since)
    ensures j'.createdAt == j.createdAt
  {
  }

  lemma FailureReusableFromFloor(j: Job, e: Domain, notBefore: Option<Time>, now: Time)
    requires e.finishedAt.Some? && e.result.Some? && e.result.value.status.FetchFailed?
    ensures Q.CacheUsable(j, e, notBefore, now) <==> e.finishedAt.value >= Q.Floor(j, notBefore)
  {
  }

  /**
   Right after a retry, and at any later time, the cached failure it retries may be reused for the row exactly if it
   was recorded at or after the start of the retry's transaction.
   */
  lemma RetriedFailureReusableExactlyIf(ws: seq<World>, ss: seq<Step>, i: nat, k: RowKey, e: Domain, now: Time)
    requires Run(ws, ss) && i < |ss| && Reopens(ws[i], ss[i], k)
    requires e.result == ws[i].db.rows[k].result && e.finishedAt == ws[i].db.rows[k].finishedAt && e.finishedAt.Some?
    ensures k in ws[i + 1].db.rows && k.job in ws[i + 1].db.jobs
    ensures Q.CacheUsable(ws[i + 1].db.jobs[k.job], e, ws[i + 1].db.rows[k].requeuedAt, now) <==>
      e.finishedAt.value >= ss[i].since
  {
    assert StepAt(ws, ss, i);
    RunKeeps(ws, ss, i);
    assert RowOk(ws[i], k);
    RunMovesJob(ws, ss, i, k.job);
    MoveKeepsCreation(ws[i].db.jobs[k.job], ws[i + 1].db.jobs[k.job], ss[i].since);
    RequeuedStep(ws[i], ss[i], k);
    FailureReusableFromFloor(ws[i + 1].db.jobs[k.job], e, Some(ss[i].since), now);
  }

  ghost predicate SameEntry(w: World, w': World, d: string)
    requires d in w.db.domains
  {
    && d in w'.db.domains && w'.db.domains[d].result == w.db.domains[d].result
    && w'.db.domains[d].finishedAt == w.db.domains[d].finishedAt
  }

  lemma LockEntries(w: World, s: Step, d: string)
    requires Enabled(w, s) && LockStep(s) && d in w.db.domains
    ensures SameEntry(w, Next(w, s), d)
  {
  }

  lemma RowEntries(w: World, s: Step, d: string)
    requires Enabled(w, s) && (s.ClaimRow? || s.GiveBack?) && d in w.db.domains
    ensures SameEntry(w, Next(w, s), d)
  {
  }

  lemma ManyEntries(w: World, s: Step, d: string)
    requires Enabled(w, s) && ManyRows(s) && d in w.db.domains
    ensures SameEntry(w, Next(w, s), d)
  {
  }

  lemma EntriesKept(w: World, s: Step, d: string)
    requires Enabled(w, s) && d in w.db.domains && !s.Finish?
    ensures SameEntry(w, Next(w, s), d)
  {
    StepKinds(s);
    if HandlerStep(s) {
      HandlerFrame(w, s);
    } else if JobStep(s) {
      JobStepOnlyJobs(w, s);
    } else if LockStep(s) {
      LockEntries(w, s, d);
    } else if OneRow(s) {
      RowEntries(w, s, d);
    } else if ManyRows(s) {
      ManyEntries(w, s, d);
    }
  }

  lemma EntryAfterFinish(w: World, t: Token, since: Time, d: string)
    requires CanFinish(w, t, since) && d in w.db.domains
    ensures d in DoFinish(w, t, since).db.domains
    ensures var e, e' := w.db.domains[d], DoFinish(w, t, since).db.domains[d];
      (e'.result != e.result || e'.finishedAt != e.finishedAt) ==>
        && w.handlers[t].Fetched? && w.claims[t].key.domain == d && Q.Owns(w.db, w.claims[t].key, t)
        && e'.result == Some(w.handlers[t].result) && e'.finishedAt == Some(since)
  {
  }

  /** The shared cache changes only when a claim that ran the pipeline records its result. */
  lemma CacheWrittenOnlyByPipeline(w: World, s: Step, d: string)
    requires Inv(w) && Enabled(w, s) && d in w.db.domains
    ensures d in Next(w, s).db.domains
    ensures var e, e' := w.db.domains[d], Next(w, s).db.domains[d];
      (e'.result != e.result || e'.finishedAt != e.finishedAt) ==>
        && s.Finish? && w.handlers[s.token].Fetched? && s.token in w.started
        && w.claims[s.token].key.domain == d && Q.Owns(w.db, w.claims[s.token].key, s.token)
        && e'.result == Some(w.handlers[s.token].result) && e'.finishedAt == Some(s.since)
  {
    if s.Finish? {
      var t := s.token;
      assert HandlerOk(w, t);
      assert Next(w, s) == DoFinish(w, t, s.since);
      EntryAfterFinish(w, t, s.since, d);
    } else {
      EntriesKept(w, s, d);
    }
  }

  /** ... and every such recording reaches it. */
  lemma PipelineResultPublished(w: World, t: Token, since: Time)
    requires Enabled(w, Finish(t, since)) && w.handlers[t].Fetched?
    requires w.claims[t].key.domain in w.db.domains && Q.Owns(w.db, w.claims[t].key, t)
    ensures var e, r := Next(w, Finish(t, since)).db.domains[w.claims[t].key.domain],
      Next(w, Finish(t, since)).db.rows[w.claims[t].key];
      && e.result == Some(w.handlers[t].result) == r.result
      && e.finishedAt == Some(since) == r.finishedAt
      && r.state.RowDone? && !r.fromCache && e.lockOwner != Some(t)
  {
  }

  // ---- no lock is left behind -----------------------------------------------------------------------

  ghost predicate MayHold(p: Phase) {
    p.Holding? || p.HoldingHit? || p.Fetching? || p.Fetched? || (p.GivingBack? && p.unlock)
  }

  ghost predicate Accounted(w: World, t: Token) {
    t in w.crashed || (t in w.handlers && MayHold(w.handlers[t]))
  }

  /** Every domain lock belongs to a handler still on its way to releasing it, or to a crashed one. */
  ghost predicate LocksAccounted(w: World) {
    forall d | d in w.db.domains && w.db.domains[d].lockOwner.Some? ::
      Accounted(w, w.db.domains[d].lockOwner.value)
  }

  ghost predicate OwnerKept(w: World, w': World, d: string)
    requires d in w'.db.domains
  {
    w'.db.domains[d].lockOwner.Some? ==> d in w.db.domains && w'.db.domains[d].lockOwner == w.db.domains[d].lockOwner
  }

  lemma OneRowOwners(w: World, s: Step, d: string)
    requires Enabled(w, s) && (OneRow(s) || s.Unlock?) && d in Next(w, s).db.domains
    ensures OwnerKept(w, Next(w, s), d)
  {
  }

  lemma ManyOwners(w: World, s: Step, d: string)
    requires Enabled(w, s) && ManyRows(s) && d in Next(w, s).db.domains
    ensures OwnerKept(w, Next(w, s), d)
  {
  }

  lemma OwnersOnlyShrink(w: World, s: Step, d: string)
    requires Enabled(w, s) && !s.TryLock? && d in Next(w, s).db.domains
    ensures OwnerKept(w, Next(w, s), d)
  {
    StepKinds(s);
    if HandlerStep(s) {
      HandlerFrame(w, s);
    } else if JobStep(s) {
      JobStepOnlyJobs(w, s);
    } else if OneRow(s) || LockStep(s) {
      OneRowOwners(w, s, d);
    } else if ManyRows(s) {
      ManyOwners(w, s, d);
    }
  }

  lemma HandlerAccounted(w: World, s: Step, u: Token)
    requires Enabled(w, s) && Accounted(w, u) && HandlerStep(s)
    ensures Accounted(Next(w, s), u)
  {
  }

  lemma OneRowAccounted(w: World, s: Step, u: Token)
    requires Enabled(w, s) && Accounted(w, u) && OneRow(s) && u != s.token
    ensures Accounted(Next(w, s), u)
  {
  }

  lemma OthersAccounted(w: World, s: Step, u: Token)
    requires Enabled(w, s) && Accounted(w, u)
    requires s.ClaimRow? || s.TryLock? || s.Finish? || s.GiveBack? || s.Unlock? ==> u != s.token
    ensures Accounted(Next(w, s), u)
  {
    StepKinds(s);
    if HandlerStep(s) {
      HandlerAccounted(w, s, u);
    } else if JobStep(s) {
      JobStepOnlyJobs(w, s);
    } else if LockStep(s) {
      LockFrame(w, s);
    } else if OneRow(s) {
      OneRowAccounted(w, s, u);
    } else if ManyRows(s) {
      ManyRowsFrame(w, s);
    }
  }

  /** A handler that finishes, gives back or unlocks leaves no lock of its own behind. */
  lemma OwnLockReleased(w: World, s: Step, d: string)
    requires Enabled(w, s) && (s.Finish? || s.Unlock?) && d in w.db.domains && w.claims[s.token].key.domain == d
    ensures d in Next(w, s).db.domains && Next(w, s).db.domains[d].lockOwner != Some(s.token)
  {
  }

  lemma LockAccountedKept(w: World, s: Step, d: string)
    requires LocksInv(w) && LocksAccounted(w) && Enabled(w, s) && (s.ClaimRow? ==> s.token !in w.handlers)
    requires d in Next(w, s).db.domains && Next(w, s).db.domains[d].lockOwner.Some?
    ensures Accounted(Next(w, s), Next(w, s).db.domains[d].lockOwner.value)
  {
    var u := Next(w, s).db.domains[d].lockOwner.value;
    if s.TryLock? {
      TryLockAccounted(w, s.token, d);
    } else {
      OwnersOnlyShrink(w, s, d);
      assert Accounted(w, u);
      assert LockOk(w, d);
      if (s.Finish? || s.Unlock?) && u == s.token {
        OwnLockReleased(w, s, d);
      } else if !s.GiveBack? || u != s.token {
        OthersAccounted(w, s, u);
      }
    }
  }

  lemma TryLockAccounted(w: World, t: Token, d: string)
    requires LocksInv(w) && LocksAccounted(w) && Enabled(w, TryLock(t))
    requires d in Next(w, TryLock(t)).db.domains && Next(w, TryLock(t)).db.domains[d].lockOwner.Some?
    ensures Accounted(Next(w, TryLock(t)), Next(w, TryLock(t)).db.domains[d].lockOwner.value)
  {
    var u := Next(w, TryLock(t)).db.domains[d].lockOwner.value;
    if d in w.db.domains {
      assert LockOk(w, d);
    }
    if u != t {
      assert d in w.db.domains && w.db.domains[d].lockOwner == Some(u);
      LockFrame(w, TryLock(t));
    }
  }

  lemma LocksAccountedKept(w: World, s: Step)
    requires Inv(w) && LocksAccounted(w) && Enabled(w, s)
    ensures LocksAccounted(Next(w, s))
  {
    forall d | d in Next(w, s).db.domains && Next(w, s).db.domains[d].lockOwner.Some?
      ensures Accounted(Next(w, s), Next(w, s).db.domains[d].lockOwner.value)
    {
      LockAccountedKept(w, s, d);
    }
  }

  lemma {:induction false} NoLockLeftBehind(ws: seq<World>, ss: seq<Step>, i: nat)
    requires Run(ws, ss) && i < |ws|
    ensures LocksAccounted(ws[i])
  {
    if i > 0 {
      assert StepAt(ws, ss, i - 1);
      NoLockLeftBehind(ws, ss, i - 1);
      RunKeeps(ws, ss, i - 1);
      LocksAccountedKept(ws[i - 1], ss[i - 1]);
    }
  }
}
