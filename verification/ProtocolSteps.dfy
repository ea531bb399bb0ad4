/**
 Each kind of step of the protocol keeps the invariant. The sections follow the steps: handlers moving between two
 transactions, changes to jobs alone, the clock, a new job, claims, the domain lock, rows given back, reaped, released
 and renewed, a recorded result, a retry.

 Most sections have the same parts. `Quiet` and `Still` say what the step leaves alone, `Undisturbed` that the handlers
 still fit what they know, the lemmas named after rows, locks and jobs that each part of the invariant holds after the
 step, and `Keeps` puts them together.
 */
module ProtocolSteps {
  import opened Tables
  import opened Protocol
  import opened ProtocolInv
  import opened ProtocolMoves
  import Q = QueueSpec

  // ---- a handler moves between two transactions ------------------------------------------------

  ghost predicate OnlyHandler(w: World, w': World, t: Token) {
    && w' == w.(handlers := w'.handlers, started := w'.started, crashed := w'.crashed)
    && (w'.handlers == w.handlers - {t} || (t in w'.handlers && w'.handlers == w.handlers[t := w'.handlers[t]]))
    && (w'.started == w.started || w'.started == w.started + {t})
  }

  lemma HandlerStepHandlers(w: World, w': World, t: Token)
    requires Shape(w) && HandlersInv(w) && At(w, t) && OnlyHandler(w, w', t)
    requires w'.started != w.started ==> w.claims[t].attempts <= MAX_CLAIMS
    requires t in w'.handlers ==> HandlerInv(w', t, w.claims[t], w'.handlers[t], w.db.jobs[w.claims[t].key.job])
    ensures Shape(w') && HandlersInv(w')
  {
    forall u | u in w'.handlers
      ensures HandlerOk(w', u)
    {
      assert u in w.handlers;
      assert HandlerOk(w, u);
    }
  }

  lemma HandlerStepQuiet(w: World, w': World, t: Token)
    requires Shape(w) && At(w, t) && OnlyHandler(w, w', t)
    ensures Quiet(w, w') && JobsStill(w, w')
  {
  }

  ghost predicate PhaseFits(w: World, t: Token, p: Phase)
    requires At(w, t)
  {
    HandlerInv(w, t, w.claims[t], p, w.db.jobs[w.claims[t].key.job])
  }

  lemma PhaseNow(w: World, t: Token)
    requires Shape(w) && HandlersInv(w) && At(w, t)
    ensures PhaseFits(w, t, w.handlers[t])
  {
    assert HandlerOk(w, t);
  }

  lemma OnlyHandlerKeeps(w: World, w': World, t: Token)
    requires Inv(w) && At(w, t) && OnlyHandler(w, w', t)
    requires w'.started != w.started ==> w.claims[t].attempts <= MAX_CLAIMS
    requires t in w'.handlers ==> HandlerInv(w', t, w.claims[t], w'.handlers[t], w.db.jobs[w.claims[t].key.job])
    ensures Inv(w')
  {
    HandlerStepHandlers(w, w', t);
    HandlerStepQuiet(w, w', t);
    QuietKeeps(w, w');
    StillJobsKept(w, w');
  }

  lemma SetPhaseKeeps(w: World, t: Token, p: Phase)
    requires Inv(w) && At(w, t) && PhaseFits(w, t, p)
    ensures Inv(w.(handlers := w.handlers[t := p]))
  {
    OnlyHandlerKeeps(w, w.(handlers := w.handlers[t := p]), t);
  }

  lemma OpenFits(w: World, t: Token)
    requires At(w, t) && w.handlers[t].Claimed? && PhaseFits(w, t, w.handlers[t])
    ensures PhaseFits(w, t, Opened(w.now))
  {
  }

  lemma OpenKeeps(w: World, t: Token)
    requires Inv(w) && Enabled(w, Open(t))
    ensures Inv(Next(w, Open(t)))
  {
    PhaseNow(w, t);
    OpenFits(w, t);
    SetPhaseKeeps(w, t, Opened(w.now));
  }

  lemma AfterReadFits(w: World, t: Token, readable: bool)
    requires At(w, t) && w.handlers[t].Opened? && PhaseFits(w, t, w.handlers[t])
    ensures PhaseFits(w, t, AfterRead(w, t, readable))
  {
  }

  lemma ReadKeeps(w: World, t: Token, readable: bool)
    requires Inv(w) && Enabled(w, ReadCache(t, readable))
    ensures Inv(Next(w, ReadCache(t, readable)))
  {
    PhaseNow(w, t);
    AfterReadFits(w, t, readable);
    SetPhaseKeeps(w, t, AfterRead(w, t, readable));
  }

  lemma ReadLockedFits(w: World, t: Token, readable: bool)
    requires At(w, t) && w.handlers[t].Holding? && PhaseFits(w, t, w.handlers[t])
    ensures var w' := DoReadLocked(w, t, readable);
      && OnlyHandler(w, w', t) && (w'.started != w.started ==> w.claims[t].attempts <= MAX_CLAIMS)
      && HandlerInv(w', t, w.claims[t], w'.handlers[t], w.db.jobs[w.claims[t].key.job])
  {
  }

  lemma ReadLockedKeeps(w: World, t: Token, readable: bool)
    requires Inv(w) && Enabled(w, ReadCacheLocked(t, readable))
    ensures Inv(Next(w, ReadCacheLocked(t, readable)))
  {
    PhaseNow(w, t);
    ReadLockedFits(w, t, readable);
    OnlyHandlerKeeps(w, DoReadLocked(w, t, readable), t);
  }

  lemma PipelineFits(w: World, t: Token, r: DomainResult)
    requires At(w, t) && w.handlers[t].Fetching? && PhaseFits(w, t, w.handlers[t])
    ensures PhaseFits(w, t, AfterPipeline(w.claims[t], r, w.now))
  {
  }

  lemma PipelineKeeps(w: World, t: Token, r: DomainResult)
    requires Inv(w) && Enabled(w, PipelineReturns(t, r))
    ensures Inv(Next(w, PipelineReturns(t, r)))
  {
    PhaseNow(w, t);
    PipelineFits(w, t, r);
    SetPhaseKeeps(w, t, AfterPipeline(w.claims[t], r, w.now));
  }

  lemma GivingBackFits(w: World, t: Token, delay: Time, counted: bool)
    requires At(w, t) && PhaseFits(w, t, w.handlers[t])
    ensures PhaseFits(w, t, GivingBack(delay, counted, true))
  {
  }

  lemma GivingBackKeeps(w: World, t: Token, delay: Time, counted: bool)
    requires Inv(w) && At(w, t)
    ensures Inv(w.(handlers := w.handlers[t := GivingBack(delay, counted, true)]))
  {
    PhaseNow(w, t);
    GivingBackFits(w, t, delay, counted);
    SetPhaseKeeps(w, t, GivingBack(delay, counted, true));
  }

  lemma FailKeeps(w: World, t: Token)
    requires Inv(w) && At(w, t)
    ensures Inv(Next(w, Fail(t)))
  {
    assert Next(w, Fail(t)) == w.(handlers := w.handlers[t := GivingBack(ERROR_RETRY_DELAY_S, true, true)]);
    GivingBackKeeps(w, t, ERROR_RETRY_DELAY_S, true);
  }

  lemma AccountErrorKeeps(w: World, t: Token)
    requires Inv(w) && At(w, t) && w.handlers[t].Fetching?
    ensures Inv(Next(w, AccountError(t)))
  {
    assert Next(w, AccountError(t)) == w.(handlers := w.handlers[t := GivingBack(0.0, false, true)]);
    GivingBackKeeps(w, t, 0.0, false);
  }

  lemma CrashKeeps(w: World, t: Token)
    requires Inv(w) && At(w, t)
    ensures Inv(Next(w, Crash(t)))
  {
    var w' := Next(w, Crash(t));
    assert w' == w.(handlers := w.handlers - {t}, crashed := w.crashed + {t});
    assert OnlyHandler(w, w', t) && t !in w'.handlers;
    OnlyHandlerKeeps(w, w', t);
  }

  ghost predicate ReadStep(s: Step) {
    s.Open? || s.ReadCache? || s.ReadCacheLocked? || s.PipelineReturns?
  }

  lemma ReadStepsKeep(w: World, s: Step)
    requires Inv(w) && Enabled(w, s) && ReadStep(s)
    ensures Inv(Next(w, s))
  {
    var t := s.token;
    if s.Open? {
      assert s == Open(t);
      OpenKeeps(w, t);
    } else if s.ReadCache? {
      assert s == ReadCache(t, s.readable);
      ReadKeeps(w, t, s.readable);
    } else if s.ReadCacheLocked? {
      assert s == ReadCacheLocked(t, s.readable);
      ReadLockedKeeps(w, t, s.readable);
    } else {
      assert s == PipelineReturns(t, s.result);
      PipelineKeeps(w, t, s.result);
    }
  }

  ghost predicate ErrorStep(s: Step) {
    s.AccountError? || s.Fail? || s.Crash?
  }

  lemma ErrorStepsKeep(w: World, s: Step)
    requires Inv(w) && Enabled(w, s) && ErrorStep(s)
    ensures Inv(Next(w, s))
  {
    var t := s.token;
    if s.AccountError? {
      assert s == AccountError(t);
      AccountErrorKeeps(w, t);
    } else if s.Fail? {
      assert s == Fail(t);
      FailKeeps(w, t);
    } else {
      assert s == Crash(t);
      CrashKeeps(w, t);
    }
  }

  lemma HandlerFrame(w: World, s: Step)
    requires Enabled(w, s) && (ReadStep(s) || ErrorStep(s))
    ensures var w' := Next(w, s); w' == w.(handlers := w'.handlers, started := w'.started, crashed := w'.crashed)
  {
  }

  // ---- a job changes status, the rows stay ------------------------------------------------------

  ghost predicate JobStep(s: Step) {
    s.Sweep? || s.PauseActive? || s.Resume? || s.ResumeFor? || s.CompleteIfFinished? || s.Cancel?
  }

  ghost predicate OnlyJobs(w: World, w': World) {
    && w' == w.(db := w'.db, owed := w'.owed)
    && w'.db.rows == w.db.rows && w'.db.domains == w.db.domains && w'.db.jobs.Keys == w.db.jobs.Keys
  }

  lemma ResumeOnlyJobs(w: World, s: Step)
    requires (s.Resume? || s.ResumeFor?) && Enabled(w, s)
    ensures OnlyJobs(w, Next(w, s))
  {
  }

  lemma EndOnlyJobs(w: World, s: Step)
    requires JobStep(s) && !s.Resume? && !s.ResumeFor? && Enabled(w, s)
    ensures OnlyJobs(w, Next(w, s))
  {
  }

  lemma JobStepOnlyJobs(w: World, s: Step)
    requires JobStep(s) && Enabled(w, s)
    ensures OnlyJobs(w, Next(w, s))
  {
    if s.Resume? || s.ResumeFor? {
      ResumeOnlyJobs(w, s);
    } else {
      EndOnlyJobs(w, s);
    }
  }

  ghost predicate JobStepped(w: World, job: Job, job': Job, j: JobId, owed: set<JobId>, since: Time) {
    && JobMove(job, job', since)
    && job'.startedAt == job.startedAt
    && (job'.status.Done? ==> !Q.HasOpen(w.db.rows, j) || j in w.stranded)
    && (Q.Active(job') ==> Q.HasOpen(w.db.rows, j) || j in owed)
  }

  ghost predicate StepsJob(w: World, s: Step, j: JobId)
    requires Enabled(w, s) && JobStep(s) && j in w.db.jobs
  {
    j in Next(w, s).db.jobs && JobStepped(w, w.db.jobs[j], Next(w, s).db.jobs[j], j, Next(w, s).owed, s.since)
  }

  lemma PauseMove(w: World, r: string, j: JobId, since: Time)
    requires j in w.db.jobs && JobInv(w, j)
    ensures JobStepped(w, w.db.jobs[j], Q.PausedJob(w.db.jobs[j], r, since), j, w.owed, since)
  {
    if Q.Active(w.db.jobs[j]) {
      assert Q.PausedJob(w.db.jobs[j], r, since).pauseReason == Some(r);
    }
  }

  lemma CancelMove(w: World, c: JobId, j: JobId, since: Time)
    requires j in w.db.jobs && JobInv(w, j)
    ensures JobStepped(w, w.db.jobs[j], Q.Cancel(w.db, c, since).jobs[j], j, w.owed, since)
  {
  }

  /** The sweep, and the check of one job. */
  lemma CompleteMove(w: World, j: JobId, job': Job, owed: set<JobId>, since: Time)
    requires j in w.db.jobs && JobInv(w, j)
    requires job' == if Q.Active(w.db.jobs[j]) && !Q.HasOpen(w.db.rows, j)
      then Q.CompletedJob(w.db.jobs[j], |Q.RowsOf(w.db.rows, j)|, since) else w.db.jobs[j]
    ensures JobStepped(w, w.db.jobs[j], job', j, owed, since)
  {
  }

  lemma UncheckedMove(w: World, j: JobId, owed: set<JobId>, since: Time)
    requires j in w.db.jobs && JobInv(w, j)
    requires j in w.owed ==> j in owed
    ensures JobStepped(w, w.db.jobs[j], w.db.jobs[j], j, owed, since)
  {
  }

  lemma PauseStep(w: World, r: string, j: JobId, since: Time)
    requires j in w.db.jobs && JobInv(w, j) && since <= w.now
    ensures StepsJob(w, PauseActive(r, since), j)
  {
    assert Next(w, PauseActive(r, since)).db.jobs[j] == Q.PausedJob(w.db.jobs[j], r, since);
    PauseMove(w, r, j, since);
  }

  lemma CancelStep(w: World, c: JobId, j: JobId, since: Time)
    requires j in w.db.jobs && JobInv(w, j) && since <= w.now
    ensures StepsJob(w, Cancel(c, since), j)
  {
    CancelMove(w, c, j, since);
  }

  lemma SweepStep(w: World, j: JobId, since: Time)
    requires j in w.db.jobs && JobInv(w, j) && since <= w.now
    ensures StepsJob(w, Sweep(since), j)
  {
    CompleteMove(w, j, Next(w, Sweep(since)).db.jobs[j], {}, since);
  }

  lemma CheckStep(w: World, c: JobId, j: JobId, since: Time)
    requires j in w.db.jobs && JobInv(w, j) && since <= w.now
    ensures StepsJob(w, CompleteIfFinished(c, since), j)
  {
    if c == j {
      CompleteMove(w, j, Next(w, CompleteIfFinished(c, since)).db.jobs[j], w.owed - {j}, since);
    } else {
      UncheckedMove(w, j, w.owed - {c}, since);
    }
  }

  lemma ResumedMove(w: World, j: JobId, owed: set<JobId>, since: Time)
    requires j in w.db.jobs && JobInv(w, j) && w.db.jobs[j].status.Paused? && j in owed
    ensures JobStepped(w, w.db.jobs[j], Q.ResumedJob(w.db.jobs[j], since), j, owed, since)
  {
  }

  lemma ResumeStep(w: World, c: JobId, j: JobId, since: Time)
    requires j in w.db.jobs && JobInv(w, j) && since <= w.now
    ensures StepsJob(w, Resume(c, since), j)
  {
    var w' := Next(w, Resume(c, since));
    if c == j && w.db.jobs[j].status.Paused? {
      ResumedMove(w, j, w'.owed, since);
    } else {
      UncheckedMove(w, j, w'.owed, since);
    }
  }

  lemma ResumeForStep(w: World, r: string, j: JobId, since: Time)
    requires j in w.db.jobs && JobInv(w, j) && since <= w.now
    ensures StepsJob(w, ResumeFor(r, since), j)
  {
    var w' := Next(w, ResumeFor(r, since));
    if Q.PausedFor(w.db.jobs[j], r) {
      ResumedMove(w, j, w'.owed, since);
    } else {
      UncheckedMove(w, j, w'.owed, since);
    }
  }

  lemma JobStepMove(w: World, s: Step, j: JobId)
    requires Enabled(w, s) && JobStep(s) && j in w.db.jobs && JobInv(w, j)
    ensures StepsJob(w, s, j)
  {
    match s
    case PauseActive(r, since) => PauseStep(w, r, j, since);
    case Cancel(c, since) => CancelStep(w, c, j, since);
    case Sweep(since) => SweepStep(w, j, since);
    case CompleteIfFinished(c, since) => CheckStep(w, c, j, since);
    case Resume(c, since) => ResumeStep(w, c, j, since);
    case ResumeFor(r, since) => ResumeForStep(w, r, j, since);
  }

  lemma JobSteppedKeeps(w: World, w': World, j: JobId, since: Time)
    requires Shape(w) && Shape(w') && OnlyJobs(w, w') && j in w.db.jobs && JobInv(w, j)
    requires JobStepped(w, w.db.jobs[j], w'.db.jobs[j], j, w'.owed, since)
    ensures JobInv(w', j) && JobKept(w.db.jobs[j], w'.db.jobs[j])
  {
    JobKeeps(w, w', j, since);
  }

  lemma JobStepOne(w: World, w': World, s: Step, j: JobId)
    requires Shape(w) && Shape(w') && OnlyJobs(w, w') && JobStep(s) && Enabled(w, s) && w' == Next(w, s)
    requires j in w.db.jobs && JobInv(w, j)
    ensures JobInv(w', j) && JobKept(w.db.jobs[j], w'.db.jobs[j])
  {
    JobStepMove(w, s, j);
    JobSteppedKeeps(w, w', j, s.since);
  }

  lemma OnlyJobsShape(w: World, w': World)
    requires Shape(w) && OnlyJobs(w, w')
    ensures Shape(w')
  {
  }

  lemma JobStepJobs(w: World, w': World, s: Step)
    requires Shape(w) && JobsInv(w) && JobStep(s) && Enabled(w, s) && w' == Next(w, s) && OnlyJobs(w, w') && Shape(w')
    ensures JobsInv(w') && AllJobsKept(w, w')
  {
    forall j | j in w.db.jobs
      ensures JobInv(w', j) && JobKept(w.db.jobs[j], w'.db.jobs[j])
    {
      assert JobInv(w, j);
      JobStepOne(w, w', s, j);
    }
  }

  lemma OnlyJobsQuiet(w: World, w': World)
    requires Shape(w) && Shape(w') && OnlyJobs(w, w') && AllJobsKept(w, w')
    ensures Quiet(w, w')
  {
  }

  lemma OnlyJobsUndisturbed(w: World, w': World)
    requires Shape(w) && OwnTokens(w) && Shape(w') && OnlyJobs(w, w')
    ensures Undisturbed(w, w')
  {
  }

  lemma JobStepsKeep(w: World, s: Step)
    requires Inv(w) && JobStep(s) && Enabled(w, s)
    ensures Inv(Next(w, s))
  {
    var w' := Next(w, s);
    HandlersOwnTokens(w);
    JobStepOnlyJobs(w, s);
    OnlyJobsShape(w, w');
    JobStepJobs(w, w', s);
    OnlyJobsQuiet(w, w');
    OnlyJobsUndisturbed(w, w');
    QuietKeeps(w, w');
    HandlersKept(w, w');
  }

  // ---- time passes ------------------------------------------------------------------------------

  lemma TickHandlers(w: World, dt: Time)
    requires Shape(w) && HandlersInv(w) && dt > 0.0
    ensures Shape(DoTick(w, dt)) && HandlersInv(DoTick(w, dt))
  {
    var w' := DoTick(w, dt);
    forall u | u in w'.handlers
      ensures HandlerOk(w', u)
    {
      assert HandlerOk(w, u);
    }
  }

  lemma TickQuiet(w: World, dt: Time)
    requires Shape(w) && dt > 0.0
    ensures Quiet(w, DoTick(w, dt))
  {
  }

  lemma TickKeeps(w: World, dt: Time)
    requires Inv(w) && dt > 0.0
    ensures Inv(DoTick(w, dt))
  {
    TickQuiet(w, dt);
    QuietKeeps(w, DoTick(w, dt));
    TickHandlers(w, dt);
    StillJobsKept(w, DoTick(w, dt));
  }

  // ---- a job is created ---------------------------------------------------------------------------

  lemma CreateJobRows(w: World, j: JobId, ds: seq<string>, isFresh: bool, owner: Option<int>, since: Time)
    requires Shape(w) && j !in w.db.jobs
    ensures var w' := DoCreateJob(w, j, ds, isFresh, owner, since);
      && w'.logs.Keys == w'.db.rows.Keys == w.db.rows.Keys + Q.JobKeys(j, ds)
      && (forall k | k in w.db.rows :: k.job != j && w'.db.rows[k] == w.db.rows[k] && w'.logs[k] == w.logs[k])
      && (forall k | k in w'.db.rows && k !in w.db.rows :: k.job == j && RowBorn(w'.db.rows[k], w'.logs[k]))
  {
    assert forall k | k in w.db.rows :: k.job != j;
  }

  lemma CreateJobQuiet(w: World, j: JobId, ds: seq<string>, isFresh: bool, owner: Option<int>, since: Time)
    requires Shape(w) && j !in w.db.jobs && since <= w.now
    ensures Quiet(w, DoCreateJob(w, j, ds, isFresh, owner, since))
  {
    CreateJobRows(w, j, ds, isFresh, owner, since);
    var w' := DoCreateJob(w, j, ds, isFresh, owner, since);
    assert Shape(w');
    assert RowsMove(w, w');
  }

  lemma CreateJobUndisturbed(w: World, j: JobId, ds: seq<string>, isFresh: bool, owner: Option<int>, since: Time)
    requires Shape(w) && OwnTokens(w) && j !in w.db.jobs
    ensures Undisturbed(w, DoCreateJob(w, j, ds, isFresh, owner, since))
  {
    CreateJobRows(w, j, ds, isFresh, owner, since);
  }

  lemma CreateJobOpen(w: World, j: JobId, ds: seq<string>, isFresh: bool, owner: Option<int>, since: Time, i: JobId)
    requires Shape(w) && j !in w.db.jobs
    ensures Q.HasOpen(DoCreateJob(w, j, ds, isFresh, owner, since).db.rows, i) ==
      if i == j then ds != [] else Q.HasOpen(w.db.rows, i)
  {
    var w' := DoCreateJob(w, j, ds, isFresh, owner, since);
    CreateJobRows(w, j, ds, isFresh, owner, since);
    if i == j && ds != [] {
      var k := RowKey(j, ds[0]);
      assert k in w'.db.rows && k !in w.db.rows && RowBorn(w'.db.rows[k], w'.logs[k]);
    }
  }

  lemma NewJobSound(empty: bool, isFresh: bool, owner: Option<int>, now: Time, owed: bool)
    ensures StatusInv(Q.NewJob(empty, isFresh, owner, now), !empty, owed, false)
  {
  }

  lemma CreateJobJob(w: World, j: JobId, ds: seq<string>, isFresh: bool, owner: Option<int>, since: Time, i: JobId)
    requires Shape(w) && j !in w.db.jobs && (i in w.db.jobs ==> JobInv(w, i)) && (i in w.db.jobs || i == j)
    requires Shape(DoCreateJob(w, j, ds, isFresh, owner, since))
    ensures JobInv(DoCreateJob(w, j, ds, isFresh, owner, since), i)
  {
    CreateJobOpen(w, j, ds, isFresh, owner, since, i);
    NewJobSound(ds == [], isFresh, owner, since, j in w.owed);
    if i != j {
      assert JobInv(w, i);
    }
  }

  lemma CreateJobJobs(w: World, j: JobId, ds: seq<string>, isFresh: bool, owner: Option<int>, since: Time)
    requires Shape(w) && JobsInv(w) && j !in w.db.jobs && Shape(DoCreateJob(w, j, ds, isFresh, owner, since))
    ensures JobsInv(DoCreateJob(w, j, ds, isFresh, owner, since))
  {
    forall i | i in DoCreateJob(w, j, ds, isFresh, owner, since).db.jobs
      ensures JobInv(DoCreateJob(w, j, ds, isFresh, owner, since), i)
    {
      assert i in w.db.jobs ==> JobInv(w, i);
      CreateJobJob(w, j, ds, isFresh, owner, since, i);
    }
  }

  lemma CreateJobKeeps(w: World, j: JobId, ds: seq<string>, isFresh: bool, owner: Option<int>, since: Time)
    requires Inv(w) && j !in w.db.jobs && since <= w.now
    ensures Inv(DoCreateJob(w, j, ds, isFresh, owner, since))
  {
    var w' := DoCreateJob(w, j, ds, isFresh, owner, since);
    HandlersOwnTokens(w);
    CreateJobQuiet(w, j, ds, isFresh, owner, since);
    CreateJobUndisturbed(w, j, ds, isFresh, owner, since);
    QuietKeeps(w, w');
    HandlersKept(w, w');
    CreateJobJobs(w, j, ds, isFresh, owner, since);
  }

  // ---- a row is claimed ---------------------------------------------------------------------------

  lemma ClaimStill(w: World, k: RowKey, t: Token, since: Time)
    requires Shape(w) && CanClaim(w, k, t, since)
    ensures var w' := DoClaim(w, k, t, since);
      Shape(w') && SameElsewhere(w, w', k) && Extends(w.claims, w'.claims)
  {
  }

  lemma ClaimKept(w: World, k: RowKey, t: Token, since: Time)
    requires Shape(w) && CanClaim(w, k, t, since)
    ensures var w' := DoClaim(w, k, t, since);
      AllJobsKept(w, w') && NoBeat(w, w') && LocksShrink(w, w')
  {
  }

  lemma ClaimMovesRow(w: World, k: RowKey, t: Token, since: Time)
    requires Shape(w) && CanClaim(w, k, t, since) && Shape(DoClaim(w, k, t, since))
    ensures RowMove(w, DoClaim(w, k, t, since), k)
  {
    var w' := DoClaim(w, k, t, since);
    assert RowClaimed(w, w', k, w.db.rows[k], w.logs[k], w'.db.rows[k], w'.logs[k]);
  }

  lemma ClaimQuiet(w: World, k: RowKey, t: Token, since: Time)
    requires Shape(w) && CanClaim(w, k, t, since)
    ensures Quiet(w, DoClaim(w, k, t, since))
  {
    ClaimStill(w, k, t, since);
    ClaimKept(w, k, t, since);
    ClaimMovesRow(w, k, t, since);
    OnlyOneMoves(w, DoClaim(w, k, t, since), k);
  }

  lemma ClaimOwnJob(w: World, k: RowKey, t: Token, since: Time)
    requires Shape(w) && CanClaim(w, k, t, since) && Shape(DoClaim(w, k, t, since)) && JobInv(w, k.job)
    ensures JobInv(DoClaim(w, k, t, since), k.job)
  {
    var w' := DoClaim(w, k, t, since);
    assert Q.HasOpen(w.db.rows, k.job) by { assert Q.Open(w.db.rows[k]); }
    assert Q.HasOpen(w'.db.rows, k.job) by { assert Q.Open(w'.db.rows[k]); }
    JobKeeps(w, w', k.job, since);
  }

  lemma ClaimOtherJob(w: World, k: RowKey, t: Token, since: Time, j: JobId)
    requires Shape(w) && CanClaim(w, k, t, since) && Shape(DoClaim(w, k, t, since))
    requires j in w.db.jobs && JobInv(w, j) && j != k.job
    ensures JobInv(DoClaim(w, k, t, since), j)
  {
    SameOpen(w.db.rows, DoClaim(w, k, t, since).db.rows, j);
  }

  lemma ClaimJobs(w: World, k: RowKey, t: Token, since: Time)
    requires Shape(w) && JobsInv(w) && CanClaim(w, k, t, since) && Shape(DoClaim(w, k, t, since))
    ensures JobsInv(DoClaim(w, k, t, since))
  {
    forall j | j in w.db.jobs ensures JobInv(DoClaim(w, k, t, since), j) {
      assert JobInv(w, j);
      if j == k.job {
        ClaimOwnJob(w, k, t, since);
      } else {
        ClaimOtherJob(w, k, t, since, j);
      }
    }
  }

  lemma ClaimHandlers(w: World, k: RowKey, t: Token, since: Time)
    requires Shape(w) && HandlersInv(w) && CanClaim(w, k, t, since) && Shape(DoClaim(w, k, t, since))
    requires w.db.jobs[k.job].createdAt <= w.now
    ensures HandlersInv(DoClaim(w, k, t, since))
  {
    var w' := DoClaim(w, k, t, since);
    forall u | u in w'.handlers
      ensures HandlerOk(w', u)
    {
      if u != t {
        assert HandlerOk(w, u);
        ClaimOther(w, k, t, since, u);
      }
    }
  }

  lemma ClaimOther(w: World, k: RowKey, t: Token, since: Time, u: Token)
    requires Shape(w) && CanClaim(w, k, t, since) && Shape(DoClaim(w, k, t, since))
    requires u in w.handlers && u != t && HandlerOk(w, u)
    ensures HandlerOk(DoClaim(w, k, t, since), u)
  {
    var w', j := DoClaim(w, k, t, since), w.claims[u].key.job;
    HandlerKept(w, w', u, w.claims[u], w.handlers[u], w.db.jobs[j], w'.db.jobs[j]);
  }

  lemma ClaimKeeps(w: World, k: RowKey, t: Token, since: Time)
    requires Inv(w) && CanClaim(w, k, t, since)
    ensures Inv(DoClaim(w, k, t, since))
  {
    assert RowOk(w, k);
    ClaimQuiet(w, k, t, since);
    QuietKeeps(w, DoClaim(w, k, t, since));
    ClaimHandlers(w, k, t, since);
    ClaimJobs(w, k, t, since);
  }

  // ---- the domain lock is taken and released ----------------------------------------------------------

  ghost predicate LockIsFree(w: World, t: Token)
    requires At(w, t) && w.handlers[t].Missed?
  {
    Q.LockFree(Q.Entry(w.db, w.claims[t].key.domain), w.handlers[t].since)
  }

  lemma TryLockTaken(w: World, t: Token)
    requires Shape(w) && At(w, t) && w.handlers[t].Missed? && LockIsFree(w, t) && w.handlers[t].since <= w.now
    requires Q.Owns(w.db, w.claims[t].key, t) && w.db.rows[w.claims[t].key].heartbeatAt.Some? ==>
      w.db.rows[w.claims[t].key].heartbeatAt.value <= w.now
    ensures var w', d := DoTryLock(w, t), w.claims[t].key.domain;
      d in w'.db.domains && LockInv(w', d, w'.db.domains[d])
  {
  }

  /** A lock is as sound as before where its entry, its claim's row and its taking are the same. */
  lemma SameLock(w: World, w': World, d: string, e: Domain)
    requires Shape(w) && LockInv(w, d, e) && w'.claims == w.claims && w'.db.rows == w.db.rows && w'.now == w.now
    requires e.lockOwner.Some? && e.lockOwner.value in w.lockings ==>
      e.lockOwner.value in w'.lockings && w'.lockings[e.lockOwner.value] == w.lockings[e.lockOwner.value]
    ensures LockInv(w', d, e)
  {
  }

  lemma TryLockLeaves(w: World, t: Token, x: string)
    requires At(w, t) && w.handlers[t].Missed? && x in DoTryLock(w, t).db.domains
    requires x == w.claims[t].key.domain ==> !LockIsFree(w, t)
    ensures var w' := DoTryLock(w, t);
      && w'.db.domains[x] == Q.Entry(w.db, x) && w'.claims == w.claims && w'.db.rows == w.db.rows && w'.now == w.now
      && w'.lockings == if LockIsFree(w, t) then w.lockings[t := Locking(w.handlers[t].since, w.now)] else w.lockings
  {
  }

  lemma TryLockElsewhere(w: World, t: Token, x: string)
    requires Shape(w) && At(w, t) && w.handlers[t].Missed? && x in DoTryLock(w, t).db.domains
    requires LockInv(w, x, Q.Entry(w.db, x)) && (x == w.claims[t].key.domain ==> !LockIsFree(w, t))
    ensures LockInv(DoTryLock(w, t), x, DoTryLock(w, t).db.domains[x])
  {
    TryLockLeaves(w, t, x);
    SameLock(w, DoTryLock(w, t), x, Q.Entry(w.db, x));
  }

  lemma TryLockLocks(w: World, t: Token)
    requires Shape(w) && LocksInv(w) && At(w, t) && w.handlers[t].Missed? && w.handlers[t].since <= w.now
    requires Q.Owns(w.db, w.claims[t].key, t) && w.db.rows[w.claims[t].key].heartbeatAt.Some? ==>
      w.db.rows[w.claims[t].key].heartbeatAt.value <= w.now
    ensures LocksInv(DoTryLock(w, t))
  {
    var w', d := DoTryLock(w, t), w.claims[t].key.domain;
    forall x | x in w'.db.domains ensures LockOk(w', x) {
      if x == d && LockIsFree(w, t) {
        TryLockTaken(w, t);
      } else {
        assert x in w.db.domains ==> LockOk(w, x);
        TryLockElsewhere(w, t, x);
      }
    }
  }

  /** A lock that has not run out is not free, whenever the transaction that asks had begun. */
  lemma FreshLockIsNotFree(w: World, c: Claim, since: Time)
    requires HoldsFreshLock(w, c) && since <= w.now
    ensures !Q.LockFree(Q.Entry(w.db, c.key.domain), since)
  {
  }

  lemma TryLockOther(w: World, t: Token, u: Token)
    requires At(w, t) && w.handlers[t].Missed? && w.handlers[t].since <= w.now && At(w, u) && u != t
    requires PhaseFits(w, u, w.handlers[u])
    ensures HandlerInv(DoTryLock(w, t), u, w.claims[u], w.handlers[u], w.db.jobs[w.claims[u].key.job])
  {
    var w', j := DoTryLock(w, t), w.db.jobs[w.claims[u].key.job];
    if HoldsFreshLock(w, w.claims[u]) {
      FreshLockIsNotFree(w, w.claims[u], w.handlers[t].since);
      assert HoldsFreshLock(w', w.claims[u]);
    }
    HandlerKept(w, w', u, w.claims[u], w.handlers[u], j, j);
  }

  lemma TryLockOwn(w: World, t: Token)
    requires At(w, t) && w.handlers[t].Missed? && PhaseFits(w, t, w.handlers[t])
    ensures var w' := DoTryLock(w, t); HandlerInv(w', t, w.claims[t], w'.handlers[t], w.db.jobs[w.claims[t].key.job])
  {
    var w', k := DoTryLock(w, t), w.claims[t].key;
    if LockIsFree(w, t) && t !in w'.lapsed {
      assert !LockOut(w'.db, k.domain, t, w.now);
      assert HoldsFreshLock(w', w.claims[t]);
    }
  }

  lemma TryLockShape(w: World, t: Token)
    requires Shape(w) && At(w, t) && w.handlers[t].Missed?
    ensures var w' := DoTryLock(w, t);
      && Shape(w') && JobsStill(w, w') && w'.db.rows == w.db.rows && w'.logs == w.logs && w'.claims == w.claims
      && w'.handlers == w.handlers[t := w'.handlers[t]] && w'.started == w.started
  {
  }

  lemma TryLockHandlers(w: World, t: Token)
    requires Shape(w) && HandlersInv(w) && At(w, t) && w.handlers[t].Missed?
    ensures Shape(DoTryLock(w, t)) && HandlersInv(DoTryLock(w, t))
  {
    var w' := DoTryLock(w, t);
    TryLockShape(w, t);
    PhaseNow(w, t);
    TryLockOwn(w, t);
    forall u | u in w'.handlers
      ensures HandlerOk(w', u)
    {
      if u != t {
        PhaseNow(w, u);
        TryLockOther(w, t, u);
      }
    }
  }

  lemma SameRowsKept(w: World, w': World)
    requires Shape(w) && Shape(w') && RowsInv(w) && w'.now == w.now
    requires w'.db.rows == w.db.rows && w'.db.jobs == w.db.jobs && w'.logs == w.logs && w'.claims == w.claims
    ensures RowsInv(w')
  {
    forall k | k in w'.db.rows ensures RowOk(w', k) {
      assert RowOk(w, k);
    }
  }

  lemma TryLockKeeps(w: World, t: Token)
    requires Inv(w) && At(w, t) && w.handlers[t].Missed?
    ensures Inv(DoTryLock(w, t))
  {
    var k := w.claims[t].key;
    assert RowOk(w, k);
    PhaseNow(w, t);
    TryLockShape(w, t);
    TryLockLocks(w, t);
    TryLockHandlers(w, t);
    SameRowsKept(w, DoTryLock(w, t));
    StillJobsKept(w, DoTryLock(w, t));
  }

  lemma UnlockOther(w: World, t: Token, u: Token)
    requires Shape(w) && Enabled(w, Unlock(t)) && Shape(DoUnlock(w, t)) && u in w.handlers && u != t && HandlerOk(w, u)
    ensures HandlerOk(DoUnlock(w, t), u)
  {
    var w', j := DoUnlock(w, t), w.db.jobs[w.claims[u].key.job];
    HandlerKept(w, w', u, w.claims[u], w.handlers[u], j, j);
  }

  lemma UnlockOwn(w: World, t: Token)
    requires Shape(w) && Enabled(w, Unlock(t)) && Shape(DoUnlock(w, t)) && HandlerOk(w, t)
    ensures HandlerOk(DoUnlock(w, t), t)
  {
  }

  lemma UnlockHandlers(w: World, t: Token)
    requires Shape(w) && HandlersInv(w) && Enabled(w, Unlock(t)) && Shape(DoUnlock(w, t))
    ensures HandlersInv(DoUnlock(w, t))
  {
    var w' := DoUnlock(w, t);
    assert w'.handlers.Keys == w.handlers.Keys && w'.started == w.started && w'.claims == w.claims;
    forall u | u in w'.handlers
      ensures HandlerOk(w', u)
    {
      assert HandlerOk(w, u);
      if u == t {
        UnlockOwn(w, t);
      } else {
        UnlockOther(w, t, u);
      }
    }
  }

  ghost predicate SameRows(w: World, w': World) {
    w'.db.rows == w.db.rows && w'.logs == w.logs && w'.claims == w.claims && w'.db.jobs == w.db.jobs && w'.now == w.now
  }

  lemma UnlockStill(w: World, t: Token)
    requires Shape(w) && Enabled(w, Unlock(t))
    ensures var w' := DoUnlock(w, t);
      Shape(w') && SameRows(w, w') && JobsStill(w, w') && LocksShrink(w, w') && w'.lockings == w.lockings
  {
  }

  lemma SameRowsQuiet(w: World, w': World)
    requires Shape(w) && Shape(w') && SameRows(w, w') && LocksShrink(w, w') && w'.lockings == w.lockings
    ensures Quiet(w, w')
  {
  }

  lemma UnlockQuiet(w: World, t: Token)
    requires Shape(w) && Enabled(w, Unlock(t))
    ensures Quiet(w, DoUnlock(w, t)) && JobsStill(w, DoUnlock(w, t))
  {
    UnlockStill(w, t);
    SameRowsQuiet(w, DoUnlock(w, t));
  }

  lemma UnlockKeeps(w: World, t: Token)
    requires Inv(w) && Enabled(w, Unlock(t))
    ensures Inv(DoUnlock(w, t))
  {
    UnlockQuiet(w, t);
    QuietKeeps(w, DoUnlock(w, t));
    UnlockHandlers(w, t);
    StillJobsKept(w, DoUnlock(w, t));
  }

  // ---- a row goes back to the queue -------------------------------------------------------------------

  lemma GiveBackFrame(w: World, t: Token, since: Time)
    requires At(w, t) && w.handlers[t].GivingBack?
    ensures var w' := DoGiveBack(w, t, since);
      && w'.claims == w.claims && w'.db.jobs == w.db.jobs && w'.db.domains == w.db.domains && w'.lockings == w.lockings
      && w'.owed == w.owed && w'.stranded == w.stranded && w'.now == w.now
      && w'.lapsed == w.lapsed && w'.handlers == w.handlers - {t}
  {
  }

  lemma GiveBackElsewhere(w: World, t: Token, since: Time)
    requires Shape(w) && At(w, t) && w.handlers[t].GivingBack?
    ensures var w', k := DoGiveBack(w, t, since), w.claims[t].key;
      && w'.db.rows.Keys == w.db.rows.Keys && w'.logs.Keys == w.logs.Keys
      && forall o | o in w.db.rows && o != k :: w'.db.rows[o] == w.db.rows[o] && w'.logs[o] == w.logs[o]
  {
  }

  lemma GiveBackShape(w: World, t: Token, since: Time)
    requires Shape(w) && At(w, t) && w.handlers[t].GivingBack?
    ensures Shape(DoGiveBack(w, t, since)) && SameElsewhere(w, DoGiveBack(w, t, since), w.claims[t].key)
  {
    GiveBackFrame(w, t, since);
    GiveBackElsewhere(w, t, since);
  }

  lemma GiveBackRow(w: World, t: Token, since: Time)
    requires Shape(w) && At(w, t) && w.handlers[t].GivingBack? && Shape(DoGiveBack(w, t, since))
    ensures var w', k := DoGiveBack(w, t, since), w.claims[t].key;
      && k in w'.db.rows && RowMove(w, w', k) && Q.Open(w'.db.rows[k]) == Q.Open(w.db.rows[k])
      && (w.db.rows[k].state.RowRunning? && w'.db.rows[k].state.RowRunning? ==>
            w'.db.rows[k].heartbeatAt == w.db.rows[k].heartbeatAt)
  {
    var w', k := DoGiveBack(w, t, since), w.claims[t].key;
    if Q.Owns(w.db, k, t) {
      assert RowGivenBack(w.db.rows[k], w.logs[k], w'.db.rows[k], w'.logs[k]);
    } else {
      RowStays(w, w', k);
    }
  }

  /** One row changes hands, and nothing else but handlers. */
  lemma OneRowQuiet(w: World, w': World, k: RowKey)
    requires Shape(w) && Shape(w') && SameElsewhere(w, w', k) && k in w.db.rows && RowMove(w, w', k)
    requires w'.claims == w.claims && w'.db.jobs == w.db.jobs && w'.db.domains == w.db.domains
    requires w'.lockings == w.lockings
    requires w.db.rows[k].state.RowRunning? && w'.db.rows[k].state.RowRunning? ==>
      w'.db.rows[k].heartbeatAt == w.db.rows[k].heartbeatAt
    ensures Quiet(w, w')
  {
    OnlyOneMoves(w, w', k);
  }

  lemma GiveBackQuiet(w: World, t: Token, since: Time)
    requires Shape(w) && At(w, t) && w.handlers[t].GivingBack?
    ensures Quiet(w, DoGiveBack(w, t, since)) && JobsStill(w, DoGiveBack(w, t, since))
  {
    GiveBackFrame(w, t, since);
    GiveBackShape(w, t, since);
    GiveBackRow(w, t, since);
    OneRowQuiet(w, DoGiveBack(w, t, since), w.claims[t].key);
  }

  lemma GiveBackUndisturbed(w: World, t: Token, since: Time)
    requires Shape(w) && OwnTokens(w) && Enabled(w, GiveBack(t, since))
    ensures Undisturbed(w, DoGiveBack(w, t, since))
  {
  }

  lemma GiveBackKeeps(w: World, t: Token, since: Time)
    requires Inv(w) && Enabled(w, GiveBack(t, since))
    ensures Inv(DoGiveBack(w, t, since))
  {
    HandlersOwnTokens(w);
    GiveBackQuiet(w, t, since);
    GiveBackUndisturbed(w, t, since);
    QuietKeeps(w, DoGiveBack(w, t, since));
    HandlersKept(w, DoGiveBack(w, t, since));
    StillJobsKept(w, DoGiveBack(w, t, since));
  }

  lemma ReapQuiet(w: World, since: Time)
    requires Shape(w) && since <= w.now
    ensures Quiet(w, Next(w, Reap(since))) && JobsStill(w, Next(w, Reap(since)))
  {
    var w' := Next(w, Reap(since));
    assert Shape(w');
    forall k | k in w.db.rows ensures RowMove(w, w', k) {
      if Q.Silent(w.db.rows[k], since) {
        assert RowGivenBack(w.db.rows[k], w.logs[k], w'.db.rows[k], w'.logs[k]);
      }
    }
  }

  lemma ReapUndisturbed(w: World, since: Time)
    requires Shape(w) && OwnTokens(w) && since <= w.now
    ensures Undisturbed(w, Next(w, Reap(since)))
  {
  }

  lemma ReapKeeps(w: World, since: Time)
    requires Inv(w) && since <= w.now
    ensures Inv(Next(w, Reap(since)))
  {
    HandlersOwnTokens(w);
    ReapQuiet(w, since);
    ReapUndisturbed(w, since);
    QuietKeeps(w, Next(w, Reap(since)));
    HandlersKept(w, Next(w, Reap(since)));
    StillJobsKept(w, Next(w, Reap(since)));
  }

  lemma ReleaseRow(w: World, v: Worker, since: Time, k: RowKey)
    requires Shape(w) && k in w.db.rows && Shape(DoRelease(w, v, since))
    requires RowInv(w.claims, k, w.db.rows[k], w.logs[k], w.db.jobs[k.job], w.now)
    ensures RowMove(w, DoRelease(w, v, since), k)
  {
    var w' := DoRelease(w, v, since);
    if w.db.rows[k].state.RowRunning? && Q.HeldBy(w.db.rows[k].claimedBy, v) {
      assert RowGivenBack(w.db.rows[k], w.logs[k], w'.db.rows[k], w'.logs[k]);
    }
  }

  lemma ReleaseStill(w: World, v: Worker, since: Time)
    requires Shape(w)
    ensures var w' := DoRelease(w, v, since);
      Shape(w') && AllJobsKept(w, w') && NoBeat(w, w') && LocksShrink(w, w') && JobsStill(w, w')
  {
  }

  lemma ReleaseQuiet(w: World, v: Worker, since: Time)
    requires Shape(w) && RowsInv(w)
    ensures Quiet(w, DoRelease(w, v, since)) && JobsStill(w, DoRelease(w, v, since))
  {
    ReleaseStill(w, v, since);
    forall k | k in w.db.rows ensures RowMove(w, DoRelease(w, v, since), k) {
      assert RowOk(w, k);
      ReleaseRow(w, v, since, k);
    }
  }

  lemma ReleaseUndisturbed(w: World, v: Worker, since: Time)
    requires Shape(w) && OwnTokens(w) && Enabled(w, ReleaseWorker(v, since))
    ensures Undisturbed(w, DoRelease(w, v, since))
  {
  }

  lemma ReleaseKeeps(w: World, v: Worker, since: Time)
    requires Inv(w) && Enabled(w, ReleaseWorker(v, since))
    ensures Inv(DoRelease(w, v, since))
  {
    HandlersOwnTokens(w);
    ReleaseQuiet(w, v, since);
    ReleaseUndisturbed(w, v, since);
    QuietKeeps(w, DoRelease(w, v, since));
    HandlersKept(w, DoRelease(w, v, since));
    StillJobsKept(w, DoRelease(w, v, since));
  }

  // ---- heartbeat -----------------------------------------------------------------------------------

  lemma HeartbeatMoves(w: World, ts: set<Token>, since: Time)
    requires Shape(w) && since <= w.now
    ensures var w' := DoHeartbeat(w, ts, since);
      Shape(w') && RowsMove(w, w') && AllJobsKept(w, w') && JobsStill(w, w')
  {
    var w' := DoHeartbeat(w, ts, since);
    assert Shape(w');
    forall k | k in w.db.rows ensures RowMove(w, w', k) {
      if w'.db.rows[k] != w.db.rows[k] {
        assert RowBeat(w.db.rows[k], w.logs[k], w'.db.rows[k], w'.logs[k], w.now);
      }
    }
  }

  lemma HeartbeatLocks(w: World, ts: set<Token>, since: Time)
    requires Shape(w) && LocksInv(w)
    ensures LocksInv(DoHeartbeat(w, ts, since))
  {
    var w' := DoHeartbeat(w, ts, since);
    forall d | d in w'.db.domains ensures LockOk(w', d) {
      assert LockOk(w, d);
    }
  }

  /** A claim that is not overdue under the new stamps is in time, and so is its lock. */
  lemma HeartbeatHandler(w: World, ts: set<Token>, since: Time, u: Token)
    requires Shape(w) && Shape(DoHeartbeat(w, ts, since)) && u in w.handlers && HandlerOk(w, u)
    ensures HandlerOk(DoHeartbeat(w, ts, since), u)
  {
    var w', c := DoHeartbeat(w, ts, since), w.claims[u];
    if u !in w'.lapsed {
      assert !Overdue(w'.db, c.key, u, w.now);
    }
  }

  lemma HeartbeatHandlers(w: World, ts: set<Token>, since: Time)
    requires Shape(w) && HandlersInv(w) && Shape(DoHeartbeat(w, ts, since))
    ensures HandlersInv(DoHeartbeat(w, ts, since))
  {
    forall u | u in w.handlers ensures HandlerOk(DoHeartbeat(w, ts, since), u) {
      assert HandlerOk(w, u);
      HeartbeatHandler(w, ts, since, u);
    }
  }

  lemma HeartbeatKeeps(w: World, ts: set<Token>, since: Time)
    requires Inv(w) && since <= w.now
    ensures Inv(DoHeartbeat(w, ts, since))
  {
    HeartbeatMoves(w, ts, since);
    HeartbeatLocks(w, ts, since);
    HeartbeatHandlers(w, ts, since);
    RowsKept(w, DoHeartbeat(w, ts, since));
    StillJobsKept(w, DoHeartbeat(w, ts, since));
  }

  // ---- a result is recorded ------------------------------------------------------------------------

  lemma FinishRecords(w: World, t: Token, since: Time)
    requires Shape(w) && Enabled(w, Finish(t, since)) && Q.Owns(w.db, w.claims[t].key, t)
    requires HandlerInv(w, t, w.claims[t], w.handlers[t], w.db.jobs[w.claims[t].key.job])
    requires RunningInv(w.claims, w.db.rows[w.claims[t].key], w.logs[w.claims[t].key].charges, w.now)
    ensures var w', k := DoFinish(w, t, since), w.claims[t].key;
      RowRecorded(w.db.rows[k], w.logs[k], w.db.jobs[k.job], w'.db.rows[k], w'.logs[k], w.now)
  {
  }

  lemma FinishRows(w: World, t: Token, since: Time)
    requires Shape(w) && Enabled(w, Finish(t, since))
    ensures var w', k := DoFinish(w, t, since), w.claims[t].key;
      && Shape(w')
      && (forall o | o in w.db.rows && (o != k || !Q.Owns(w.db, k, t)) ::
            w'.db.rows[o] == w.db.rows[o] && w'.logs[o] == w.logs[o])
      && (Q.Owns(w.db, k, t) ==> !w'.db.rows[k].state.RowRunning?)
  {
  }

  lemma FinishMoves(w: World, t: Token, since: Time)
    requires Shape(w) && Enabled(w, Finish(t, since)) && PhaseFits(w, t, w.handlers[t])
    requires Q.Owns(w.db, w.claims[t].key, t) ==>
      RunningInv(w.claims, w.db.rows[w.claims[t].key], w.logs[w.claims[t].key].charges, w.now)
    ensures Shape(DoFinish(w, t, since)) && RowsMove(w, DoFinish(w, t, since)) && NoBeat(w, DoFinish(w, t, since))
  {
    var w', k := DoFinish(w, t, since), w.claims[t].key;
    FinishElsewhere(w, t, since);
    if Q.Owns(w.db, k, t) {
      FinishRecords(w, t, since);
    } else {
      RowStays(w, w', k);
    }
    OnlyOneMoves(w, w', k);
  }

  lemma FinishElsewhere(w: World, t: Token, since: Time)
    requires Shape(w) && Enabled(w, Finish(t, since))
    ensures var w', k := DoFinish(w, t, since), w.claims[t].key;
      && Shape(w') && SameElsewhere(w, w', k) && Extends(w.claims, w'.claims) && NoBeat(w, w')
      && (!Q.Owns(w.db, k, t) ==> w'.db.rows[k] == w.db.rows[k] && w'.logs[k] == w.logs[k])
  {
    FinishRows(w, t, since);
  }

  lemma FinishEntries(w: World, t: Token, since: Time)
    requires Shape(w) && Enabled(w, Finish(t, since))
    ensures LocksShrink(w, DoFinish(w, t, since)) && DoFinish(w, t, since).lockings == w.lockings
  {
  }

  lemma FinishKeptJobs(w: World, t: Token, since: Time)
    requires Shape(w) && Enabled(w, Finish(t, since))
    ensures AllJobsKept(w, DoFinish(w, t, since))
  {
  }

  lemma FinishRunning(w: World, t: Token)
    requires Shape(w) && RowsInv(w) && t in w.claims && Q.Owns(w.db, w.claims[t].key, t)
    ensures RunningInv(w.claims, w.db.rows[w.claims[t].key], w.logs[w.claims[t].key].charges, w.now)
  {
    var k := w.claims[t].key;
    assert RowOk(w, k);
  }

  lemma FinishQuiet(w: World, t: Token, since: Time)
    requires Shape(w) && RowsInv(w) && HandlersInv(w) && Enabled(w, Finish(t, since))
    ensures Quiet(w, DoFinish(w, t, since))
  {
    if Q.Owns(w.db, w.claims[t].key, t) {
      FinishRunning(w, t);
    }
    PhaseNow(w, t);
    FinishParts(w, t, since);
  }

  lemma FinishParts(w: World, t: Token, since: Time)
    requires Shape(w) && Enabled(w, Finish(t, since)) && PhaseFits(w, t, w.handlers[t])
    requires Q.Owns(w.db, w.claims[t].key, t) ==>
      RunningInv(w.claims, w.db.rows[w.claims[t].key], w.logs[w.claims[t].key].charges, w.now)
    ensures Quiet(w, DoFinish(w, t, since))
  {
    FinishMoves(w, t, since);
    FinishEntries(w, t, since);
    FinishKeptJobs(w, t, since);
  }

  lemma OthersOpen(rows: map<RowKey, Row>, rows': map<RowKey, Row>, k: RowKey, j: JobId)
    requires rows' == rows || (k in rows && k in rows' && k.job != j && rows' == rows[k := rows'[k]])
    ensures Q.HasOpen(rows, j) == Q.HasOpen(rows', j)
  {
  }

  lemma FinishOwnJob(w: World, t: Token, since: Time)
    requires Shape(w) && Enabled(w, Finish(t, since)) && Shape(DoFinish(w, t, since))
    requires Q.Owns(w.db, w.claims[t].key, t) && JobInv(w, w.claims[t].key.job)
    ensures JobInv(DoFinish(w, t, since), w.claims[t].key.job)
  {
    var w', k := DoFinish(w, t, since), w.claims[t].key;
    assert Q.HasOpen(w.db.rows, k.job) by { assert Q.Open(w.db.rows[k]); }
    Q.OpenAfterRecording(w.db.rows, k, w'.db.rows);
    JobKeeps(w, w', k.job, since);
  }

  lemma FinishOtherJob(w: World, t: Token, since: Time, j: JobId)
    requires Shape(w) && Enabled(w, Finish(t, since)) && Shape(DoFinish(w, t, since)) && j in w.db.jobs && JobInv(w, j)
    requires j == w.claims[t].key.job ==> !Q.Owns(w.db, w.claims[t].key, t)
    ensures JobInv(DoFinish(w, t, since), j)
  {
    var w', k := DoFinish(w, t, since), w.claims[t].key;
    assert w'.db.jobs[j] == w.db.jobs[j];
    OthersOpen(w.db.rows, w'.db.rows, k, j);
  }

  lemma FinishJob(w: World, t: Token, since: Time, j: JobId)
    requires Shape(w) && Enabled(w, Finish(t, since)) && Shape(DoFinish(w, t, since)) && j in w.db.jobs && JobInv(w, j)
    ensures JobInv(DoFinish(w, t, since), j)
  {
    if Q.Owns(w.db, w.claims[t].key, t) && j == w.claims[t].key.job {
      FinishOwnJob(w, t, since);
    } else {
      FinishOtherJob(w, t, since, j);
    }
  }

  lemma FinishJobs(w: World, t: Token, since: Time)
    requires Shape(w) && JobsInv(w) && Enabled(w, Finish(t, since)) && Shape(DoFinish(w, t, since))
    ensures JobsInv(DoFinish(w, t, since))
  {
    forall j | j in w.db.jobs ensures JobInv(DoFinish(w, t, since), j) {
      assert JobInv(w, j);
      FinishJob(w, t, since, j);
    }
  }

  lemma FinishSpares(w: World, t: Token, since: Time, u: Token)
    requires Shape(w) && Enabled(w, Finish(t, since)) && u in w.handlers && u != t && w.claims[u].token == u
    requires InTime(w, w.claims[u])
    ensures RowRetained(w, DoFinish(w, t, since), w.claims[u].key, u)
    ensures LockRetained(w, DoFinish(w, t, since), w.claims[u])
  {
    FinishRows(w, t, since);
  }

  lemma FinishUndisturbed(w: World, t: Token, since: Time)
    requires Shape(w) && OwnTokens(w) && Enabled(w, Finish(t, since))
    ensures Undisturbed(w, DoFinish(w, t, since))
  {
    forall u | u in w.handlers && u != t && InTime(w, w.claims[u])
      ensures RowRetained(w, DoFinish(w, t, since), w.claims[u].key, u)
      ensures LockRetained(w, DoFinish(w, t, since), w.claims[u])
    {
      FinishSpares(w, t, since, u);
    }
  }

  lemma FinishKeeps(w: World, t: Token, since: Time)
    requires Inv(w) && Enabled(w, Finish(t, since))
    ensures Inv(DoFinish(w, t, since))
  {
    HandlersOwnTokens(w);
    FinishQuiet(w, t, since);
    FinishUndisturbed(w, t, since);
    QuietKeeps(w, DoFinish(w, t, since));
    HandlersKept(w, DoFinish(w, t, since));
    FinishJobs(w, t, since);
  }

  // ---- failures are sent back -----------------------------------------------------------------------

  lemma RequeueFailedShape(w: World, j: JobId, seen: bool, since: Time)
    requires Shape(w) && Enabled(w, RequeueFailed(j, seen, since))
    ensures Shape(DoRequeueFailed(w, j, seen, since))
  {
  }

  lemma RequeueFailedStill(w: World, j: JobId, seen: bool, since: Time)
    requires Shape(w) && Enabled(w, RequeueFailed(j, seen, since))
    ensures var w' := DoRequeueFailed(w, j, seen, since);
      AllJobsKept(w, w') && NoBeat(w, w') && LocksShrink(w, w')
  {
  }

  lemma RequeueFailedQuiet(w: World, j: JobId, seen: bool, since: Time)
    requires Shape(w) && Enabled(w, RequeueFailed(j, seen, since))
    ensures Quiet(w, DoRequeueFailed(w, j, seen, since))
  {
    var w' := DoRequeueFailed(w, j, seen, since);
    RequeueFailedShape(w, j, seen, since);
    RequeueFailedStill(w, j, seen, since);
    forall k | k in w.db.rows ensures RowMove(w, w', k) {
      if k.job == j && Q.Retryable(w.db.rows[k]) {
        assert RowReopened(w.db.rows[k], w.logs[k], w'.db.rows[k], w'.logs[k], w.now);
      }
    }
  }

  lemma RetryableJobStarted(w: World, j: JobId)
    requires Shape(w) && RowsInv(w) && j in w.db.jobs && Q.AnyRetryable(w.db.rows, j)
    ensures w.db.jobs[j].startedAt.Some?
  {
    var k :| k in w.db.rows && k.job == j && Q.Retryable(w.db.rows[k]);
    assert RowOk(w, k);
  }

  lemma RequeueFailedOpen(db: Db, j: JobId, now: Time, i: JobId)
    ensures var rows' := Q.ReopenRows(db, j, now).rows;
      Q.HasOpen(rows', i) == (Q.HasOpen(db.rows, i) || (i == j && Q.AnyRetryable(db.rows, j)))
  {
    var rows' := Q.ReopenRows(db, j, now).rows;
    assert forall k | k in db.rows ::
      Q.Open(rows'[k]) <==> (Q.Open(db.rows[k]) || (k.job == j && Q.Retryable(db.rows[k])));
    if Q.HasOpen(db.rows, i) {
      var o :| o in db.rows && o.job == i && Q.Open(db.rows[o]);
      assert Q.Open(rows'[o]);
    }
    if Q.AnyRetryable(db.rows, j) {
      var k :| k in db.rows && k.job == j && Q.Retryable(db.rows[k]);
      assert Q.Open(rows'[k]);
    }
  }

  lemma RequeueFailedOther(w: World, j: JobId, seen: bool, since: Time, i: JobId)
    requires Shape(w) && Shape(DoRequeueFailed(w, j, seen, since)) && i in w.db.jobs && JobInv(w, i) && i != j
    ensures JobInv(DoRequeueFailed(w, j, seen, since), i)
  {
    var w' := DoRequeueFailed(w, j, seen, since);
    assert w'.db.jobs[i] == w.db.jobs[i];
    RequeueFailedOpen(w.db, j, since, i);
  }

  lemma RequeueFailedOwn(w: World, j: JobId, since: Time)
    requires Shape(w) && Shape(DoRequeueFailed(w, j, true, since)) && j in w.db.jobs && JobInv(w, j)
    requires since <= w.now && (Q.AnyRetryable(w.db.rows, j) ==> w.db.jobs[j].startedAt.Some?)
    ensures JobInv(DoRequeueFailed(w, j, true, since), j)
  {
    RequeueFailedOpen(w.db, j, since, j);
    JobKeeps(w, DoRequeueFailed(w, j, true, since), j, since);
  }

  lemma RequeueFailedUnseen(w: World, j: JobId, since: Time)
    requires Shape(w) && Shape(DoRequeueFailed(w, j, false, since)) && j in w.db.jobs && JobInv(w, j)
    requires w.db.jobs[j].status.Done?
    requires Q.AnyRetryable(w.db.rows, j) ==> w.db.jobs[j].startedAt.Some?
    ensures JobInv(DoRequeueFailed(w, j, false, since), j)
  {
    RequeueFailedOpen(w.db, j, since, j);
  }

  lemma RequeueFailedJob(w: World, j: JobId, seen: bool, since: Time, i: JobId)
    requires Shape(w) && Shape(DoRequeueFailed(w, j, seen, since)) && i in w.db.jobs && JobInv(w, i)
    requires Enabled(w, RequeueFailed(j, seen, since))
    requires i == j && Q.AnyRetryable(w.db.rows, j) ==> w.db.jobs[j].startedAt.Some?
    ensures JobInv(DoRequeueFailed(w, j, seen, since), i)
  {
    if i != j {
      RequeueFailedOther(w, j, seen, since, i);
    } else if seen {
      RequeueFailedOwn(w, j, since);
    } else {
      RequeueFailedUnseen(w, j, since);
    }
  }

  lemma RequeueFailedJobs(w: World, j: JobId, seen: bool, since: Time)
    requires Shape(w) && RowsInv(w) && JobsInv(w) && Shape(DoRequeueFailed(w, j, seen, since))
    requires Enabled(w, RequeueFailed(j, seen, since))
    ensures JobsInv(DoRequeueFailed(w, j, seen, since))
  {
    forall i | i in w.db.jobs ensures JobInv(DoRequeueFailed(w, j, seen, since), i) {
      assert JobInv(w, i);
      if i == j && Q.AnyRetryable(w.db.rows, j) {
        RetryableJobStarted(w, j);
      }
      RequeueFailedJob(w, j, seen, since, i);
    }
  }

  lemma RequeueFailedUndisturbed(w: World, j: JobId, seen: bool, since: Time)
    requires Shape(w) && OwnTokens(w)
    ensures Undisturbed(w, DoRequeueFailed(w, j, seen, since))
  {
  }

  lemma RequeueFailedKeeps(w: World, j: JobId, seen: bool, since: Time)
    requires Inv(w) && Enabled(w, RequeueFailed(j, seen, since))
    ensures Inv(DoRequeueFailed(w, j, seen, since))
  {
    HandlersOwnTokens(w);
    RequeueFailedQuiet(w, j, seen, since);
    RequeueFailedUndisturbed(w, j, seen, since);
    QuietKeeps(w, DoRequeueFailed(w, j, seen, since));
    HandlersKept(w, DoRequeueFailed(w, j, seen, since));
    RequeueFailedJobs(w, j, seen, since);
  }
}
