/**
 What each kind of step leaves alone. Every step is a move of a handler, a change to jobs alone, a domain lock taken or
 dropped, a change to one row, a change to many rows, or the clock; the frame of a kind says which tables and which part
 of the history it does not touch, so that a theorem about one table need not look at every step.
 */
module ProtocolFrames {
  import opened Protocol
  import opened ProtocolSteps

  ghost predicate HandlerStep(s: Step) {
    ReadStep(s) || ErrorStep(s)
  }

  ghost predicate LockStep(s: Step) {
    s.TryLock? || s.Unlock?
  }

  ghost predicate OneRow(s: Step) {
    s.ClaimRow? || s.Finish? || s.GiveBack?
  }

  ghost predicate ManyRows(s: Step) {
    s.CreateJob? || s.Heartbeat? || s.Reap? || s.ReleaseWorker? || s.RequeueFailed?
  }

  lemma StepKinds(s: Step)
    ensures HandlerStep(s) || JobStep(s) || LockStep(s) || OneRow(s) || ManyRows(s) || s.Tick?
  {
  }

  lemma LockFrame(w: World, s: Step)
    requires Enabled(w, s) && LockStep(s)
    ensures var w' := Next(w, s);
      && SameRows(w, w') && w'.owed == w.owed && w'.stranded == w.stranded
      && w'.started == w.started && w'.crashed == w.crashed
      && w'.handlers.Keys == w.handlers.Keys && w'.handlers == w.handlers[s.token := w'.handlers[s.token]]
  {
  }

  lemma OneRowFrame(w: World, s: Step)
    requires Enabled(w, s) && OneRow(s)
    ensures var w' := Next(w, s);
      && w'.now == w.now && w'.owed == w.owed && w'.stranded == w.stranded && w'.lockings == w.lockings
      && (!s.ClaimRow? ==> w'.lapsed == w.lapsed) && w'.started == w.started && w'.crashed == w.crashed
      && w'.db.jobs.Keys == w.db.jobs.Keys
  {
  }

  lemma ManyRowsFrame(w: World, s: Step)
    requires Enabled(w, s) && ManyRows(s)
    ensures var w' := Next(w, s);
      && w'.now == w.now && w'.claims == w.claims && w'.handlers == w.handlers
      && (!s.Heartbeat? ==> w'.lapsed == w.lapsed) && w'.lockings == w.lockings
      && w'.started == w.started && w'.crashed == w.crashed && w'.owed == w.owed
      && (!s.RequeueFailed? ==> w'.stranded == w.stranded)
      && (!s.CreateJob? && !s.RequeueFailed? ==> w'.db.jobs == w.db.jobs)
  {
  }

  lemma ClockNeverBack(w: World, s: Step)
    requires Enabled(w, s)
    ensures w.now <= Next(w, s).now && (!s.Tick? ==> Next(w, s).now == w.now)
  {
    StepKinds(s);
    if HandlerStep(s) {
      HandlerFrame(w, s);
    } else if JobStep(s) {
      JobStepOnlyJobs(w, s);
    } else if LockStep(s) {
      LockFrame(w, s);
    } else if OneRow(s) {
      OneRowFrame(w, s);
    } else if ManyRows(s) {
      ManyRowsFrame(w, s);
    }
  }

  lemma RowsStill(w: World, s: Step)
    requires Enabled(w, s) && !OneRow(s) && !ManyRows(s)
    ensures Next(w, s).db.rows == w.db.rows && Next(w, s).logs == w.logs
    ensures Next(w, s).claims == w.claims && Next(w, s).now >= w.now
  {
    if HandlerStep(s) {
      HandlerFrame(w, s);
    } else if JobStep(s) {
      JobStepOnlyJobs(w, s);
    } else if LockStep(s) {
      LockFrame(w, s);
    }
  }

  lemma LapsedStays(w: World, s: Step)
    requires Enabled(w, s) && !s.Tick? && !s.TryLock? && !s.ClaimRow? && !s.Heartbeat?
    ensures Next(w, s).lapsed == w.lapsed
  {
    StepKinds(s);
    if HandlerStep(s) {
      HandlerFrame(w, s);
    } else if JobStep(s) {
      JobStepOnlyJobs(w, s);
    } else if OneRow(s) {
      OneRowFrame(w, s);
    } else if ManyRows(s) {
      ManyRowsFrame(w, s);
    }
  }
}
