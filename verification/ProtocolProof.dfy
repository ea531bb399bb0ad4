/** Every step of the protocol keeps the invariant, so every world of every run satisfies it. */
module ProtocolProof {
  import opened Protocol
  import opened ProtocolInv
  import opened ProtocolSteps

  lemma LockStepsKeep(w: World, s: Step)
    requires Inv(w) && Enabled(w, s) && (s.ClaimRow? || s.TryLock? || s.Unlock?)
    ensures Inv(Next(w, s))
  {
    if s.ClaimRow? {
      assert Next(w, s) == DoClaim(w, s.key, s.token, s.since);
      ClaimKeeps(w, s.key, s.token, s.since);
    } else if s.TryLock? {
      assert Next(w, s) == DoTryLock(w, s.token);
      TryLockKeeps(w, s.token);
    } else {
      assert Next(w, s) == DoUnlock(w, s.token);
      UnlockKeeps(w, s.token);
    }
  }

  lemma EndStepsKeep(w: World, s: Step)
    requires Inv(w) && Enabled(w, s) && (s.Finish? || s.GiveBack?)
    ensures Inv(Next(w, s))
  {
    match s
    case Finish(t, since) => FinishKeeps(w, t, since);
    case GiveBack(t, since) => GiveBackKeeps(w, t, since);
  }

  ghost predicate Renewal(s: Step) {
    s.Heartbeat? || s.Reap? || s.ReleaseWorker?
  }

  lemma RenewalsKeep(w: World, s: Step)
    requires Inv(w) && Enabled(w, s) && Renewal(s)
    ensures Inv(Next(w, s))
  {
    if s.Heartbeat? {
      assert Next(w, s) == DoHeartbeat(w, s.tokens, s.since);
      HeartbeatKeeps(w, s.tokens, s.since);
    } else if s.Reap? {
      assert s == Reap(s.since);
      ReapKeeps(w, s.since);
    } else {
      assert s == ReleaseWorker(s.worker, s.since);
      ReleaseKeeps(w, s.worker, s.since);
    }
  }

  lemma OtherStepsKeep(w: World, s: Step)
    requires Inv(w) && Enabled(w, s) && (s.Tick? || s.CreateJob? || s.RequeueFailed?)
    ensures Inv(Next(w, s))
  {
    if s.Tick? {
      assert Next(w, s) == DoTick(w, s.dt);
      TickKeeps(w, s.dt);
    } else if s.CreateJob? {
      assert Next(w, s) == DoCreateJob(w, s.newJob, s.domains, s.isFresh, s.owner, s.since);
      CreateJobKeeps(w, s.newJob, s.domains, s.isFresh, s.owner, s.since);
    } else {
      assert s == RequeueFailed(s.job, s.seen, s.since);
      RequeueFailedKeeps(w, s.job, s.seen, s.since);
    }
  }

  /** Every step, whoever takes it, keeps the invariant. */
  lemma StepKeeps(w: World, s: Step)
    requires Inv(w) && Enabled(w, s)
    ensures Inv(Next(w, s))
  {
    if s.ClaimRow? || s.TryLock? || s.Unlock? {
      LockStepsKeep(w, s);
    } else if s.Finish? || s.GiveBack? {
      EndStepsKeep(w, s);
    } else if Renewal(s) {
      RenewalsKeep(w, s);
    } else if s.Tick? || s.CreateJob? || s.RequeueFailed? {
      OtherStepsKeep(w, s);
    } else if JobStep(s) {
      JobStepsKeep(w, s);
    } else if ReadStep(s) {
      ReadStepsKeep(w, s);
    } else {
      ErrorStepsKeep(w, s);
    }
  }

  lemma {:induction false} RunKeeps(ws: seq<World>, ss: seq<Step>, i: nat)
    requires Run(ws, ss) && i < |ws|
    ensures Inv(ws[i])
  {
    if i > 0 {
      assert StepAt(ws, ss, i - 1);
      RunKeeps(ws, ss, i - 1);
      StepKeeps(ws[i - 1], ss[i - 1]);
    }
  }
}
