/** The completion of one job, statement by statement under READ COMMITTED. */
module CompletionRace {
  import opened Tables

  // Any number of finishers update their own row, lock the job row, check on a fresh snapshot whether anything is
  // left open, and commit. Between any two statements other transactions claim, give back, pause, resume and
  // cancel; retries reopen rows and then look at the job, without its lock; the sweep completes the job on the
  // snapshot it started from.

  datatype RowId = RowId(domain: string)

  /** A transaction; a claim's is the one in which it finishes. */
  datatype Txn = Txn(id: int)

  datatype Committed = Waiting | Held(holder: Txn) | Recorded

  /** Who tries to complete the job: a finisher of a row, the check after a resume, the sweep. */
  datatype Who = Finisher(row: RowId) | Check | Sweep

  datatype Stage =
    | Updated(who: Who)               // own row written, not committed
    | Looked(who: Who)                // the sweep's snapshot matched the job, which it waits for
    | Locked(who: Who)                // holds the job row
    | Decided(who: Who, done: bool)   // the completing UPDATE has run

  /** A retry: its rows are written, then its job UPDATE has run, and matched a done job or not. */
  datatype Retrying = Reopening(rows: set<RowId>) | Rechecked(rows: set<RowId>, revive: bool)

  datatype State = State(
    rows: map<RowId, Committed>,
    status: JobStatus,
    lock: Option<Txn>,
    txns: map<Txn, Stage>,
    retries: map<Txn, Retrying>,
    used: set<Txn>,
    completions: nat,     // transactions that committed having completed the job
    reopened: nat,        // retries that took the job out of done
    lost: bool)           // a check of the active job was lost, and nothing has completed the job since

  datatype Step =
    | TakeRow(row: RowId, txn: Txn)
    | GiveBack(row: RowId)
    | Begin(row: RowId, txn: Txn)
    | LockJob(txn: Txn)
    | Decide(txn: Txn)
    | Commit(txn: Txn)
    | Abort(txn: Txn)
    | Pause
    | Resume(txn: Txn)
    | Cancel
    | Look(txn: Txn)
    | TakeJob(txn: Txn)
    | Reopen(txn: Txn, failed: set<RowId>)
    | Recheck(txn: Txn)
    | CommitRetry(txn: Txn)
    | AbortRetry(txn: Txn)

  predicate Active(s: State) {
    s.status.Queued? || s.status.Running?
  }

  predicate IsOpen(s: State, r: RowId) {
    r in s.rows && !s.rows[r].Recorded?
  }

  function Own(w: Who): Option<RowId> {
    if w.Finisher? then Some(w.row) else None
  }

  /** A row other than `own` is open in the committed tables. */
  ghost predicate OtherOpen(s: State, own: Option<RowId>) {
    exists r | r in s.rows :: IsOpen(s, r) && own != Some(r)
  }

  ghost predicate AllRecorded(s: State) {
    !OtherOpen(s, None)
  }

  /** What the completing UPDATE of a transaction that wrote `own` finds in its snapshot. */
  ghost predicate NothingLeft(s: State, own: Option<RowId>) {
    Active(s) && !OtherOpen(s, own)
  }

  ghost predicate Init(s: State) {
    && s.rows.Keys != {} && (forall r | r in s.rows :: s.rows[r].Waiting?)
    && s == State(s.rows, Queued, None, map[], map[], {}, 0, 0, false)
  }

  ghost predicate CanReopen(s: State, f: set<RowId>) {
    && f != {} && (forall r | r in f :: r in s.rows && s.rows[r].Recorded?)
    && (forall u | u in s.retries :: s.retries[u].rows !! f)
  }

  /** `locking`: the job row is locked before the check, as its own statement. */
  ghost predicate Enabled(s: State, a: Step, locking: bool) {
    match a
    case TakeRow(r, t) => r in s.rows && s.rows[r].Waiting? && t !in s.used && (s.status.Queued? ==> s.lock.None?)
    case GiveBack(r) => r in s.rows && s.rows[r].Held? && s.rows[r].holder !in s.txns
    case Begin(r, t) => r in s.rows && s.rows[r] == Held(t) && t !in s.txns
    case LockJob(t) => t in s.txns && s.txns[t].Updated? && (locking ==> s.lock.None?)
    case Decide(t) => t in s.txns && s.txns[t].Locked? &&
      (NothingLeft(s, Own(s.txns[t].who)) ==> s.lock == if locking then Some(t) else None)
    case Commit(t) => t in s.txns && s.txns[t].Decided?
    case Abort(t) => t in s.txns
    case Pause => Active(s) && s.lock.None?
    case Resume(t) => s.status.Paused? && s.lock.None? && t !in s.used
    case Cancel => (Active(s) || s.status.Paused?) && s.lock.None?
    case Look(t) => NothingLeft(s, None) && t !in s.used
    case TakeJob(t) => t in s.txns && s.txns[t].Looked? && s.lock.None?
    case Reopen(t, f) => CanReopen(s, f) && t !in s.used
    case Recheck(t) => t in s.retries && s.retries[t].Reopening? && (s.status.Done? ==> s.lock.None?)
    case CommitRetry(t) => t in s.retries && s.retries[t].Rechecked?
    case AbortRetry(t) => t in s.retries
  }

  ghost function Released(s: State, t: Txn): Option<Txn> {
    if s.lock == Some(t) then None else s.lock
  }

  ghost function Next(s: State, a: Step, locking: bool): State
    requires Enabled(s, a, locking)
  {
    match a
    case TakeRow(r, t) => s.(rows := s.rows[r := Held(t)], used := s.used + {t},
                           status := if s.status.Queued? then Running else s.status)
    case GiveBack(r) => s.(rows := s.rows[r := Waiting])
    case Begin(r, t) => s.(txns := s.txns[t := Updated(Finisher(r))])
    case LockJob(t) => s.(txns := s.txns[t := Locked(s.txns[t].who)], lock := if locking then Some(t) else s.lock)
    case Decide(t) => Decision(s, t)
    case Commit(t) => Committing(s, t)
    case Abort(t) => s.(txns := s.txns - {t}, lock := Released(s, t),
                        lost := s.lost || (s.txns[t].who.Check? && Active(s)))
    case Pause => s.(status := Paused)
    case Resume(t) => s.(status := Running, txns := s.txns[t := Updated(Check)], used := s.used + {t})
    case Cancel => s.(status := Cancelled)
    case Look(t) => s.(txns := s.txns[t := Looked(Sweep)], used := s.used + {t})
    case TakeJob(t) => if Active(s) then s.(txns := s.txns[t := Decided(Sweep, true)], lock := Some(t))
                       else s.(txns := s.txns - {t})
    case Reopen(t, f) => s.(retries := s.retries[t := Reopening(f)], used := s.used + {t})
    case Recheck(t) => s.(retries := s.retries[t := Rechecked(s.retries[t].rows, s.status.Done?)],
                          lock := if s.status.Done? then Some(t) else s.lock)
    case CommitRetry(t) => Retried(s, t)
    case AbortRetry(t) => s.(retries := s.retries - {t}, lock := Released(s, t))
  }

  /** The UPDATE locks the job row itself when it matches. */
  ghost function Decision(s: State, t: Txn): State
    requires t in s.txns
  {
    var done := NothingLeft(s, Own(s.txns[t].who));
    s.(txns := s.txns[t := Decided(s.txns[t].who, done)], lock := if done then Some(t) else s.lock)
  }

  ghost function Committing(s: State, t: Txn): State
    requires t in s.txns && s.txns[t].Decided?
  {
    var p := s.txns[t];
    s.(rows := if p.who.Finisher? then s.rows[p.who.row := Recorded] else s.rows,
       status := if p.done then Done else s.status,
       txns := s.txns - {t},
       lock := Released(s, t),
       completions := s.completions + (if p.done then 1 else 0),
       lost := s.lost && !p.done)
  }

  ghost function Retried(s: State, t: Txn): State
    requires t in s.retries && s.retries[t].Rechecked?
  {
    var p := s.retries[t];
    s.(rows := map r | r in s.rows :: if r in p.rows then Waiting else s.rows[r],
       status := if p.revive then Running else s.status,
       retries := s.retries - {t},
       lock := Released(s, t),
       reopened := s.reopened + if p.revive then 1 else 0)
  }

  ghost predicate StepAt(ss: seq<State>, acts: seq<Step>, locking: bool, i: nat)
    requires i < |acts| && |ss| == |acts| + 1
  {
    Enabled(ss[i], acts[i], locking) && ss[i + 1] == Next(ss[i], acts[i], locking)
  }

  ghost predicate Run(ss: seq<State>, acts: seq<Step>, locking: bool) {
    && |ss| == |acts| + 1
    && Init(ss[0])
    && forall i | 0 <= i < |acts| :: StepAt(ss, acts, locking, i)
  }

  // ---- the invariant of the locking protocol ------------------------------------------------------

  ghost predicate NeedsLock(s: State, t: Txn) {
    || (t in s.txns && (s.txns[t].Locked? || s.txns[t].Decided?))
    || (t in s.retries && s.retries[t].Rechecked? && s.retries[t].revive)
  }

  /** Exactly the transactions past the lock statement, or reviving the job, hold the job row. */
  ghost predicate LockInv(s: State) {
    && (forall t | t in s.txns || t in s.retries :: NeedsLock(s, t) ==> s.lock == Some(t))
    && (s.lock.Some? ==> NeedsLock(s, s.lock.value))
    && s.txns.Keys <= s.used && s.retries.Keys <= s.used && s.txns.Keys !! s.retries.Keys
  }

  ghost predicate OwnInv(s: State) {
    && (forall t | t in s.txns && s.txns[t].who.Finisher? ::
          s.txns[t].who.row in s.rows && s.rows[s.txns[t].who.row] == Held(t))
    && (forall r | r in s.rows && s.rows[r].Held? :: s.rows[r].holder in s.used && s.rows[r].holder !in s.retries)
    && (forall t | t in s.txns && s.txns[t].Looked? :: s.txns[t].who.Sweep?)
  }

  ghost predicate RetryInv(s: State) {
    && (forall t | t in s.retries ::
          s.retries[t].rows != {} && forall r | r in s.retries[t].rows :: r in s.rows && s.rows[r].Recorded?)
    && (forall t, u | t in s.retries && u in s.retries && t != u :: s.retries[t].rows !! s.retries[u].rows)
    && (forall t | t in s.retries && s.retries[t].Rechecked? && s.retries[t].revive :: s.status.Done?)
  }

  /** A transaction that completes the job still finds it active; one that does not is still right. */
  ghost predicate DecisionInv(s: State) {
    forall t | t in s.txns && s.txns[t].Decided? ::
      if s.txns[t].done then Active(s) else !NothingLeft(s, Own(s.txns[t].who))
  }

  ghost predicate CheckPending(s: State) {
    exists t | t in s.txns :: s.txns[t].who.Check?
  }

  ghost predicate JobInv(s: State) {
    && (Active(s) && AllRecorded(s) ==> CheckPending(s) || s.lost)
    && (s.lost ==> !s.status.Done?)
    && s.completions == s.reopened + (if s.status.Done? then 1 else 0)
  }

  ghost predicate Inv(s: State) {
    LockInv(s) && OwnInv(s) && RetryInv(s) && DecisionInv(s) && JobInv(s)
  }

  // ---- every step keeps it ---------------------------------------------------------------------------

  lemma SameOpen(s: State, s': State, own: Option<RowId>)
    requires s'.rows.Keys == s.rows.Keys && forall r | r in s.rows :: IsOpen(s, r) <==> IsOpen(s', r)
    ensures OtherOpen(s, own) == OtherOpen(s', own)
  {
  }

  ghost predicate RowStep(a: Step) {
    a.TakeRow? || a.GiveBack?
  }

  lemma RowStepKeeps(s: State, a: Step)
    requires Inv(s) && Enabled(s, a, true) && RowStep(a)
    ensures Inv(Next(s, a, true))
  {
    var s' := Next(s, a, true);
    forall own: Option<RowId> ensures OtherOpen(s, own) == OtherOpen(s', own) {
      SameOpen(s, s', own);
    }
  }

  ghost predicate TxnStep(a: Step) {
    a.Begin? || a.LockJob? || a.Decide? || a.Abort? || a.Look? || a.TakeJob?
  }

  lemma PendingStays(s: State, a: Step)
    requires Enabled(s, a, true) && TxnStep(a) && OwnInv(s) && LockInv(s) && CheckPending(s) && Active(s)
    ensures CheckPending(Next(s, a, true)) || Next(s, a, true).lost
  {
    var t :| t in s.txns && s.txns[t].who.Check?;
    if a != Abort(t) {
      assert t in Next(s, a, true).txns && Next(s, a, true).txns[t].who.Check?;
    }
  }

  /** Such a step changes no row and no status, so only who holds the job row is in question. */
  lemma TxnStepOpens(s: State, a: Step, own: Option<RowId>)
    requires Enabled(s, a, true) && TxnStep(a)
    ensures Next(s, a, true).rows == s.rows && Next(s, a, true).status == s.status
    ensures OtherOpen(Next(s, a, true), own) == OtherOpen(s, own)
  {
    SameOpen(s, Next(s, a, true), own);
  }

  lemma TxnStepLock(s: State, a: Step)
    requires LockInv(s) && OwnInv(s) && Enabled(s, a, true) && TxnStep(a)
    ensures LockInv(Next(s, a, true))
  {
    var s' := Next(s, a, true);
    assert s'.txns.Keys <= s'.used;
    assert s'.lock.Some? ==> NeedsLock(s', s'.lock.value);
  }

  lemma TxnStepOwn(s: State, a: Step)
    requires OwnInv(s) && RetryInv(s) && Enabled(s, a, true) && TxnStep(a)
    ensures OwnInv(Next(s, a, true)) && RetryInv(Next(s, a, true))
  {
  }

  lemma TxnStepDecision(s: State, a: Step)
    requires DecisionInv(s) && Enabled(s, a, true) && TxnStep(a)
    ensures DecisionInv(Next(s, a, true))
  {
    var s' := Next(s, a, true);
    forall t | t in s'.txns && s'.txns[t].Decided?
      ensures if s'.txns[t].done then Active(s') else !NothingLeft(s', Own(s'.txns[t].who))
    {
      TxnStepOpens(s, a, Own(s'.txns[t].who));
    }
  }

  lemma TxnStepKeeps(s: State, a: Step)
    requires Inv(s) && Enabled(s, a, true) && TxnStep(a)
    ensures Inv(Next(s, a, true))
  {
    TxnStepLock(s, a);
    TxnStepOwn(s, a);
    TxnStepDecision(s, a);
    TxnStepOpens(s, a, None);
    if CheckPending(s) && Active(s) {
      PendingStays(s, a);
    }
  }

  lemma CommitRows(s: State, t: Txn)
    requires OwnInv(s) && Enabled(s, Commit(t), true)
    ensures OtherOpen(Committing(s, t), None) == OtherOpen(s, Own(s.txns[t].who))
  {
    var s', own := Committing(s, t), Own(s.txns[t].who);
    assert forall r | r in s.rows :: IsOpen(s', r) <==> IsOpen(s, r) && own != Some(r);
  }

  lemma CommitKeeps(s: State, t: Txn)
    requires Inv(s) && Enabled(s, Commit(t), true)
    ensures Inv(Next(s, Commit(t), true))
  {
    var s', p := Next(s, Commit(t), true), s.txns[t];
    CommitRows(s, t);
    assert LockInv(s') && OwnInv(s') && DecisionInv(s');
  }

  ghost predicate JobStep(a: Step) {
    a.Pause? || a.Resume? || a.Cancel?
  }

  lemma JobStepLock(s: State, a: Step)
    requires LockInv(s) && OwnInv(s) && RetryInv(s) && Enabled(s, a, true) && JobStep(a)
    ensures LockInv(Next(s, a, true)) && OwnInv(Next(s, a, true)) && RetryInv(Next(s, a, true))
    ensures forall t | t in s.txns :: !s.txns[t].Decided?
  {
    forall t | t in s.txns ensures !s.txns[t].Decided? {
      assert s.txns[t].Decided? ==> NeedsLock(s, t);
    }
  }

  lemma JobStepKeeps(s: State, a: Step)
    requires Inv(s) && Enabled(s, a, true) && JobStep(a)
    ensures Inv(Next(s, a, true))
  {
    var s' := Next(s, a, true);
    JobStepLock(s, a);
    if a.Resume? {
      assert s'.txns[a.txn].who.Check?;
    }
  }

  ghost predicate RetryStep(a: Step) {
    a.Reopen? || a.Recheck? || a.AbortRetry?
  }

  lemma RetryStepLock(s: State, a: Step)
    requires LockInv(s) && OwnInv(s) && RetryInv(s) && Enabled(s, a, true) && RetryStep(a)
    ensures LockInv(Next(s, a, true)) && OwnInv(Next(s, a, true))
  {
  }

  lemma RetryStepRows(s: State, a: Step)
    requires RetryInv(s) && Enabled(s, a, true) && RetryStep(a)
    ensures RetryInv(Next(s, a, true))
  {
  }

  lemma RetryStepKeeps(s: State, a: Step)
    requires Inv(s) && Enabled(s, a, true) && RetryStep(a)
    ensures Inv(Next(s, a, true))
  {
    var s' := Next(s, a, true);
    RetryStepLock(s, a);
    RetryStepRows(s, a);
    SameOpen(s, s', None);
    forall t | t in s'.txns && s'.txns[t].Decided?
      ensures if s'.txns[t].done then Active(s') else !NothingLeft(s', Own(s'.txns[t].who))
    {
      SameOpen(s, s', Own(s.txns[t].who));
    }
    assert CheckPending(s) ==> CheckPending(s');
  }

  /** A retry's commit opens a row, whoever is looking. */
  lemma RetriedOpens(s: State, t: Txn, own: Option<RowId>)
    requires OwnInv(s) && RetryInv(s) && Enabled(s, CommitRetry(t), true)
    requires own.Some? ==> own.value in s.rows && !s.rows[own.value].Recorded?
    ensures OtherOpen(Retried(s, t), own)
  {
    var r :| r in s.retries[t].rows;
    assert IsOpen(Retried(s, t), r);
  }

  lemma CommitRetryKeeps(s: State, t: Txn)
    requires Inv(s) && Enabled(s, CommitRetry(t), true)
    ensures Inv(Next(s, CommitRetry(t), true))
  {
    var s' := Next(s, CommitRetry(t), true);
    RetriedOpens(s, t, None);
    forall u | u in s.txns && s.txns[u].Decided? && !s.txns[u].done ensures !NothingLeft(s', Own(s.txns[u].who)) {
      RetriedOpens(s, t, Own(s.txns[u].who));
    }
    assert LockInv(s') && OwnInv(s') && RetryInv(s');
  }

  lemma StepKeeps(s: State, a: Step)
    requires Inv(s) && Enabled(s, a, true)
    ensures Inv(Next(s, a, true))
  {
    match a
    case TakeRow(_, _) => RowStepKeeps(s, a);
    case GiveBack(_) => RowStepKeeps(s, a);
    case Commit(t) => CommitKeeps(s, t);
    case Pause => JobStepKeeps(s, a);
    case Resume(_) => JobStepKeeps(s, a);
    case Cancel => JobStepKeeps(s, a);
    case Reopen(_, _) => RetryStepKeeps(s, a);
    case Recheck(_) => RetryStepKeeps(s, a);
    case AbortRetry(_) => RetryStepKeeps(s, a);
    case CommitRetry(t) => CommitRetryKeeps(s, t);
    case _ => TxnStepKeeps(s, a);
  }

  lemma {:induction false} RunKeeps(ss: seq<State>, acts: seq<Step>, i: nat)
    requires Run(ss, acts, true) && i < |ss|
    ensures Inv(ss[i])
  {
    if i > 0 {
      assert StepAt(ss, acts, true, i - 1);
      RunKeeps(ss, acts, i - 1);
      StepKeeps(ss[i - 1], acts[i - 1]);
    } else {
      var r :| r in ss[0].rows.Keys;
      assert IsOpen(ss[0], r);
    }
  }

  // ---- what it buys ------------------------------------------------------------------------------------

  /** The completion check after a resume is lost while the job is active. */
  ghost predicate LosesCheck(s: State, a: Step) {
    a.Abort? && a.txn in s.txns && s.txns[a.txn].who.Check? && Active(s)
  }

  ghost predicate CompletesJob(s: State, a: Step) {
    a.Commit? && a.txn in s.txns && s.txns[a.txn].Decided? && s.txns[a.txn].done
  }

  /** A check was lost before `i`, and neither a sweep nor anyone else has completed the job since. */
  ghost predicate CheckLost(ss: seq<State>, acts: seq<Step>, i: nat)
    requires i <= |acts| < |ss|
  {
    exists m | 0 <= m < i :: LosesCheck(ss[m], acts[m]) && NotCompleted(ss, acts, m + 1, i)
  }

  ghost predicate NotCompleted(ss: seq<State>, acts: seq<Step>, from: nat, to: nat)
    requires to <= |acts| < |ss|
  {
    forall j | from <= j < to :: !CompletesJob(ss[j], acts[j])
  }

  lemma LostStep(s: State, a: Step)
    requires Enabled(s, a, true)
    ensures Next(s, a, true).lost <==> LosesCheck(s, a) || (s.lost && !CompletesJob(s, a))
  {
  }

  lemma {:induction false} LostExactlyIf(ss: seq<State>, acts: seq<Step>, i: nat)
    requires Run(ss, acts, true) && i < |ss|
    ensures ss[i].lost <==> CheckLost(ss, acts, i)
  {
    if i > 0 {
      LostExactlyIf(ss, acts, i - 1);
      assert StepAt(ss, acts, true, i - 1);
      LostStep(ss[i - 1], acts[i - 1]);
      if CheckLost(ss, acts, i) {
        var m :| 0 <= m < i && LosesCheck(ss[m], acts[m]) && NotCompleted(ss, acts, m + 1, i);
        assert m < i - 1 ==> NotCompleted(ss, acts, m + 1, i - 1);
      }
      if LosesCheck(ss[i - 1], acts[i - 1]) {
        assert NotCompleted(ss, acts, i - 1 + 1, i);
      } else if ss[i].lost {
        var m :| 0 <= m < i - 1 && LosesCheck(ss[m], acts[m]) && NotCompleted(ss, acts, m + 1, i - 1);
        assert NotCompleted(ss, acts, m + 1, i);
      }
    }
  }

  /**
   With no transaction of a finisher, check or sweep in flight and no row open, a job is done, paused or cancelled;
   it is left active exactly if the check after a resume was lost and nothing has completed the job since.
   */
  lemma NoJobLeftBehind(ss: seq<State>, acts: seq<Step>, i: nat)
    requires Run(ss, acts, true) && i < |ss| && ss[i].txns == map[]
    requires forall r | r in ss[i].rows :: ss[i].rows[r].Recorded?
    ensures Active(ss[i]) <==> CheckLost(ss, acts, i) && !ss[i].status.Paused? && !ss[i].status.Cancelled?
  {
    RunKeeps(ss, acts, i);
    LostExactlyIf(ss, acts, i);
  }

  /** A job completes once, and once more for every retry that took it out of done. */
  lemma CompletedExactlyOnce(ss: seq<State>, acts: seq<Step>, i: nat)
    requires Run(ss, acts, true) && i < |ss|
    ensures ss[i].completions == ss[i].reopened + (if ss[i].status.Done? then 1 else 0)
  {
    RunKeeps(ss, acts, i);
  }

  /** The sweep completes an active job with nothing open, however it came to be left. */
  lemma SweepRepairs(s: State, t: Txn)
    requires NothingLeft(s, None) && s.lock.None? && t !in s.used
    ensures Enabled(s, Look(t), true)
    ensures var s1 := Next(s, Look(t), true); Enabled(s1, TakeJob(t), true)
    ensures var s2 := Next(Next(s, Look(t), true), TakeJob(t), true);
      Enabled(s2, Commit(t), true) && Next(s2, Commit(t), true).status.Done? && Next(s2, Commit(t), true).rows == s.rows
  {
  }

  // ---- retries take no lock ------------------------------------------------------------------------------

  /** Transaction t has run its completing UPDATE, which matched, and not committed yet. */
  ghost predicate Completing(s: State, t: Txn, who: Who) {
    t in s.txns && s.txns[t] == Decided(who, true)
  }

  lemma WhileCompleting(s: State, a: Step, t: Txn, who: Who)
    requires Inv(s) && Enabled(s, a, true) && Completing(s, t, who) && a != Commit(t) && a != Abort(t)
    ensures Completing(Next(s, a, true), t, who)
    ensures OtherOpen(Next(s, a, true), Own(who)) <==> OtherOpen(s, Own(who)) || a.CommitRetry?
  {
    assert s.lock == Some(t) by { assert NeedsLock(s, t); }
    var s' := Next(s, a, true);
    if a.CommitRetry? {
      RetriedOpens(s, a.txn, Own(who));
    } else {
      assert forall u | u in s.txns && s.txns[u].Decided? :: NeedsLock(s, u);
      SameOpen(s, s', Own(who));
    }
  }

  /** A retry committed between the two moments. */
  ghost predicate RetriedBetween(acts: seq<Step>, from: nat, to: nat)
    requires to <= |acts|
  {
    exists j | from <= j < to :: acts[j].CommitRetry?
  }

  lemma {:induction false} OpenSince(ss: seq<State>, acts: seq<Step>, d: nat, n: nat, t: Txn, who: Who)
    requires Run(ss, acts, true) && d <= n <= |acts| && Completing(ss[d], t, who)
    requires forall j | d <= j < n :: acts[j] != Commit(t) && acts[j] != Abort(t)
    ensures Completing(ss[n], t, who)
    ensures OtherOpen(ss[n], Own(who)) <==> OtherOpen(ss[d], Own(who)) || RetriedBetween(acts, d, n)
    decreases n - d
  {
    if d < n {
      OpenSince(ss, acts, d, n - 1, t, who);
      RunKeeps(ss, acts, n - 1);
      assert StepAt(ss, acts, true, n - 1);
      WhileCompleting(ss[n - 1], acts[n - 1], t, who);
    }
  }

  /**
   A transaction that completes the job leaves only recorded rows exactly if nothing else was
   open when its UPDATE ran and no retry committed between that and its own commit.
   */
  lemma CompletesCleanlyExactlyIf(ss: seq<State>, acts: seq<Step>, d: nat, i: nat, t: Txn, who: Who)
    requires Run(ss, acts, true) && d <= i < |acts| && Completing(ss[d], t, who) && acts[i] == Commit(t)
    requires forall j | d <= j < i :: acts[j] != Commit(t) && acts[j] != Abort(t)
    ensures ss[i + 1].status.Done?
    ensures AllRecorded(ss[i + 1]) <==> !OtherOpen(ss[d], Own(who)) && !RetriedBetween(acts, d, i)
  {
    OpenSince(ss, acts, d, i, t, who);
    RunKeeps(ss, acts, i);
    assert StepAt(ss, acts, true, i);
    CommitRows(ss[i], t);
  }

  /**
   The statements of a finisher, or of the check after a resume, together do what one atomic
   step at commit time would: record the row, and complete the job if it is active and no
   other row is open then. They do so exactly unless they complete the job and a retry
   committed between the completing UPDATE and the commit.
   */
  lemma FinishIsAtomicUnlessRetried(ss: seq<State>, acts: seq<Step>, d: nat, i: nat, t: Txn)
    requires Run(ss, acts, true) && d < i < |acts| && acts[d] == Decide(t) && acts[i] == Commit(t)
    requires forall j | d < j < i :: acts[j] != Commit(t) && acts[j] != Abort(t)
    ensures t in ss[i].txns && t in ss[d + 1].txns && ss[d + 1].txns[t].Decided?
    ensures ss[i + 1].rows ==
      if ss[i].txns[t].who.Finisher? then ss[i].rows[ss[i].txns[t].who.row := Recorded] else ss[i].rows
    ensures ss[i + 1].status == (if NothingLeft(ss[i], Own(ss[i].txns[t].who)) then Done else ss[i].status) <==>
      !(ss[d + 1].txns[t].done && RetriedBetween(acts, d + 1, i))
    ensures ss[d + 1].txns[t].done ==> (AllRecorded(ss[i + 1]) <==> !RetriedBetween(acts, d + 1, i))
  {
    assert StepAt(ss, acts, true, d) && StepAt(ss, acts, true, i);
    RunKeeps(ss, acts, i);
    var p := ss[d + 1].txns[t];
    DecidedStays(ss, acts, d + 1, i, t, p);
    if p.done {
      SameOpen(ss[d], ss[d + 1], Own(p.who));
      OpenSince(ss, acts, d + 1, i, t, p.who);
      CompletesCleanlyExactlyIf(ss, acts, d + 1, i, t, p.who);
    }
  }

  lemma {:induction false} DecidedStays(ss: seq<State>, acts: seq<Step>, d: nat, n: nat, t: Txn, p: Stage)
    requires Run(ss, acts, true) && d <= n <= |acts| && t in ss[d].txns && ss[d].txns[t] == p && p.Decided?
    requires forall j | d <= j < n :: acts[j] != Commit(t) && acts[j] != Abort(t)
    ensures t in ss[n].txns && ss[n].txns[t] == p
    decreases n - d
  {
    if d < n {
      DecidedStays(ss, acts, d, n - 1, t, p);
      RunKeeps(ss, acts, n - 1);
      assert StepAt(ss, acts, true, n - 1);
    }
  }

  /** The retry's side: it leaves a done job with open rows exactly if the job became done after its job UPDATE. */
  lemma RetryStrandsExactlyIf(ss: seq<State>, acts: seq<Step>, c: nat, i: nat, t: Txn)
    requires Run(ss, acts, true) && c < i < |acts| && acts[c] == Recheck(t) && acts[i] == CommitRetry(t)
    ensures ss[i + 1].status.Done? <==> !ss[c].status.Done? && ss[i].status.Done?
    ensures !AllRecorded(ss[i + 1])
  {
    assert StepAt(ss, acts, true, c) && StepAt(ss, acts, true, i);
    RunKeeps(ss, acts, i);
    RecheckedStays(ss, acts, c + 1, i, t, ss[c + 1].retries[t]);
    RetriedOpens(ss[i], t, None);
  }

  lemma {:induction false} RecheckedStays(ss: seq<State>, acts: seq<Step>, c: nat, n: nat, t: Txn, p: Retrying)
    requires Run(ss, acts, true) && c <= n <= |acts| && t in ss[c].retries && ss[c].retries[t] == p && p.Rechecked?
    ensures t in ss[n].used && (t in ss[n].retries ==> ss[n].retries[t] == p)
    decreases n - c
  {
    RunKeeps(ss, acts, n);
    if c < n {
      RecheckedStays(ss, acts, c, n - 1, t, p);
      assert StepAt(ss, acts, true, n - 1);
    }
  }

  /** A retry commits while a transaction is completing the job, or after it missed the completion. */
  ghost predicate Late(s: State, a: Step) {
    && a.CommitRetry? && a.txn in s.retries && s.retries[a.txn].Rechecked?
    && ((s.status.Done? && !s.retries[a.txn].revive) || exists t | t in s.txns :: AboutToComplete(s.txns[t]))
  }

  predicate AboutToComplete(p: Stage) {
    p.Looked? || (p.Decided? && p.done)
  }

  ghost predicate Clean(s: State) {
    && (s.status.Done? ==> AllRecorded(s))
    && forall t | t in s.txns && AboutToComplete(s.txns[t]) :: !OtherOpen(s, Own(s.txns[t].who))
  }

  lemma CleanAfterCommit(s: State, t: Txn)
    requires LockInv(s) && OwnInv(s) && Enabled(s, Commit(t), true) && Clean(s)
    ensures Clean(Committing(s, t))
  {
    var s' := Committing(s, t);
    CommitRows(s, t);
    assert forall r | r in s.rows :: IsOpen(s', r) ==> IsOpen(s, r);
    assert forall u | u in s.txns && s.txns[u].Decided? :: NeedsLock(s, u);
  }

  lemma CleanStays(s: State, a: Step)
    requires Inv(s) && Enabled(s, a, true) && Clean(s) && !Late(s, a)
    ensures Clean(Next(s, a, true))
  {
    var s' := Next(s, a, true);
    if a.Commit? {
      CleanAfterCommit(s, a.txn);
    } else if !a.CommitRetry? {
      forall own: Option<RowId> ensures OtherOpen(s, own) == OtherOpen(s', own) {
        SameOpen(s, s', own);
      }
    }
  }

  /** Until a retry commits late, a done job has only recorded rows. */
  lemma {:induction false} DoneMeansRecorded(ss: seq<State>, acts: seq<Step>, n: nat)
    requires Run(ss, acts, true) && n < |ss| && forall i | 0 <= i < n :: !Late(ss[i], acts[i])
    ensures Clean(ss[n])
  {
    if n > 0 {
      DoneMeansRecorded(ss, acts, n - 1);
      RunKeeps(ss, acts, n - 1);
      assert StepAt(ss, acts, true, n - 1);
      CleanStays(ss[n - 1], acts[n - 1]);
    }
  }

  // ---- runs that go wrong -----------------------------------------------------------------------------

  /** Some run ends in `s`. */
  ghost predicate Reached(s: State, locking: bool) {
    exists ss: seq<State>, acts: seq<Step> :: Run(ss, acts, locking) && ss[|acts|] == s
  }

  lemma Reach(s: State, a: Step, s': State, locking: bool)
    requires Reached(s, locking) && Enabled(s, a, locking) && s' == Next(s, a, locking)
    ensures Reached(s', locking)
  {
    var ss: seq<State>, acts: seq<Step> :| Run(ss, acts, locking) && ss[|acts|] == s;
    var ss', acts' := ss + [s'], acts + [a];
    forall i | 0 <= i < |acts'| ensures StepAt(ss', acts', locking, i) {
      if i < |acts| {
        assert StepAt(ss, acts, locking, i);
      }
    }
    assert Run(ss', acts', locking) && ss'[|acts'|] == s';
  }

  const A := RowId("a")
  const B := RowId("b")
  const T := Txn(1)
  const U := Txn(2)
  const V := Txn(3)

  /** Two rows, running, claimed by T and U. */
  ghost function TwoRows(a: Committed, b: Committed, lock: Option<Txn>, txns: map<Txn, Stage>): State {
    State(map[A := a, B := b], Running, lock, txns, map[], {T, U}, 0, 0, false)
  }

  lemma BothHeld(locking: bool)
    ensures Reached(TwoRows(Held(T), Held(U), None, map[]), locking)
  {
    var s0 := State(map[A := Waiting, B := Waiting], Queued, None, map[], map[], {}, 0, 0, false);
    assert A in s0.rows.Keys;
    assert Run([s0], [], locking) && [s0][0] == s0;
    var s1 := State(map[A := Held(T), B := Waiting], Running, None, map[], map[], {T}, 0, 0, false);
    Reach(s0, TakeRow(A, T), s1, locking);
    Reach(s1, TakeRow(B, U), TwoRows(Held(T), Held(U), None, map[]), locking);
  }

  lemma BothLocked()
    ensures Reached(TwoRows(Held(T), Held(U), None, map[T := Locked(Finisher(A)), U := Locked(Finisher(B))]), false)
  {
    BothHeld(false);
    var s0 := TwoRows(Held(T), Held(U), None, map[]);
    var s1 := TwoRows(Held(T), Held(U), None, map[T := Updated(Finisher(A))]);
    Reach(s0, Begin(A, T), s1, false);
    var s2 := TwoRows(Held(T), Held(U), None, map[T := Updated(Finisher(A)), U := Updated(Finisher(B))]);
    Reach(s1, Begin(B, U), s2, false);
    var s3 := TwoRows(Held(T), Held(U), None, map[T := Locked(Finisher(A)), U := Updated(Finisher(B))]);
    Reach(s2, LockJob(T), s3, false);
    var s4 := TwoRows(Held(T), Held(U), None, map[T := Locked(Finisher(A)), U := Locked(Finisher(B))]);
    Reach(s3, LockJob(U), s4, false);
  }

  lemma BothDeclined()
    ensures Reached(
      TwoRows(Held(T), Held(U), None, map[T := Decided(Finisher(A), false), U := Decided(Finisher(B), false)]), false)
  {
    BothLocked();
    var s0 := TwoRows(Held(T), Held(U), None, map[T := Locked(Finisher(A)), U := Locked(Finisher(B))]);
    assert IsOpen(s0, B) && OtherOpen(s0, Some(A));
    var s1 := TwoRows(Held(T), Held(U), None, map[T := Decided(Finisher(A), false), U := Locked(Finisher(B))]);
    Reach(s0, Decide(T), s1, false);
    assert IsOpen(s1, A) && OtherOpen(s1, Some(B));
    var s2 := TwoRows(Held(T), Held(U), None, map[T := Decided(Finisher(A), false), U := Decided(Finisher(B), false)]);
    Reach(s1, Decide(U), s2, false);
  }

  ghost predicate Stuck(s: State) {
    s.txns == map[] && s.retries == map[] && s.status.Running? && AllRecorded(s)
  }

  /** Without the lock, two finishers of the last two rows each see the other's row as held, and the job is stuck. */
  lemma WithoutLockAJobIsLost()
    ensures exists s :: Reached(s, false) && Stuck(s)
  {
    BothDeclined();
    var s0 := TwoRows(Held(T), Held(U), None, map[T := Decided(Finisher(A), false), U := Decided(Finisher(B), false)]);
    var s1 := TwoRows(Recorded, Held(U), None, map[U := Decided(Finisher(B), false)]);
    Reach(s0, Commit(T), s1, false);
    var s2 := TwoRows(Recorded, Recorded, None, map[]);
    Reach(s1, Commit(U), s2, false);
    assert Reached(s2, false) && Stuck(s2);
  }

  lemma FirstRecorded()
    ensures Reached(TwoRows(Recorded, Held(U), None, map[]), true)
  {
    BothHeld(true);
    var s0 := TwoRows(Held(T), Held(U), None, map[]);
    var s1 := TwoRows(Held(T), Held(U), None, map[T := Updated(Finisher(A))]);
    Reach(s0, Begin(A, T), s1, true);
    var s2 := TwoRows(Held(T), Held(U), Some(T), map[T := Locked(Finisher(A))]);
    Reach(s1, LockJob(T), s2, true);
    assert IsOpen(s2, B) && OtherOpen(s2, Some(A));
    var s3 := TwoRows(Held(T), Held(U), Some(T), map[T := Decided(Finisher(A), false)]);
    Reach(s2, Decide(T), s3, true);
    Reach(s3, Commit(T), TwoRows(Recorded, Held(U), None, map[]), true);
  }

  lemma SecondDeciding()
    ensures Reached(TwoRows(Recorded, Held(U), Some(U), map[U := Decided(Finisher(B), true)]), true)
  {
    FirstRecorded();
    var s0 := TwoRows(Recorded, Held(U), None, map[]);
    var s1 := TwoRows(Recorded, Held(U), None, map[U := Updated(Finisher(B))]);
    Reach(s0, Begin(B, U), s1, true);
    var s2 := TwoRows(Recorded, Held(U), Some(U), map[U := Locked(Finisher(B))]);
    Reach(s1, LockJob(U), s2, true);
    assert !OtherOpen(s2, Some(B));
    Reach(s2, Decide(U), TwoRows(Recorded, Held(U), Some(U), map[U := Decided(Finisher(B), true)]), true);
  }

  ghost function WithRetry(a: Committed, txns: map<Txn, Stage>, retries: map<Txn, Retrying>): State {
    State(map[A := a, B := Held(U)], Running, Some(U), txns, retries, {T, U, V}, 0, 0, false)
  }

  /** The retry's job UPDATE finds the job running, as the completion is not committed. */
  lemma RetryMisses()
    ensures Reached(WithRetry(Recorded, map[U := Decided(Finisher(B), true)], map[V := Rechecked({A}, false)]), true)
  {
    SecondDeciding();
    var s0 := TwoRows(Recorded, Held(U), Some(U), map[U := Decided(Finisher(B), true)]);
    var s1 := WithRetry(Recorded, map[U := Decided(Finisher(B), true)], map[V := Reopening({A})]);
    assert A in {A};
    Reach(s0, Reopen(V, {A}), s1, true);
    var s2 := WithRetry(Recorded, map[U := Decided(Finisher(B), true)], map[V := Rechecked({A}, false)]);
    Reach(s1, Recheck(V), s2, true);
  }

  lemma RetryReopens()
    ensures Reached(WithRetry(Waiting, map[U := Decided(Finisher(B), true)], map[]), true)
  {
    RetryMisses();
    var s0 := WithRetry(Recorded, map[U := Decided(Finisher(B), true)], map[V := Rechecked({A}, false)]);
    var s1 := WithRetry(Waiting, map[U := Decided(Finisher(B), true)], map[]);
    assert Retried(s0, V).rows == s1.rows;
    Reach(s0, CommitRetry(V), s1, true);
  }

  /** Nothing is in flight and the job is done, but a row waits; only active jobs are served. */
  ghost predicate Stranded(s: State) {
    s.txns == map[] && s.retries == map[] && s.status.Done? && exists r | r in s.rows :: s.rows[r].Waiting?
  }

  /**
    * A retry that finds the job still running while its last finisher is about to commit strands the row it
    * reopened.
    */
  lemma RetryStrandsARow()
    ensures exists s :: Reached(s, true) && Stranded(s)
  {
    RetryReopens();
    var s0 := WithRetry(Waiting, map[U := Decided(Finisher(B), true)], map[]);
    var s1 := State(map[A := Waiting, B := Recorded], Done, None, map[], map[], {T, U, V}, 1, 0, false);
    Reach(s0, Commit(U), s1, true);
    assert A in s1.rows;
    assert Reached(s1, true) && Stranded(s1);
  }

  // Paused while its last row is out, the job is left to the check after the resume.

  ghost function LastRow(a: Committed, status: JobStatus, lock: Option<Txn>, txns: map<Txn, Stage>): State {
    State(map[A := a], status, lock, txns, map[], {T}, 0, 0, false)
  }

  lemma PausedWithLastRow()
    ensures Reached(LastRow(Held(T), Paused, None, map[]), true)
  {
    var s0 := State(map[A := Waiting], Queued, None, map[], map[], {}, 0, 0, false);
    assert A in s0.rows.Keys;
    assert Run([s0], [], true) && [s0][0] == s0;
    Reach(s0, TakeRow(A, T), LastRow(Held(T), Running, None, map[]), true);
    Reach(LastRow(Held(T), Running, None, map[]), Pause, LastRow(Held(T), Paused, None, map[]), true);
  }

  lemma RecordedWhilePaused()
    ensures Reached(LastRow(Recorded, Paused, None, map[]), true)
  {
    PausedWithLastRow();
    var s0 := LastRow(Held(T), Paused, None, map[]);
    var s1 := LastRow(Held(T), Paused, None, map[T := Updated(Finisher(A))]);
    Reach(s0, Begin(A, T), s1, true);
    var s2 := LastRow(Held(T), Paused, Some(T), map[T := Locked(Finisher(A))]);
    Reach(s1, LockJob(T), s2, true);
    var s3 := LastRow(Held(T), Paused, Some(T), map[T := Decided(Finisher(A), false)]);
    Reach(s2, Decide(T), s3, true);
    Reach(s3, Commit(T), LastRow(Recorded, Paused, None, map[]), true);
  }

  /** With the lock in place, losing the check after a resume leaves a job stuck until a sweep. */
  lemma LostCheckLeavesAJob()
    ensures exists s :: Reached(s, true) && Stuck(s)
  {
    RecordedWhilePaused();
    var s0 := LastRow(Recorded, Paused, None, map[]);
    var s1 := State(map[A := Recorded], Running, None, map[U := Updated(Check)], map[], {T, U}, 0, 0, false);
    Reach(s0, Resume(U), s1, true);
    var s2 := State(map[A := Recorded], Running, None, map[], map[], {T, U}, 0, 0, true);
    Reach(s1, Abort(U), s2, true);
    assert Reached(s2, true) && Stuck(s2);
  }
}
