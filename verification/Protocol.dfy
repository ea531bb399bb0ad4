/**
 Any number of workers against the tables: every run is a sequence of steps, each one
 transaction of the queue or one move of a claim's handler between two transactions.

 Beside the tables a world holds the handlers' local state and a history that no
 operation reads: every claim ever made, which claims let their lease lapse, started the
 pipeline or died with their process, and what happened to each row.
 */
module Protocol {
  import opened Tables
  import Q = QueueSpec

  /**
   Where the handler of one claim stands (`Worker._handle`). `since`: when the transaction began that reads the cache
   and then takes the domain lock, whose expiry is counted from there; or the earliest the transaction can have begun
   that records the result.
   */
  datatype Phase =
    | Claimed                                     // about to open its first transaction
    | Opened(since: Time)                         // about to read the cache
    | Missed(since: Time)                         // no usable entry: about to take the domain lock
    | TooMany(since: Time)                        // no usable entry and past MAX_CLAIMS
    | Hit(hit: DomainResult, entryAt: Time, since: Time)   // about to record a cached result
    | Holding                                     // took the lock, about to read the cache again
    | HoldingHit(hit: DomainResult, entryAt: Time)
    | Fetching                                    // `process_domain` is running
    | Fetched(result: DomainResult, since: Time)  // about to record the pipeline's result
    | GivingBack(delay: Time, counted: bool, unlock: bool)

  /** `charges`: claims of the current retry round that were not refunded, oldest first. */
  datatype RowLog = RowLog(charges: seq<Token>, recorded: nat, reopened: nat, entryAt: Option<Time>)

  /** When a claim took its domain lock, and when the transaction that did so had begun. */
  datatype Locking = Locking(since: Time, at: Time)

  datatype World = World(
    db: Db,
    now: Time,
    handlers: map<Token, Phase>,
    claims: map<Token, Claim>,
    lapsed: set<Token>,
    started: set<Token>,
    crashed: set<Token>,
    lockings: map<Token, Locking>,
    owed: set<JobId>,             // resumed, completion check still to run
    stranded: set<JobId>,         // done, but a retry reopened rows that missed the completion
    logs: map<RowKey, RowLog>)

  /** `since`: when the transaction began. It is what `now()` gives throughout the transaction. */
  datatype Step =
    | Tick(dt: Time)
    | CreateJob(newJob: JobId, domains: seq<string>, isFresh: bool, owner: Option<int>, since: Time)
    | ClaimRow(key: RowKey, token: Token, since: Time)
    | Open(token: Token)
    | ReadCache(token: Token, readable: bool)
    | TryLock(token: Token)
    | ReadCacheLocked(token: Token, readable: bool)
    | Unlock(token: Token)
    | PipelineReturns(token: Token, result: DomainResult)
    | AccountError(token: Token)
    | Finish(token: Token, since: Time)
    | GiveBack(token: Token, since: Time)
    | Fail(token: Token)
    | Crash(token: Token)
    | Heartbeat(tokens: set<Token>, since: Time)
    | Reap(since: Time)
    | Sweep(since: Time)
    | ReleaseWorker(worker: Worker, since: Time)
    | PauseActive(reason: string, since: Time)
    | Resume(job: JobId, since: Time)
    | ResumeFor(reason: string, since: Time)
    | CompleteIfFinished(job: JobId, since: Time)
    | Cancel(job: JobId, since: Time)
    | RequeueFailed(job: JobId, seen: bool, since: Time)

  const INIT := World(Db(map[], map[], map[]), 0.0, map[], map[], {}, {}, {}, map[], {}, {}, map[])

  const TOO_MANY := DomainResult(FetchFailed, Some(InternalError), Some(TooManyAttempts), 0, "")

  ghost predicate At(w: World, t: Token) {
    t in w.handlers && t in w.claims && w.claims[t].key.job in w.db.jobs
  }

  /** Any available row may be claimed: the list of jobs to serve can be stale by then. */
  ghost predicate CanClaim(w: World, k: RowKey, t: Token, since: Time) {
    && k in w.db.rows && k in w.logs && k.job in w.db.jobs && t !in w.claims
    && Q.Pickable(w.db.rows[k], since) && since <= w.now
  }

  ghost predicate CanFinish(w: World, t: Token, since: Time) {
    && At(w, t) && (w.handlers[t].Hit? || w.handlers[t].TooMany? || w.handlers[t].Fetched?)
    && w.handlers[t].since <= since <= w.now
  }

  /** A worker sends one heartbeat at a time, begun after the claims it names were made. */
  ghost predicate CanBeat(w: World, ts: set<Token>, since: Time) {
    && since <= w.now
    && forall k | k in w.db.rows && w.db.rows[k].claimedBy.Some? && w.db.rows[k].claimedBy.value in ts ::
      w.db.rows[k].heartbeatAt.Some? ==> w.db.rows[k].heartbeatAt.value <= since
  }

  ghost predicate Enabled(w: World, s: Step) {
    match s
    case Tick(dt) => dt > 0.0
    case CreateJob(j, _, _, _, since) => j !in w.db.jobs && since <= w.now
    case ClaimRow(k, t, since) => CanClaim(w, k, t, since)
    case Open(t) => At(w, t) && w.handlers[t].Claimed?
    case ReadCache(t, _) => At(w, t) && w.handlers[t].Opened?
    case TryLock(t) => At(w, t) && w.handlers[t].Missed?
    case ReadCacheLocked(t, _) => At(w, t) && w.handlers[t].Holding?
    case Unlock(t) => At(w, t) && (w.handlers[t].HoldingHit? || (w.handlers[t].GivingBack? && w.handlers[t].unlock))
    case PipelineReturns(t, _) => At(w, t) && w.handlers[t].Fetching?
    case AccountError(t) => At(w, t) && w.handlers[t].Fetching?
    case Finish(t, since) => CanFinish(w, t, since)
    case GiveBack(t, since) => At(w, t) && w.handlers[t].GivingBack? && !w.handlers[t].unlock && since <= w.now
    case Fail(t) => At(w, t)
    case Crash(t) => At(w, t)
    case Heartbeat(ts, since) => CanBeat(w, ts, since)
    case ReleaseWorker(v, since) => since <= w.now && forall t | t in w.handlers :: t.worker != v
    case RequeueFailed(j, seen, since) => since <= w.now && (seen || (j in w.db.jobs && w.db.jobs[j].status.Done?))
    case _ => s.since <= w.now
  }

  ghost function Next(w: World, s: Step): World
    requires Enabled(w, s)
  {
    match s
    case Tick(dt) => DoTick(w, dt)
    case CreateJob(j, ds, f, o, since) => DoCreateJob(w, j, ds, f, o, since)
    case ClaimRow(k, t, since) => DoClaim(w, k, t, since)
    case Open(t) => w.(handlers := w.handlers[t := Opened(w.now)])
    case ReadCache(t, readable) => w.(handlers := w.handlers[t := AfterRead(w, t, readable)])
    case TryLock(t) => DoTryLock(w, t)
    case ReadCacheLocked(t, readable) => DoReadLocked(w, t, readable)
    case Unlock(t) => DoUnlock(w, t)
    case PipelineReturns(t, r) => w.(handlers := w.handlers[t := AfterPipeline(w.claims[t], r, w.now)])
    case AccountError(t) => w.(handlers := w.handlers[t := GivingBack(0.0, false, true)])
    case Finish(t, since) => DoFinish(w, t, since)
    case GiveBack(t, since) => DoGiveBack(w, t, since)
    case Fail(t) => w.(handlers := w.handlers[t := GivingBack(ERROR_RETRY_DELAY_S, true, true)])
    case Crash(t) => w.(handlers := w.handlers - {t}, crashed := w.crashed + {t})
    case Heartbeat(ts, since) => DoHeartbeat(w, ts, since)
    case Reap(since) => w.(db := Q.Reap(w.db, since))
    case Sweep(since) => w.(db := Q.CompleteFinishedJobs(w.db, since), owed := {})
    case ReleaseWorker(v, since) => DoRelease(w, v, since)
    case PauseActive(r, since) => w.(db := Q.PauseActiveJobs(w.db, r, since))
    case Resume(j, since) => w.(db := Q.Resume(w.db, j, since),
                                owed := if j in w.db.jobs && w.db.jobs[j].status.Paused? then w.owed + {j} else w.owed)
    case ResumeFor(r, since) => w.(db := Q.ResumePausedFor(w.db, r, since),
                                   owed := w.owed + (set j | j in w.db.jobs && Q.PausedFor(w.db.jobs[j], r)))
    case CompleteIfFinished(j, since) => w.(db := Q.CompleteIfFinished(w.db, j, since), owed := w.owed - {j})
    case Cancel(j, since) => w.(db := Q.Cancel(w.db, j, since))
    case RequeueFailed(j, seen, since) => DoRequeueFailed(w, j, seen, since)
  }

  // ---- time -----------------------------------------------------------------------------

  ghost predicate LockOut(db: Db, d: string, t: Token, now: Time) {
    && d in db.domains && db.domains[d].lockOwner == Some(t)
    && db.domains[d].lockUntil.Some? && db.domains[d].lockUntil.value < now
  }

  /** The row is running under this claim, but its heartbeat is older than the lease or its lock has run out. */
  ghost predicate Overdue(db: Db, k: RowKey, t: Token, now: Time) {
    Q.Owns(db, k, t) && (Q.Silent(db.rows[k], now) || LockOut(db, k.domain, t, now))
  }

  ghost function NowOverdue(w: World, db: Db, now: Time): set<Token> {
    set t | t in w.claims && Overdue(db, w.claims[t].key, t, now)
  }

  ghost function DoTick(w: World, dt: Time): World {
    w.(now := w.now + dt, lapsed := w.lapsed + NowOverdue(w, w.db, w.now + dt))
  }

  ghost function DoCreateJob(w: World, j: JobId, ds: seq<string>, isFresh: bool, owner: Option<int>, since: Time): World
  {
    w.(db := Q.CreateJob(w.db, j, ds, isFresh, owner, since),
       logs := w.logs + map k | k in Q.JobKeys(j, ds) :: RowLog([], 0, 0, None))
  }

  // ---- one claim --------------------------------------------------------------------------

  /** The heartbeat counts from the transaction's start, which can be past the lease already. */
  ghost function DoClaim(w: World, k: RowKey, t: Token, since: Time): World
    requires k in w.db.rows && k in w.logs && k.job in w.db.jobs
  {
    w.(db := Q.ClaimRow(w.db, k, t, since),
       handlers := w.handlers[t := Claimed],
       claims := w.claims[t := Claim(k, w.db.rows[k].attempts + 1, t, w.db.rows[k].requeuedAt)],
       lapsed := if since < w.now - LEASE_S then w.lapsed + {t} else w.lapsed,
       logs := w.logs[k := w.logs[k].(charges := w.logs[k].charges + [t])])
  }

  ghost predicate Readable(w: World, t: Token, readable: bool)
    requires At(w, t)
  {
    var c := w.claims[t];
    readable && Q.CacheUsable(w.db.jobs[c.key.job], Q.Entry(w.db, c.key.domain), c.notBefore, w.now)
  }

  ghost function AfterRead(w: World, t: Token, readable: bool): Phase
    requires At(w, t) && w.handlers[t].Opened?
  {
    var e := Q.Entry(w.db, w.claims[t].key.domain);
    if Readable(w, t, readable) then Hit(e.result.value, e.finishedAt.value, w.handlers[t].since)
    else if w.claims[t].attempts > MAX_CLAIMS then TooMany(w.handlers[t].since)
    else Missed(w.handlers[t].since)
  }

  /** Both the test whether the lock is free and its new expiry count from the transaction's start. */
  ghost function DoTryLock(w: World, t: Token): World
    requires At(w, t) && w.handlers[t].Missed?
  {
    var d, since := w.claims[t].key.domain, w.handlers[t].since;
    var db := Q.LockDomain(w.db, d, t, since);
    if Q.LockFree(Q.Entry(w.db, d), since)
    then w.(db := db,
            handlers := w.handlers[t := Holding],
            lockings := w.lockings[t := Locking(since, w.now)],
            lapsed := if Overdue(db, w.claims[t].key, t, w.now) then w.lapsed + {t} else w.lapsed)
    else w.(db := db, handlers := w.handlers[t := GivingBack(LOCK_BUSY_DELAY_S, false, false)])
  }

  ghost function DoReadLocked(w: World, t: Token, readable: bool): World
    requires At(w, t)
  {
    var e := Q.Entry(w.db, w.claims[t].key.domain);
    if Readable(w, t, readable)
    then w.(handlers := w.handlers[t := HoldingHit(e.result.value, e.finishedAt.value)])
    else w.(handlers := w.handlers[t := Fetching], started := w.started + {t})
  }

  ghost function DoUnlock(w: World, t: Token): World
    requires At(w, t) && (w.handlers[t].HoldingHit? || w.handlers[t].GivingBack?)
  {
    var p := w.handlers[t];
    w.(db := Q.UnlockDomain(w.db, w.claims[t].key.domain, t),
       handlers := w.handlers[t := if p.HoldingHit? then Hit(p.hit, p.entryAt, w.now) else p.(unlock := false)])
  }

  ghost function AfterPipeline(c: Claim, r: DomainResult, now: Time): Phase {
    if r.errorReason == Some(CircuitOpen) && c.attempts < MAX_DOMAIN_ATTEMPTS
    then GivingBack(RETRY_PASS_DELAY_S, true, true)
    else Fetched(r, now)
  }

  ghost function Outcome(p: Phase): DomainResult
    requires p.Hit? || p.TooMany? || p.Fetched?
  {
    if p.Hit? then p.hit else if p.TooMany? then TOO_MANY else p.result
  }

  ghost function DoFinish(w: World, t: Token, since: Time): World
    requires At(w, t) && (w.handlers[t].Hit? || w.handlers[t].TooMany? || w.handlers[t].Fetched?)
  {
    var p, k := w.handlers[t], w.claims[t].key;
    w.(db := Q.Finish(w.db, k, t, Outcome(p), p.Hit?, !p.TooMany?, since),
       handlers := w.handlers - {t},
       logs := if Q.Owns(w.db, k, t) && k in w.logs
               then w.logs[k := w.logs[k].(recorded := w.logs[k].recorded + 1,
                                           entryAt := if p.Hit? then Some(p.entryAt) else None)]
               else w.logs)
  }

  ghost function Refunded(l: RowLog): RowLog {
    l.(charges := if l.charges == [] then [] else l.charges[..|l.charges| - 1])
  }

  ghost function DoGiveBack(w: World, t: Token, since: Time): World
    requires At(w, t) && w.handlers[t].GivingBack?
  {
    var p, k := w.handlers[t], w.claims[t].key;
    w.(db := Q.Requeue(w.db, k, t, p.delay, p.counted, since),
       handlers := w.handlers - {t},
       logs := if Q.Owns(w.db, k, t) && k in w.logs && !p.counted
               then w.logs[k := Refunded(w.logs[k])] else w.logs)
  }

  // ---- bulk operations ----------------------------------------------------------------------

  ghost function DoHeartbeat(w: World, ts: set<Token>, since: Time): World {
    var db := Q.Heartbeat(w.db, ts, since);
    w.(db := db, lapsed := w.lapsed + NowOverdue(w, db, w.now))
  }

  ghost function DoRelease(w: World, v: Worker, since: Time): World {
    w.(db := Q.ReleaseWorker(w.db, v, since),
       logs := map k | k in w.logs ::
         if k in w.db.rows && w.db.rows[k].state.RowRunning? && Q.HeldBy(w.db.rows[k].claimedBy, v)
         then Refunded(w.logs[k]) else w.logs[k])
  }

  /**
   A retry does not wait for a finisher that is about to commit. When the completion it misses is
   committed first, it reopens its rows and leaves the job done (`seen` is false).
   */
  ghost function DoRequeueFailed(w: World, j: JobId, seen: bool, since: Time): World {
    w.(db := if seen then Q.RequeueFailed(w.db, j, since) else Q.ReopenRows(w.db, j, since),
       stranded := if !Q.AnyRetryable(w.db.rows, j) then w.stranded
                   else if seen then w.stranded - {j} else w.stranded + {j},
       logs := map k | k in w.logs ::
         if k in w.db.rows && k.job == j && Q.Retryable(w.db.rows[k])
         then w.logs[k].(charges := [], reopened := w.logs[k].reopened + 1) else w.logs[k])
  }

  // ---- runs -----------------------------------------------------------------------------------

  ghost predicate StepAt(ws: seq<World>, ss: seq<Step>, i: nat)
    requires i < |ss| && |ws| == |ss| + 1
  {
    Enabled(ws[i], ss[i]) && ws[i + 1] == Next(ws[i], ss[i])
  }

  /** `ws` is a run from the empty tables, `ss[i]` leading from `ws[i]` to `ws[i + 1]`. */
  ghost predicate Run(ws: seq<World>, ss: seq<Step>) {
    && |ws| == |ss| + 1
    && ws[0] == INIT
    && forall i | 0 <= i < |ss| :: StepAt(ws, ss, i)
  }
}
