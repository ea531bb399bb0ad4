/**
 What each queue operation does to the tables, as a function of the tables before it.
 Every operation is one transaction, and `now` is what it takes for the time: its start.
 */
module QueueSpec {
  import opened Tables

  predicate Active(j: Job) {
    j.status.Queued? || j.status.Running?
  }

  predicate Open(r: Row) {
    !r.state.RowDone?
  }

  predicate HasOpen(rows: map<RowKey, Row>, j: JobId) {
    exists k | k in rows :: k.job == j && Open(rows[k])
  }

  /** Some row of `k`'s job other than `k` itself is still open. */
  predicate OtherOpen(rows: map<RowKey, Row>, k: RowKey) {
    exists o | o in rows :: o != k && o.job == k.job && Open(rows[o])
  }

  function RowsOf(rows: map<RowKey, Row>, j: JobId): set<RowKey> {
    set k | k in rows && k.job == j
  }

  /** The row is running under exactly this claim. */
  predicate Owns(db: Db, k: RowKey, t: Token) {
    k in db.rows && db.rows[k].state.RowRunning? && db.rows[k].claimedBy == Some(t)
  }

  // ---- claim ----------------------------------------------------------------------

  predicate Pickable(r: Row, now: Time) {
    r.state.RowQueued? && r.availableAt <= now
  }

  function StartedJob(j: Job, now: Time): Job {
    if j.status.Queued? || j.startedAt.None? then
      j.(status := if j.status.Queued? then Running else j.status,
         startedAt := Some(Coalesce(j.startedAt, now)))
    else j
  }

  function ClaimedRow(r: Row, t: Token, now: Time): Row {
    r.(state := RowRunning, claimedBy := Some(t), heartbeatAt := Some(now), attempts := r.attempts + 1)
  }

  function ClaimRow(db: Db, k: RowKey, t: Token, now: Time): Db
    requires k in db.rows && k.job in db.jobs
  {
    db.(rows := db.rows[k := ClaimedRow(db.rows[k], t, now)],
        jobs := db.jobs[k.job := StartedJob(db.jobs[k.job], now)])
  }

  // ---- shared cache and domain lock -----------------------------------------------

  /** The line a cached result must not be older than: creation, or a later retry. */
  function Floor(j: Job, notBefore: Option<Time>): Time {
    if notBefore.Some? then Max(j.createdAt, notBefore.value) else j.createdAt
  }

  predicate CacheUsable(j: Job, e: Domain, notBefore: Option<Time>, now: Time) {
    && e.finishedAt.Some?
    && e.result.Some?
    && (|| e.finishedAt.value >= Floor(j, notBefore)
        || (&& !j.isFresh
            && !e.result.value.status.FetchFailed?
            && e.finishedAt.value >= now - CACHE_S))
  }

  const PENDING := Domain(None, None, None, None)

  function Entry(db: Db, d: string): Domain {
    if d in db.domains then db.domains[d] else PENDING
  }

  predicate LockFree(e: Domain, now: Time) {
    e.lockOwner.None? || (e.lockUntil.Some? && e.lockUntil.value < now)
  }

  function LockDomain(db: Db, d: string, t: Token, now: Time): Db {
    var e := Entry(db, d);
    db.(domains := db.domains[d :=
      if LockFree(e, now) then e.(lockOwner := Some(t), lockUntil := Some(now + LEASE_S)) else e])
  }

  function Unlocked(e: Domain, t: Token): Domain {
    if e.lockOwner == Some(t) then e.(lockOwner := None, lockUntil := None) else e
  }

  function UnlockDomain(db: Db, d: string, t: Token): Db {
    if d in db.domains then db.(domains := db.domains[d := Unlocked(db.domains[d], t)]) else db
  }

  // ---- giving a row back ------------------------------------------------------------

  function RequeuedRow(r: Row, availableAt: Time, refund: int): Row {
    r.(state := RowQueued, claimedBy := None, heartbeatAt := None,
       availableAt := availableAt, attempts := r.attempts - refund)
  }

  function Requeue(db: Db, k: RowKey, t: Token, delay: Time, counted: bool, now: Time): Db {
    if Owns(db, k, t) then
      db.(rows := db.rows[k := RequeuedRow(db.rows[k], now + delay, if counted then 0 else 1)])
    else db
  }

  predicate Silent(r: Row, now: Time) {
    r.state.RowRunning? && r.heartbeatAt.Some? && r.heartbeatAt.value < now - LEASE_S
  }

  function Reap(db: Db, now: Time): Db {
    db.(rows := map k | k in db.rows ::
      if Silent(db.rows[k], now) then RequeuedRow(db.rows[k], now, 0) else db.rows[k])
  }

  predicate HeldBy(t: Option<Token>, w: Worker) {
    t.Some? && t.value.worker == w
  }

  function ReleasedRow(r: Row, w: Worker, now: Time): Row {
    if r.state.RowRunning? && HeldBy(r.claimedBy, w) then
      RequeuedRow(r, now, if r.attempts >= 1 then 1 else r.attempts)  // greatest(attempts - 1, 0)
    else r
  }

  function ReleaseWorker(db: Db, w: Worker, now: Time): Db {
    db.(rows := map k | k in db.rows :: ReleasedRow(db.rows[k], w, now),
        domains := map d | d in db.domains ::
          if HeldBy(db.domains[d].lockOwner, w)
          then db.domains[d].(lockOwner := None, lockUntil := None) else db.domains[d])
  }

  function Heartbeat(db: Db, tokens: set<Token>, now: Time): Db {
    db.(rows := map k | k in db.rows ::
          var r := db.rows[k];
          if r.state.RowRunning? && r.claimedBy.Some? && r.claimedBy.value in tokens
          then r.(heartbeatAt := Some(now)) else r,
        domains := map d | d in db.domains ::
          var e := db.domains[d];
          if e.lockOwner.Some? && e.lockOwner.value in tokens
          then e.(lockUntil := Some(now + LEASE_S)) else e)
  }

  // ---- recording a result -------------------------------------------------------------

  function RecordedRow(r: Row, res: DomainResult, fromCache: bool, now: Time): Row {
    r.(state := RowDone, finishedAt := Some(now), claimedBy := None, fromCache := fromCache,
       jinaTokens := if fromCache then 0 else res.jinaTokens, result := Some(res))
  }

  function CompletedJob(j: Job, rows: nat, now: Time): Job {
    j.(status := Done, finishedAt := Some(now), doneCount := rows)
  }

  /** Job `j` is marked done when it is active and nothing of it is open. */
  function CompleteIfFinished(db: Db, j: JobId, now: Time): Db {
    if j in db.jobs && Active(db.jobs[j]) && !HasOpen(db.rows, j) then
      db.(jobs := db.jobs[j := CompletedJob(db.jobs[j], |RowsOf(db.rows, j)|, now)])
    else db
  }

  /** The sweep: `CompleteIfFinished` for every job at once. */
  function CompleteFinishedJobs(db: Db, now: Time): Db {
    db.(jobs := map j | j in db.jobs ::
      if Active(db.jobs[j]) && !HasOpen(db.rows, j)
      then CompletedJob(db.jobs[j], |RowsOf(db.rows, j)|, now) else db.jobs[j])
  }

  /** Recording row `k` completes its job: told from the tables before the operation. */
  predicate Completes(db: Db, k: RowKey) {
    k.job in db.jobs && Active(db.jobs[k.job]) && !OtherOpen(db.rows, k)
  }

  function RecordedEntry(e: Domain, t: Token, res: DomainResult, cached: bool, now: Time): Domain {
    Unlocked(if cached then e.(finishedAt := Some(now), result := Some(res)) else e, t)
  }

  /** A claim that lost its row writes nothing but the release of its own domain lock. */
  function Finish(db: Db, k: RowKey, t: Token, res: DomainResult, fromCache: bool, writeCache: bool, now: Time): Db {
    if !Owns(db, k, t) then UnlockDomain(db, k.domain, t)
    else
      Db(if Completes(db, k)
         then db.jobs[k.job := CompletedJob(db.jobs[k.job], |RowsOf(db.rows, k.job)|, now)] else db.jobs,
         db.rows[k := RecordedRow(db.rows[k], res, fromCache, now)],
         if k.domain in db.domains
         then db.domains[k.domain :=
                RecordedEntry(db.domains[k.domain], t, res, !fromCache && writeCache, now)]
         else db.domains)
  }

  /** Once `k` is recorded, its job has open rows exactly if another one was open before. */
  lemma OpenAfterRecording(rows: map<RowKey, Row>, k: RowKey, rows': map<RowKey, Row>)
    requires k in rows && k in rows' && rows' == rows[k := rows'[k]] && !Open(rows'[k])
    ensures HasOpen(rows', k.job) == OtherOpen(rows, k)
  {
    if OtherOpen(rows, k) {
      var o :| o in rows && o != k && o.job == k.job && Open(rows[o]);
      assert Open(rows'[o]);
    }
  }

  // ---- job transitions ----------------------------------------------------------------

  predicate Retryable(r: Row) {
    && r.state.RowDone?
    && r.result.Some?
    && r.result.value.status.FetchFailed?
    && (|| (&& r.result.value.errorReason.Some?
            && !r.result.value.errorReason.value.OtherReason?)
        || r.result.value.siteStatus == Some(TooManyAttempts))
  }

  function ReopenedRow(r: Row, now: Time): Row {
    r.(state := RowQueued, attempts := 0, claimedBy := None, heartbeatAt := None,
       availableAt := now, requeuedAt := Some(now))
  }

  function ReopenedJob(j: Job, now: Time): Job {
    if j.status.Done? then
      j.(status := Running,
         pausedSeconds := j.pausedSeconds + (if j.finishedAt.Some? then now - j.finishedAt.value else 0.0),
         finishedAt := None)
    else j
  }

  predicate AnyRetryable(rows: map<RowKey, Row>, j: JobId) {
    exists k | k in rows :: k.job == j && Retryable(rows[k])
  }

  /** The first statement of a retry. */
  function ReopenRows(db: Db, j: JobId, now: Time): Db {
    db.(rows := map k | k in db.rows ::
          if k.job == j && Retryable(db.rows[k]) then ReopenedRow(db.rows[k], now) else db.rows[k])
  }

  function RequeueFailed(db: Db, j: JobId, now: Time): Db {
    ReopenRows(db, j, now).(
      jobs := if j in db.jobs && AnyRetryable(db.rows, j)
              then db.jobs[j := ReopenedJob(db.jobs[j], now)] else db.jobs)
  }

  function PausedJob(j: Job, reason: string, now: Time): Job {
    if Active(j) then j.(status := Paused, pauseReason := Some(reason), pausedAt := Some(now)) else j
  }

  function PauseActiveJobs(db: Db, reason: string, now: Time): Db {
    db.(jobs := map j | j in db.jobs :: PausedJob(db.jobs[j], reason, now))
  }

  /** Only the part of a pause after the first claim is booked. */
  function BookedPause(j: Job, now: Time): Time {
    j.pausedSeconds +
    (if j.startedAt.Some? && j.pausedAt.Some? then now - Max(j.pausedAt.value, j.startedAt.value) else 0.0)
  }

  function ResumedJob(j: Job, now: Time): Job {
    j.(status := Running, pauseReason := None, pausedSeconds := BookedPause(j, now), pausedAt := None)
  }

  function Resume(db: Db, j: JobId, now: Time): Db {
    if j in db.jobs && db.jobs[j].status.Paused?
    then db.(jobs := db.jobs[j := ResumedJob(db.jobs[j], now)]) else db
  }

  predicate PausedFor(j: Job, reason: string) {
    j.status.Paused? && j.pauseReason == Some(reason)
  }

  function ResumePausedFor(db: Db, reason: string, now: Time): Db {
    db.(jobs := map j | j in db.jobs ::
      if PausedFor(db.jobs[j], reason) then ResumedJob(db.jobs[j], now) else db.jobs[j])
  }

  function CancelledJob(j: Job, now: Time): Job {
    j.(status := Cancelled, pauseReason := None, pausedSeconds := BookedPause(j, now), pausedAt := None,
       finishedAt := Some(Coalesce(j.finishedAt, now)))
  }

  function Cancel(db: Db, j: JobId, now: Time): Db {
    if j in db.jobs && (Active(db.jobs[j]) || db.jobs[j].status.Paused?)
    then db.(jobs := db.jobs[j := CancelledJob(db.jobs[j], now)]) else db
  }

  /** First claim to finish (or now), minus pauses; none before the first claim. */
  function ActiveSeconds(j: Job, now: Time): Option<Time> {
    if j.startedAt.None? then None
    else
      var open := if j.pausedAt.Some? && j.finishedAt.None?
                  then now - Max(j.pausedAt.value, j.startedAt.value) else 0.0;
      Some(Max(0.0, Coalesce(j.finishedAt, now) - j.startedAt.value - j.pausedSeconds - open))
  }

  // ---- job creation ---------------------------------------------------------------------

  function IndexOf(ds: seq<string>, d: string): (i: nat)
    requires d in ds
    ensures i < |ds| && ds[i] == d && d !in ds[..i]
  {
    if ds[0] == d then 0 else 1 + IndexOf(ds[1..], d)
  }

  function NewRow(i: nat, now: Time): Row {
    Row(i, RowQueued, 0, now, None, None, None, false, 0, None, None)
  }

  function NewJob(empty: bool, isFresh: bool, owner: Option<int>, now: Time): Job {
    Job(if empty then Done else Queued, now, None, if empty then Some(now) else None,
        None, 0.0, None, isFresh, owner, 0)
  }

  function JobKeys(j: JobId, domains: seq<string>): (ks: set<RowKey>)
    ensures forall k :: k in ks <==> k.job == j && k.domain in domains
  {
    set d | d in domains :: RowKey(j, d)
  }

  function NewRows(j: JobId, domains: seq<string>, now: Time): (m: map<RowKey, Row>)
    ensures m.Keys == JobKeys(j, domains)
    ensures forall k | k in m ::
      m[k] == NewRow(m[k].seqNo, now) && m[k].seqNo < |domains| && domains[m[k].seqNo] == k.domain
  {
    map k | k in JobKeys(j, domains) :: NewRow(IndexOf(domains, k.domain), now)
  }

  /** One queued row per domain, numbered in input order; a job without domains is done at once. */
  function CreateJob(db: Db, j: JobId, domains: seq<string>, isFresh: bool, owner: Option<int>, now: Time): Db {
    Db(db.jobs[j := NewJob(domains == [], isFresh, owner, now)],
       db.rows + NewRows(j, domains, now),
       (map d | d in domains :: PENDING) + db.domains)
  }
}
