/** What every operation of the queue leaves in the tables, column by column, told from the tables before. */
module QueueEffects {
  import opened Tables
  import Q = QueueSpec

  /** Only rows differ, and no row appears or goes. */
  predicate OnlyRows(db: Db, db': Db) {
    db'.jobs == db.jobs && db'.domains == db.domains && db'.rows.Keys == db.rows.Keys
  }

  predicate OnlyJobs(db: Db, db': Db) {
    db'.rows == db.rows && db'.domains == db.domains && db'.jobs.Keys == db.jobs.Keys
  }

  // ---- claiming -------------------------------------------------------------------------------

  /** The row runs under the claim with one more attempt; a queued job runs, and keeps its first start. */
  lemma ClaimEffect(db: Db, k: RowKey, t: Token, now: Time)
    requires k in db.rows && k.job in db.jobs
    ensures var db', r, j := Q.ClaimRow(db, k, t, now), db.rows[k], db.jobs[k.job];
      && db'.rows == db.rows[k := r.(state := RowRunning, attempts := r.attempts + 1, claimedBy := Some(t),
           heartbeatAt := Some(now))]
      && db'.domains == db.domains
      && db'.jobs == db.jobs[k.job := j.(status := if j.status == Queued then Running else j.status,
           startedAt := Some(if j.startedAt.Some? then j.startedAt.value else now))]
  {
  }

  // ---- cache and lock ---------------------------------------------------------------------------

  /**
   A finished result may be reused if it is no older than the job and the row's last retry; or, unless the job is
   fresh or the result a failure, if it finished within the cache's time.
   */
  predicate Usable(j: Job, e: Domain, notBefore: Option<Time>, now: Time) {
    && e.finishedAt.Some? && e.result.Some?
    && (|| (e.finishedAt.value >= j.createdAt && (notBefore.Some? ==> e.finishedAt.value >= notBefore.value))
        || (!j.isFresh && e.result.value.status != FetchFailed && now - e.finishedAt.value <= CACHE_S))
  }

  lemma CacheUsableExactlyIf(j: Job, e: Domain, notBefore: Option<Time>, now: Time)
    ensures Q.CacheUsable(j, e, notBefore, now) <==> Usable(j, e, notBefore, now)
  {
  }

  predicate Free(db: Db, d: string, now: Time) {
    d in db.domains && db.domains[d].lockOwner.Some? ==>
      db.domains[d].lockUntil.Some? && db.domains[d].lockUntil.value < now
  }

  lemma LockEffect(db: Db, d: string, t: Token, now: Time)
    ensures var db' := Q.LockDomain(db, d, t, now);
      var e := if d in db.domains then db.domains[d] else Domain(None, None, None, None);
      && db'.rows == db.rows && db'.jobs == db.jobs
      && db'.domains == db.domains[d :=
           if Free(db, d, now) then Domain(e.finishedAt, e.result, Some(t), Some(now + LEASE_S)) else e]
    ensures Q.LockFree(Q.Entry(db, d), now) <==> Free(db, d, now)
  {
  }

  /** Only the owner's lock goes. */
  lemma UnlockEffect(db: Db, d: string, t: Token)
    ensures var db' := Q.UnlockDomain(db, d, t);
      && db'.rows == db.rows && db'.jobs == db.jobs && db'.domains.Keys == db.domains.Keys
      && forall x | x in db.domains :: var e := db.domains[x];
        db'.domains[x] == if x == d && e.lockOwner == Some(t) then Domain(e.finishedAt, e.result, None, None) else e
  {
  }

  // ---- rows given back ----------------------------------------------------------------------------

  /** Back in the queue: nobody's, available at the time given. */
  predicate BackInQueue(r: Row, r': Row, at: Time, attempts: int) {
    r' == Row(r.seqNo, RowQueued, attempts, at, None, None, r.finishedAt, r.fromCache, r.jinaTokens, r.result,
              r.requeuedAt)
  }

  lemma RequeueEffect(db: Db, k: RowKey, t: Token, delay: Time, counted: bool, now: Time)
    ensures var db' := Q.Requeue(db, k, t, delay, counted, now);
      && OnlyRows(db, db')
      && forall o | o in db.rows :: var r := db.rows[o];
        if o == k && r.state == RowRunning && r.claimedBy == Some(t)
        then BackInQueue(r, db'.rows[o], now + delay, if counted then r.attempts else r.attempts - 1)
        else db'.rows[o] == r
  {
  }

  /** The row's worker has not been heard of for longer than the lease. */
  predicate Silent(r: Row, now: Time) {
    r.state == RowRunning && r.heartbeatAt.Some? && r.heartbeatAt.value < now - LEASE_S
  }

  lemma ReapEffect(db: Db, now: Time)
    ensures var db' := Q.Reap(db, now);
      && OnlyRows(db, db')
      && forall k | k in db.rows :: var r := db.rows[k];
        if Silent(r, now) then BackInQueue(r, db'.rows[k], now, r.attempts) else db'.rows[k] == r
  {
  }

  predicate Of(t: Option<Token>, v: Worker) {
    t.Some? && t.value.worker == v
  }

  lemma ReleaseEffect(db: Db, v: Worker, now: Time)
    ensures var db' := Q.ReleaseWorker(db, v, now);
      && db'.jobs == db.jobs && db'.rows.Keys == db.rows.Keys && db'.domains.Keys == db.domains.Keys
      && (forall k | k in db.rows :: var r := db.rows[k];
            if r.state == RowRunning && Of(r.claimedBy, v)
            then BackInQueue(r, db'.rows[k], now, if r.attempts > 1 then r.attempts - 1 else 0) else db'.rows[k] == r)
      && (forall d | d in db.domains :: var e := db.domains[d];
            db'.domains[d] == if Of(e.lockOwner, v) then Domain(e.finishedAt, e.result, None, None) else e)
  {
  }

  lemma HeartbeatEffect(db: Db, ts: set<Token>, now: Time)
    ensures var db' := Q.Heartbeat(db, ts, now);
      && db'.jobs == db.jobs && db'.rows.Keys == db.rows.Keys && db'.domains.Keys == db.domains.Keys
      && (forall k | k in db.rows :: var r := db.rows[k];
            db'.rows[k] == if r.state == RowRunning && r.claimedBy.Some? && r.claimedBy.value in ts
                           then r.(heartbeatAt := Some(now)) else r)
      && (forall d | d in db.domains :: var e := db.domains[d];
            db'.domains[d] == if e.lockOwner.Some? && e.lockOwner.value in ts
                              then Domain(e.finishedAt, e.result, e.lockOwner, Some(now + LEASE_S)) else e)
  {
  }

  // ---- recording and completing --------------------------------------------------------------------

  predicate Runs(j: Job) {
    j.status == Queued || j.status == Running
  }

  /** Every row of the job is done. */
  predicate AllDone(rows: map<RowKey, Row>, j: JobId) {
    forall k | k in rows && k.job == j :: rows[k].state == RowDone
  }

  /** Done as of `now`, with its rows counted. */
  predicate Over(rows: map<RowKey, Row>, j: JobId, job: Job, job': Job, now: Time) {
    job' == job.(status := Done, finishedAt := Some(now), doneCount := |set k | k in rows && k.job == j|)
  }

  lemma CompleteEffect(db: Db, j: JobId, now: Time)
    ensures var db' := Q.CompleteIfFinished(db, j, now);
      && OnlyJobs(db, db')
      && forall i | i in db.jobs ::
        if i == j && Runs(db.jobs[i]) && AllDone(db.rows, i) then Over(db.rows, i, db.jobs[i], db'.jobs[i], now)
        else db'.jobs[i] == db.jobs[i]
  {
    assert AllDone(db.rows, j) <==> !Q.HasOpen(db.rows, j);
  }

  lemma SweepEffect(db: Db, now: Time)
    ensures var db' := Q.CompleteFinishedJobs(db, now);
      && OnlyJobs(db, db')
      && forall i | i in db.jobs ::
        if Runs(db.jobs[i]) && AllDone(db.rows, i) then Over(db.rows, i, db.jobs[i], db'.jobs[i], now)
        else db'.jobs[i] == db.jobs[i]
  {
    forall i ensures AllDone(db.rows, i) <==> !Q.HasOpen(db.rows, i) {
    }
  }

  predicate Owned(db: Db, k: RowKey, t: Token) {
    k in db.rows && db.rows[k].state == RowRunning && db.rows[k].claimedBy == Some(t)
  }

  /** The row holds the result and is nobody's; a claim that lost its row changes none. */
  lemma FinishRows(db: Db, k: RowKey, t: Token, res: DomainResult, fromCache: bool, writeCache: bool, now: Time)
    ensures var db' := Q.Finish(db, k, t, res, fromCache, writeCache, now);
      && db'.rows.Keys == db.rows.Keys
      && forall o | o in db.rows :: var r := db.rows[o];
        db'.rows[o] == if o == k && Owned(db, k, t)
          then Row(r.seqNo, RowDone, r.attempts, r.availableAt, None, r.heartbeatAt, Some(now), fromCache,
                   if fromCache then 0 else res.jinaTokens, Some(res), r.requeuedAt)
          else r
  {
  }

  /** The cache gets the result unless it came from there or is to be kept out; the claim's own lock goes. */
  lemma FinishDomains(db: Db, k: RowKey, t: Token, res: DomainResult, fromCache: bool, writeCache: bool, now: Time)
    ensures var db' := Q.Finish(db, k, t, res, fromCache, writeCache, now);
      && db'.domains.Keys == db.domains.Keys
      && forall d | d in db.domains :: var e := db.domains[d];
        var cached, own := Owned(db, k, t) && !fromCache && writeCache, e.lockOwner == Some(t);
        db'.domains[d] == if d != k.domain then e
          else Domain(if cached then Some(now) else e.finishedAt, if cached then Some(res) else e.result,
                      if own then None else e.lockOwner, if own then None else e.lockUntil)
  {
  }

  /** The job is over exactly if it was active and this was its last row. */
  lemma FinishJobs(db: Db, k: RowKey, t: Token, res: DomainResult, fromCache: bool, writeCache: bool, now: Time)
    ensures var db' := Q.Finish(db, k, t, res, fromCache, writeCache, now);
      && db'.jobs.Keys == db.jobs.Keys
      && forall i | i in db.jobs ::
        if i == k.job && Owned(db, k, t) && Runs(db.jobs[i]) && AllDone(db'.rows, i)
        then Over(db.rows, i, db.jobs[i], db'.jobs[i], now) else db'.jobs[i] == db.jobs[i]
  {
    if Owned(db, k, t) {
      var db' := Q.Finish(db, k, t, res, fromCache, writeCache, now);
      Q.OpenAfterRecording(db.rows, k, db'.rows);
      assert AllDone(db'.rows, k.job) <==> !Q.HasOpen(db'.rows, k.job);
    }
  }

  // ---- job transitions ----------------------------------------------------------------------------------

  /** A recorded failure to reach the site, or one given up on after too many attempts. */
  predicate WorthRetrying(r: Row) {
    && r.state == RowDone && r.result.Some? && r.result.value.status == FetchFailed
    && (|| r.result.value.errorReason in {Some(Homepage), Some(Dns), Some(CircuitOpen), Some(DomainTimeout),
             Some(InternalError), Some(PrivateAddress)}
        || r.result.value.siteStatus == Some(TooManyAttempts))
  }

  /** Every such row of the job, and no other, starts a new round; its old result stays. */
  lemma RetryRows(db: Db, j: JobId, now: Time)
    ensures var db' := Q.ReopenRows(db, j, now);
      && OnlyRows(db, db') && Q.RequeueFailed(db, j, now).rows == db'.rows
      && forall k | k in db.rows :: var r := db.rows[k];
        db'.rows[k] == if k.job == j && WorthRetrying(r)
          then Row(r.seqNo, RowQueued, 0, now, None, None, r.finishedAt, r.fromCache, r.jinaTokens, r.result, Some(now))
          else r
  {
  }

  /** A done job with such a row runs again; the time it sat done counts as paused. */
  lemma RetryJobs(db: Db, j: JobId, now: Time)
    ensures var db' := Q.RequeueFailed(db, j, now);
      && db'.domains == db.domains && db'.jobs.Keys == db.jobs.Keys
      && forall i | i in db.jobs :: var job := db.jobs[i];
        var sat := if job.finishedAt.Some? then now - job.finishedAt.value else 0.0;
        db'.jobs[i] ==
          if i == j && job.status == Done && exists k | k in db.rows :: k.job == j && WorthRetrying(db.rows[k])
          then job.(status := Running, finishedAt := None, pausedSeconds := job.pausedSeconds + sat)
          else job
  {
    assert forall k | k in db.rows :: Q.Retryable(db.rows[k]) <==> WorthRetrying(db.rows[k]);
  }

  lemma PauseEffect(db: Db, reason: string, now: Time)
    ensures var db' := Q.PauseActiveJobs(db, reason, now);
      && OnlyJobs(db, db')
      && forall i | i in db.jobs :: var job := db.jobs[i];
        db'.jobs[i] ==
          if Runs(job) then job.(status := Paused, pauseReason := Some(reason), pausedAt := Some(now)) else job
  {
  }

  /** The pause that ends at `now`, from the later of its start and the job's. */
  function Pause(j: Job, now: Time): Time {
    if j.startedAt.None? || j.pausedAt.None? then 0.0
    else if j.pausedAt.value >= j.startedAt.value then now - j.pausedAt.value else now - j.startedAt.value
  }

  function Unpaused(j: Job, status: JobStatus, now: Time): Job {
    j.(status := status, pauseReason := None, pausedAt := None, pausedSeconds := j.pausedSeconds + Pause(j, now))
  }

  lemma ResumeEffect(db: Db, j: JobId, now: Time)
    ensures var db' := Q.Resume(db, j, now);
      && OnlyJobs(db, db')
      && forall i | i in db.jobs ::
        db'.jobs[i] == if i == j && db.jobs[i].status == Paused then Unpaused(db.jobs[i], Running, now) else db.jobs[i]
  {
  }

  lemma ResumeForEffect(db: Db, reason: string, now: Time)
    ensures var db' := Q.ResumePausedFor(db, reason, now);
      && OnlyJobs(db, db')
      && forall i | i in db.jobs :: var job := db.jobs[i];
        db'.jobs[i] ==
          if job.status == Paused && job.pauseReason == Some(reason) then Unpaused(job, Running, now) else job
  {
  }

  lemma CancelEffect(db: Db, j: JobId, now: Time)
    ensures var db' := Q.Cancel(db, j, now);
      && OnlyJobs(db, db')
      && forall i | i in db.jobs :: var job := db.jobs[i];
        db'.jobs[i] == if i == j && (Runs(job) || job.status == Paused)
          then Unpaused(job, Cancelled, now).(finishedAt := if job.finishedAt.Some? then job.finishedAt else Some(now))
          else job
  {
  }

  /** One queued row for each domain, numbered by its first place in the list; known domains keep their entries. */
  lemma CreateEffect(db: Db, j: JobId, ds: seq<string>, isFresh: bool, owner: Option<int>, now: Time)
    requires forall k | k in db.rows :: k.job != j
    ensures var db' := Q.CreateJob(db, j, ds, isFresh, owner, now);
      && db'.jobs == db.jobs[j := Job(if ds == [] then Done else Queued, now, None,
           if ds == [] then Some(now) else None, None, 0.0, None, isFresh, owner, 0)]
      && (forall k :: k in db'.rows <==> k in db.rows || (k.job == j && k.domain in ds))
      && (forall k | k in db.rows :: db'.rows[k] == db.rows[k])
      && (forall d :: d in db'.domains <==> d in db.domains || d in ds)
      && (forall d | d in db'.domains :: db'.domains[d] ==
            if d in db.domains then db.domains[d] else Domain(None, None, None, None))
  {
  }

  lemma CreateRows(db: Db, j: JobId, ds: seq<string>, isFresh: bool, owner: Option<int>, now: Time, i: nat)
    requires i < |ds| && ds[i] !in ds[..i]
    ensures var db', k := Q.CreateJob(db, j, ds, isFresh, owner, now), RowKey(j, ds[i]);
      k in db'.rows && db'.rows[k] == Row(i, RowQueued, 0, now, None, None, None, false, 0, None, None)
  {
  }
}
