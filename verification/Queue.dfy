/** The queue operations as they run, each proved to have the effect `QueueSpec` gives it. */
module Queue {
  import opened Tables
  import opened FairShare
  import Q = QueueSpec

  class Store {
    var jobs: map<JobId, Job>
    var rows: map<RowKey, Row>
    var domains: map<string, Domain>

    function Db(): Db
      reads this
    {
      Tables.Db(jobs, rows, domains)
    }

    constructor ()
      ensures Db() == Tables.Db(map[], map[], map[])
    {
      jobs, rows, domains := map[], map[], map[];
    }

    // ---- claiming -----------------------------------------------------------------------------

    /** The job to serve next: fewest rows of its owner in flight, then of the job, then oldest. */
    method PickJob(now: Time) returns (best: Option<JobId>)
      ensures best.Some? ==>
        BestJob(Db(), best.value, now) && exists k :: Available(Db(), k, now) && k.job == best.value
      ensures best.None? <==> forall k :: !Available(Db(), k, now)
    {
      best := None;
      var todo := jobs.Keys;
      while todo != {}
        invariant todo <= jobs.Keys
        invariant best.Some? ==> best.value in jobs && Claimable(Db(), best.value, now)
        invariant forall j | j in jobs && j !in todo && Claimable(Db(), j, now) ::
          best.Some? && Ahead(Db(), best.value, j)
        decreases |todo|
      {
        var j :| j in todo;
        todo := todo - {j};
        if Claimable(Db(), j, now) && (best.None? || !Ahead(Db(), best.value, j)) {
          best := Some(j);
        }
      }
      forall j ensures Claimable(Db(), j, now) <==> exists k :: Available(Db(), k, now) && k.job == j {
        ClaimableExactlyIf(Db(), j, now);
      }
      if best.None? {
        forall k ensures !Available(Db(), k, now) {
          assert !Claimable(Db(), k.job, now);
        }
      }
    }

    /** The job's available row with the lowest number. */
    method PickRow(j: JobId, now: Time) returns (k: RowKey)
      requires Claimable(Db(), j, now)
      ensures k.job == j && NextRow(Db(), k, now) && Available(Db(), k, now)
      ensures forall o | Available(Db(), o, now) && o.job == j :: rows[k].seqNo <= rows[o].seqNo
    {
      var todo := set o | o in rows && o.job == j && Q.Pickable(rows[o], now);
      k :| k in rows && k.job == j && Q.Pickable(rows[k], now);
      while todo != {}
        invariant forall o | o in todo :: o in rows && o.job == j && Q.Pickable(rows[o], now)
        invariant k in rows && k.job == j && Q.Pickable(rows[k], now)
        invariant forall o | o in rows && o.job == j && Q.Pickable(rows[o], now) && o !in todo && o != k ::
          rows[k].seqNo <= rows[o].seqNo
        decreases |todo|
      {
        var o :| o in todo;
        todo := todo - {o};
        if rows[o].seqNo < rows[k].seqNo {
          k := o;
        }
      }
    }

    method Claim(token: Token, now: Time) returns (c: Option<Claim>)
      modifies this
      ensures c.None? <==> forall k :: !Available(old(Db()), k, now)
      ensures c.None? ==> Db() == old(Db())
      ensures c.Some? ==>
        && FairClaim(old(Db()), Db(), c.value.key, token, now)
        && Available(old(Db()), c.value.key, now)
        && c.value == Tables.Claim(c.value.key, rows[c.value.key].attempts, token, rows[c.value.key].requeuedAt)
      ensures c.Some? ==> var k := c.value.key; var r, j := old(rows)[k], old(jobs)[k.job];
        && rows == old(rows)[k := r.(state := RowRunning, attempts := r.attempts + 1, claimedBy := Some(token),
             heartbeatAt := Some(now))]
        && jobs == old(jobs)[k.job :=
             j.(status := Running, startedAt := Some(if j.startedAt.Some? then j.startedAt.value else now))]
        && domains == old(domains)
    {
      var best := PickJob(now);
      if best.None? {
        return None;
      }
      var k := PickRow(best.value, now);
      var r := rows[k];
      rows := rows[k := r.(state := RowRunning, claimedBy := Some(token),
        heartbeatAt := Some(now), attempts := r.attempts + 1)];
      var j := jobs[k.job];
      if j.status.Queued? || j.startedAt.None? {
        j := j.(startedAt := Some(Coalesce(j.startedAt, now)));
        if j.status.Queued? {
          j := j.(status := Running);
        }
        jobs := jobs[k.job := j];
      }
      assert jobs == old(jobs)[k.job := Q.StartedJob(old(jobs)[k.job], now)];
      c := Some(Tables.Claim(k, rows[k].attempts, token, rows[k].requeuedAt));
    }

    // ---- cache and lock -----------------------------------------------------------------------

    /** `valid`: whether a stored result still has the shape this version reads. */
    method CachedResult(j: JobId, domain: string, notBefore: Option<Time>, now: Time, valid: DomainResult -> bool)
      returns (r: Option<DomainResult>)
      requires j in jobs
      ensures r.Some? <==>
        domain in domains && Q.CacheUsable(jobs[j], domains[domain], notBefore, now) &&
        valid(domains[domain].result.value)
      ensures r.Some? ==> r == domains[domain].result
    {
      r := None;
      if domain in domains {
        var e := domains[domain];
        if e.finishedAt.Some? && e.result.Some? {
          var floor := if notBefore.Some? then Max(jobs[j].createdAt, notBefore.value) else jobs[j].createdAt;
          if e.finishedAt.value >= floor {
            r := e.result;
          } else if !jobs[j].isFresh && e.result.value.status != FetchFailed && e.finishedAt.value >= now - CACHE_S {
            r := e.result;
          }
        }
      }
      if r.Some? && !valid(r.value) {
        r := None;
      }
    }

    /** `now`: the start of the transaction, which may have begun before this statement. */
    method LockDomain(c: Claim, now: Time) returns (got: bool)
      modifies this
      ensures Db() == Q.LockDomain(old(Db()), c.key.domain, c.token, now)
      ensures got <==> Q.LockFree(Q.Entry(old(Db()), c.key.domain), now)
    {
      var d := c.key.domain;
      if d !in domains {
        domains := domains[d := Q.PENDING];
      }
      var e := domains[d];
      got := e.lockOwner.None? || (e.lockUntil.Some? && e.lockUntil.value < now);
      if got {
        domains := domains[d := e.(lockOwner := Some(c.token), lockUntil := Some(now + LEASE_S))];
      }
      assert domains == old(domains)[d := domains[d]];
    }

    method UnlockDomain(c: Claim)
      modifies this
      ensures Db() == Q.UnlockDomain(old(Db()), c.key.domain, c.token)
    {
      var d := c.key.domain;
      if d in domains && domains[d].lockOwner == Some(c.token) {
        domains := domains[d := domains[d].(lockOwner := None, lockUntil := None)];
      }
    }

    // ---- giving rows back ----------------------------------------------------------------------

    method Requeue(c: Claim, delay: Time, counted: bool, now: Time)
      modifies this
      ensures Db() == Q.Requeue(old(Db()), c.key, c.token, delay, counted, now)
    {
      if c.key in rows && rows[c.key].claimedBy == Some(c.token) && rows[c.key].state == RowRunning {
        var r := rows[c.key];
        var refund := if counted then 0 else 1;
        rows := rows[c.key := r.(state := RowQueued, claimedBy := None, heartbeatAt := None,
                                 availableAt := now + delay, attempts := r.attempts - refund)];
      }
    }

    method Reap(now: Time) returns (n: nat)
      modifies this
      ensures Db() == Q.Reap(old(Db()), now)
      ensures rows.Keys == old(rows.Keys) && forall k | k in rows :: var r := old(rows)[k];
        if r.state == RowRunning && r.heartbeatAt.Some? && r.heartbeatAt.value < now - LEASE_S
        then rows[k] == r.(state := RowQueued, claimedBy := None, heartbeatAt := None, availableAt := now)
        else rows[k] == r
      ensures jobs == old(jobs) && domains == old(domains)
      ensures n == |set k | k in rows && rows[k] != old(rows)[k]|
    {
      var silent := set k | k in rows && rows[k].state == RowRunning && rows[k].heartbeatAt.Some? &&
        rows[k].heartbeatAt.value < now - LEASE_S;
      rows := map k | k in rows ::
        if k in silent then rows[k].(state := RowQueued, claimedBy := None, heartbeatAt := None, availableAt := now)
        else rows[k];
      n := |silent|;
      assert silent == set k | k in rows && rows[k] != old(rows)[k];
      assert rows == Q.Reap(old(Db()), now).rows;
    }

    method ReleaseWorker(w: Worker, now: Time)
      modifies this
      ensures Db() == Q.ReleaseWorker(old(Db()), w, now)
    {
      rows := map k | k in rows ::
        if rows[k].state.RowRunning? && rows[k].claimedBy.Some? && rows[k].claimedBy.value.worker == w then
          rows[k].(state := RowQueued, claimedBy := None, heartbeatAt := None, availableAt := now,
                   attempts := if rows[k].attempts - 1 >= 0 then rows[k].attempts - 1 else 0)
        else rows[k];
      domains := map d | d in domains ::
        if domains[d].lockOwner.Some? && domains[d].lockOwner.value.worker == w
        then domains[d].(lockOwner := None, lockUntil := None) else domains[d];
      assert rows == Q.ReleaseWorker(old(Db()), w, now).rows;
    }

    method Heartbeat(tokens: set<Token>, now: Time)
      modifies this
      ensures Db() == Q.Heartbeat(old(Db()), tokens, now)
    {
      if tokens == {} {
        assert rows == Q.Heartbeat(Db(), tokens, now).rows;
        assert domains == Q.Heartbeat(Db(), tokens, now).domains;
        return;
      }
      rows := map k | k in rows ::
        if rows[k].state.RowRunning? && rows[k].claimedBy.Some? && rows[k].claimedBy.value in tokens
        then rows[k].(heartbeatAt := Some(now)) else rows[k];
      domains := map d | d in domains ::
        if domains[d].lockOwner.Some? && domains[d].lockOwner.value in tokens
        then domains[d].(lockUntil := Some(now + LEASE_S)) else domains[d];
    }

    // ---- recording and completing ----------------------------------------------------------------

    method CompleteIfFinished(j: JobId, now: Time) returns (done: bool)
      modifies this`jobs
      ensures Db() == Q.CompleteIfFinished(old(Db()), j, now)
      ensures done <==> j in jobs && Q.Active(old(jobs)[j]) && jobs[j].status.Done?
    {
      done := j in jobs && Q.Active(jobs[j]) && !Q.HasOpen(rows, j);
      if done {
        jobs := jobs[j := jobs[j].(status := Done, finishedAt := Some(now), doneCount := |Q.RowsOf(rows, j)|)];
      }
    }

    /**
     The row, the cache entry, the lock and the job, in that order. Whether the job is then
     complete is decided on the rows after the update; `QueueSpec.Finish` tells it from before.
     */
    method Finish(c: Claim, res: DomainResult, fromCache: bool, writeCache: bool, now: Time)
      returns (recorded: bool, jobDone: bool)
      modifies this
      ensures Db() == Q.Finish(old(Db()), c.key, c.token, res, fromCache, writeCache, now)
      ensures recorded <==> Q.Owns(old(Db()), c.key, c.token)
      ensures jobDone <==> recorded && Q.Completes(old(Db()), c.key)
    {
      var k, d := c.key, c.key.domain;
      if !(k in rows && rows[k].state == RowRunning && rows[k].claimedBy == Some(c.token)) {
        UnlockDomain(c);
        return false, false;
      }
      rows := rows[k := rows[k].(state := RowDone, finishedAt := Some(now), claimedBy := None, fromCache := fromCache,
                                 jinaTokens := if fromCache then 0 else res.jinaTokens, result := Some(res))];
      if !fromCache && writeCache && d in domains {
        domains := domains[d := domains[d].(finishedAt := Some(now), result := Some(res))];
      }
      UnlockDomain(c);
      Q.OpenAfterRecording(old(rows), k, rows);
      assert Q.RowsOf(rows, k.job) == Q.RowsOf(old(rows), k.job);
      jobDone := CompleteIfFinished(k.job, now);
      recorded := true;
      assert d in old(domains) ==> domains == old(domains)[d := domains[d]];
    }

    method CompleteFinishedJobs(now: Time) returns (n: nat)
      modifies this
      ensures Db() == Q.CompleteFinishedJobs(old(Db()), now)
      ensures n == |set j | j in old(jobs) && Q.Active(old(jobs)[j]) && !Q.HasOpen(rows, j)|
    {
      var finished := set j | j in jobs && Q.Active(jobs[j]) && !Q.HasOpen(rows, j);
      jobs := map j | j in jobs ::
        if j in finished then jobs[j].(status := Done, finishedAt := Some(now), doneCount := |Q.RowsOf(rows, j)|)
        else jobs[j];
      n := |finished|;
    }

    // ---- job transitions ------------------------------------------------------------------------

    method RequeueFailed(j: JobId, now: Time) returns (n: nat)
      modifies this
      ensures Db() == Q.RequeueFailed(old(Db()), j, now)
      ensures n == |set k | k in old(rows) && k.job == j && Q.Retryable(old(rows)[k])|
    {
      var failed := set k | k in rows && k.job == j && Q.Retryable(rows[k]);
      var before := rows;
      rows := map k | k in rows ::
        if k in failed then
          rows[k].(state := RowQueued, attempts := 0, claimedBy := None, heartbeatAt := None,
                   availableAt := now, requeuedAt := Some(now))
        else rows[k];
      n := |failed|;
      if n > 0 {
        var k :| k in failed;
        assert before[k] == old(rows)[k];
        if j in jobs && jobs[j].status == Done {
          var job := jobs[j];
          var idle := if job.finishedAt.Some? then now - job.finishedAt.value else 0.0;
          jobs := jobs[j := job.(status := Running, pausedSeconds := job.pausedSeconds + idle, finishedAt := None)];
        }
      } else {
        assert failed == {};
        assert forall k | k in old(rows) && k.job == j && Q.Retryable(old(rows)[k]) :: k in failed;
      }
      assert rows == Q.RequeueFailed(old(Db()), j, now).rows;
    }

    method PauseActiveJobs(reason: string, now: Time)
      modifies this`jobs
      ensures Db() == Q.PauseActiveJobs(old(Db()), reason, now)
    {
      jobs := map j | j in jobs ::
        if Q.Active(jobs[j])
        then jobs[j].(status := Paused, pauseReason := Some(reason), pausedAt := Some(now)) else jobs[j];
    }

    /** Changes the status only if it is still one of `allowed`. */
    method Transition(j: JobId, allowed: set<JobStatus>, status: JobStatus, now: Time) returns (moved: bool)
      modifies this`jobs
      ensures moved <==> j in old(jobs) && old(jobs)[j].status in allowed
      ensures !moved ==> jobs == old(jobs)
      ensures moved ==> jobs == old(jobs)[j := old(jobs)[j].(
        status := status, pauseReason := None, pausedSeconds := Q.BookedPause(old(jobs)[j], now), pausedAt := None,
        finishedAt := if status.Cancelled? then Some(Coalesce(old(jobs)[j].finishedAt, now))
          else old(jobs)[j].finishedAt)]
    {
      moved := j in jobs && jobs[j].status in allowed;
      if moved {
        var job := jobs[j];
        if job.startedAt.Some? && job.pausedAt.Some? {
          job := job.(pausedSeconds := job.pausedSeconds + (now - Max(job.pausedAt.value, job.startedAt.value)));
        }
        if status == Cancelled && job.finishedAt.None? {
          job := job.(finishedAt := Some(now));
        }
        jobs := jobs[j := job.(status := status, pauseReason := None, pausedAt := None)];
      }
    }

    /** Resume, then the completion check: everything may have finished before the pause landed. */
    method ResumeJob(j: JobId, now: Time, later: Time) returns (resumed: bool)
      modifies this`jobs
      ensures resumed <==> j in old(jobs) && old(jobs)[j].status.Paused?
      ensures Db() == if resumed then Q.CompleteIfFinished(Q.Resume(old(Db()), j, now), j, later) else old(Db())
    {
      resumed := Transition(j, {Paused}, Running, now);
      if resumed {
        assert Db() == Q.Resume(old(Db()), j, now);
        var done := CompleteIfFinished(j, later);
      }
    }

    method CancelJob(j: JobId, now: Time) returns (cancelled: bool)
      modifies this`jobs
      ensures Db() == Q.Cancel(old(Db()), j, now)
      ensures cancelled <==> j in jobs && jobs[j].status.Cancelled? && !old(jobs)[j].status.Cancelled?
    {
      cancelled := Transition(j, {Queued, Running, Paused}, Cancelled, now);
    }

    /** Time the job has spent able to run; none before its first claim. */
    method ActiveSeconds(j: JobId, now: Time) returns (r: Option<Time>)
      requires j in jobs
      ensures r == Q.ActiveSeconds(jobs[j], now)
    {
      var job := jobs[j];
      if job.startedAt.None? {
        return None;
      }
      var end := if job.finishedAt.Some? then job.finishedAt.value else now;
      var value := end - job.startedAt.value - job.pausedSeconds;
      if job.pausedAt.Some? && job.finishedAt.None? {
        value := value - (now - Max(job.pausedAt.value, job.startedAt.value));
      }
      r := Some(if value < 0.0 then 0.0 else value);
    }
  }
}
