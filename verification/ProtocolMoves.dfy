/**
 The life of one row and of one job, seen across any step: each step moves every row by at most one row move and every
 job by at most one job move. A move of a row keeps what the invariant says of the row, a move of a job what it says of
 the job, and a step that disturbs neither locks nor handlers keeps what it says of those.
 */
module ProtocolMoves {
  import opened Tables
  import opened Protocol
  import opened ProtocolInv
  import Q = QueueSpec

  // ---- one row ------------------------------------------------------------------------------

  ghost predicate RowClaimed(w: World, w': World, k: RowKey, r: Row, l: RowLog, r': Row, l': RowLog) {
    && r'.claimedBy.Some? && r'.heartbeatAt.Some?
    && Q.Pickable(r, r'.heartbeatAt.value) && r'.heartbeatAt.value <= w.now
    && var t := r'.claimedBy.value;
    && t !in w.claims && t in w'.claims
    && w'.claims[t] == Claim(k, r.attempts + 1, t, r.requeuedAt)
    && r' == Q.ClaimedRow(r, t, r'.heartbeatAt.value)
    && l' == l.(charges := l.charges + [t])
    && k.job in w'.db.jobs && w'.db.jobs[k.job].startedAt.Some?
  }

  /** Handed back to the queue: by its handler, the reaper or a worker shutting down. */
  ghost predicate RowGivenBack(r: Row, l: RowLog, r': Row, l': RowLog) {
    && r.state.RowRunning?
    && ((r' == Q.RequeuedRow(r, r'.availableAt, 0) && l' == l)
        || (r' == Q.RequeuedRow(r, r'.availableAt, 1) && l' == Refunded(l)))
  }

  ghost predicate RowBeat(r: Row, l: RowLog, r': Row, l': RowLog, now: Time) {
    && r.state.RowRunning? && r'.heartbeatAt.Some? && r'.heartbeatAt.value <= now
    && r' == r.(heartbeatAt := r'.heartbeatAt) && l' == l
  }

  ghost predicate RowRecorded(r: Row, l: RowLog, j: Job, r': Row, l': RowLog, now: Time) {
    && r.state.RowRunning?
    && r'.result.Some? && r'.finishedAt.Some? && j.createdAt <= r'.finishedAt.value <= now
    && r' == Q.RecordedRow(r, r'.result.value, r'.fromCache, r'.finishedAt.value)
    && l' == l.(recorded := l.recorded + 1, entryAt := l'.entryAt)
    && (r'.fromCache ==> l'.entryAt.Some? && FloorMet(j, r'.result.value, l'.entryAt.value, r.requeuedAt))
  }

  ghost predicate RowReopened(r: Row, l: RowLog, r': Row, l': RowLog, now: Time) {
    && Q.Retryable(r)
    && r'.requeuedAt.Some? && r'.requeuedAt.value <= now
    && r' == Q.ReopenedRow(r, r'.requeuedAt.value)
    && l' == l.(charges := [], reopened := l.reopened + 1)
  }

  ghost predicate RowMove(w: World, w': World, k: RowKey)
    requires Shape(w) && Shape(w') && k in w.db.rows && k in w'.db.rows
  {
    var r, l, r', l', j := w.db.rows[k], w.logs[k], w'.db.rows[k], w'.logs[k], w.db.jobs[k.job];
    || (r' == r && l' == l)
    || RowClaimed(w, w', k, r, l, r', l')
    || RowGivenBack(r, l, r', l')
    || RowBeat(r, l, r', l', w.now)
    || RowRecorded(r, l, j, r', l', w.now)
    || RowReopened(r, l, r', l', w.now)
  }

  ghost predicate RowBorn(r': Row, l': RowLog) {
    r' == Q.NewRow(r'.seqNo, r'.availableAt) && l' == RowLog([], 0, 0, None)
  }

  ghost predicate Extends(claims: map<Token, Claim>, claims': map<Token, Claim>) {
    forall t | t in claims :: t in claims' && claims'[t] == claims[t]
  }

  ghost predicate RowsMove(w: World, w': World)
    requires Shape(w) && Shape(w')
  {
    && (forall k | k in w.db.rows :: k in w'.db.rows && RowMove(w, w', k))
    && (forall k | k in w'.db.rows && k !in w.db.rows ::
          RowBorn(w'.db.rows[k], w'.logs[k]) && w'.db.jobs[k.job].createdAt <= w'.now)
    && Extends(w.claims, w'.claims)
    && w.now <= w'.now
  }

  lemma RowStays(w: World, w': World, k: RowKey)
    requires Shape(w) && Shape(w') && k in w.db.rows && k in w'.db.rows
    requires w'.db.rows[k] == w.db.rows[k] && w'.logs[k] == w.logs[k]
    ensures RowMove(w, w', k)
  {
  }

  /** No row but `k` changes, and no row appears. */
  ghost predicate SameElsewhere(w: World, w': World, k: RowKey)
    requires Shape(w) && Shape(w')
  {
    && w'.db.rows.Keys == w.db.rows.Keys && w.now <= w'.now
    && forall o | o in w.db.rows && o != k :: w'.db.rows[o] == w.db.rows[o] && w'.logs[o] == w.logs[o]
  }

  lemma OnlyOneMoves(w: World, w': World, k: RowKey)
    requires Shape(w) && Shape(w') && Extends(w.claims, w'.claims) && SameElsewhere(w, w', k)
    requires k in w.db.rows ==> RowMove(w, w', k)
    ensures RowsMove(w, w')
  {
    forall o | o in w.db.rows ensures RowMove(w, w', o) {
      if o != k {
        RowStays(w, w', o);
      }
    }
  }

  // ---- one job ------------------------------------------------------------------------------

  /** `since`: the start of the transaction that moves the job. */
  ghost predicate JobMove(j: Job, j': Job, since: Time) {
    || j' == j
    || (!j.status.Done? && j' == Q.StartedJob(j, since))
    || (Q.Active(j) && j' == Q.CompletedJob(j, j'.doneCount, since))
    || (j'.pauseReason.Some? && j' == Q.PausedJob(j, j'.pauseReason.value, since))
    || (j.status.Paused? && j' == Q.ResumedJob(j, since))
    || ((Q.Active(j) || j.status.Paused?) && j' == Q.CancelledJob(j, since))
    || (j.startedAt.Some? && j' == Q.ReopenedJob(j, since))
  }

  /** What no move changes about a job, and a job once started stays started. */
  ghost predicate JobKept(j: Job, j': Job) {
    j'.createdAt == j.createdAt && j'.isFresh == j.isFresh && j'.owner == j.owner &&
    (j.startedAt.Some? ==> j'.startedAt == j.startedAt)
  }

  // ---- moves keep the invariants ------------------------------------------------------------

  lemma JobMoveKeepsStatus(j: Job, j': Job, since: Time, hasOpen: bool, owed: bool, stranded: bool)
    requires StatusInv(j, hasOpen, owed, stranded) && JobMove(j, j', since)
    ensures j'.pausedAt.Some? <==> j'.status.Paused?
    ensures j'.finishedAt.Some? <==> j'.status.Done? || j'.status.Cancelled?
  {
  }

  lemma ChargesKept(claims: map<Token, Claim>, claims': map<Token, Claim>, k: RowKey, r: Row, l: RowLog, now: Time)
    requires Charged(claims, k, l.charges) && Extends(claims, claims')
    ensures Charged(claims', k, l.charges) && Charged(claims', k, Refunded(l).charges)
    ensures RunningInv(claims, r, l.charges, now) ==> RunningInv(claims', r, l.charges, now)
  {
  }

  /** A row that only changes hands keeps its record. */
  lemma HandsKeep(w: World, w': World, k: RowKey, r: Row, l: RowLog, r': Row, l': RowLog, j: Job, j': Job)
    requires RowInv(w.claims, k, r, l, j, w.now) && Extends(w.claims, w'.claims) && JobKept(j, j') && w.now <= w'.now
    requires (r' == r && l' == l) || RowGivenBack(r, l, r', l') || RowBeat(r, l, r', l', w.now)
    ensures RowInv(w'.claims, k, r', l', j', w'.now)
  {
    ChargesKept(w.claims, w'.claims, k, r, l, w.now);
  }

  lemma ClaimedKeeps(w: World, w': World, k: RowKey, r: Row, l: RowLog, r': Row, l': RowLog, j: Job)
    requires RowInv(w.claims, k, r, l, j, w.now) && Extends(w.claims, w'.claims) && k.job in w'.db.jobs
    requires JobKept(j, w'.db.jobs[k.job]) && w.now <= w'.now && RowClaimed(w, w', k, r, l, r', l')
    ensures RowInv(w'.claims, k, r', l', w'.db.jobs[k.job], w'.now)
  {
    ChargesKept(w.claims, w'.claims, k, r, l, w.now);
  }

  lemma RecordKeeps(w: World, w': World, k: RowKey, r: Row, l: RowLog, r': Row, l': RowLog, j: Job, j': Job)
    requires RowInv(w.claims, k, r, l, j, w.now) && Extends(w.claims, w'.claims) && JobKept(j, j') && w.now <= w'.now
    requires RowRecorded(r, l, j, r', l', w.now) || RowReopened(r, l, r', l', w.now)
    ensures RowInv(w'.claims, k, r', l', j', w'.now)
  {
    ChargesKept(w.claims, w'.claims, k, r, l, w.now);
  }

  lemma RowMoveKeeps(w: World, w': World, k: RowKey)
    requires Shape(w) && Shape(w') && k in w.db.rows && k in w'.db.rows && w.now <= w'.now
    requires RowOk(w, k) && RowMove(w, w', k) && Extends(w.claims, w'.claims)
    requires JobKept(w.db.jobs[k.job], w'.db.jobs[k.job])
    ensures RowOk(w', k)
  {
    var r, l, r', l', j, j' := w.db.rows[k], w.logs[k], w'.db.rows[k], w'.logs[k], w.db.jobs[k.job], w'.db.jobs[k.job];
    if RowClaimed(w, w', k, r, l, r', l') {
      ClaimedKeeps(w, w', k, r, l, r', l', j);
    } else if RowRecorded(r, l, j, r', l', w.now) || RowReopened(r, l, r', l', w.now) {
      RecordKeeps(w, w', k, r, l, r', l', j, j');
    } else {
      HandsKeep(w, w', k, r, l, r', l', j, j');
    }
  }

  ghost predicate AllJobsKept(w: World, w': World) {
    forall j | j in w.db.jobs :: j in w'.db.jobs && JobKept(w.db.jobs[j], w'.db.jobs[j])
  }

  lemma RowsKept(w: World, w': World)
    requires Shape(w) && Shape(w') && RowsInv(w) && RowsMove(w, w') && AllJobsKept(w, w')
    ensures RowsInv(w')
  {
    forall k | k in w'.db.rows
      ensures RowOk(w', k)
    {
      if k in w.db.rows {
        assert RowOk(w, k);
        RowMoveKeeps(w, w', k);
      }
    }
  }

  // ---- locks --------------------------------------------------------------------------------

  /** No surviving claim's heartbeat moved. */
  ghost predicate NoBeat(w: World, w': World) {
    forall k | k in w.db.rows && k in w'.db.rows && w.db.rows[k].state.RowRunning? && w'.db.rows[k].state.RowRunning? ::
      w'.db.rows[k].heartbeatAt == w.db.rows[k].heartbeatAt
  }

  /** A claim that owns its row after a step owned it before: no step revives a token. */
  lemma OwnedBefore(w: World, w': World, k: RowKey, t: Token)
    requires Shape(w) && Shape(w') && k in w.db.rows && k in w'.db.rows && RowMove(w, w', k)
    requires t in w.claims && Q.Owns(w'.db, k, t)
    ensures Q.Owns(w.db, k, t)
  {
  }

  ghost predicate LockSameOrGone(e: Domain, e': Domain) {
    || (e'.lockOwner == e.lockOwner && e'.lockUntil == e.lockUntil)
    || (e'.lockOwner.None? && e'.lockUntil.None?)
  }

  ghost predicate LocksShrink(w: World, w': World) {
    forall d | d in w'.db.domains :: LockSameOrGone(Q.Entry(w.db, d), w'.db.domains[d])
  }

  lemma LockKept(w: World, w': World, d: string, e: Domain, e': Domain)
    requires Shape(w) && Shape(w') && RowsMove(w, w') && NoBeat(w, w')
    requires LockInv(w, d, e) && LockSameOrGone(e, e') && w'.lockings == w.lockings
    ensures LockInv(w', d, e')
  {
    if e'.lockOwner.Some? {
      var t := e'.lockOwner.value;
      if Q.Owns(w'.db, w.claims[t].key, t) {
        OwnedBefore(w, w', w.claims[t].key, t);
      }
    }
  }

  lemma LocksKept(w: World, w': World)
    requires Shape(w) && LocksInv(w) && Shape(w') && RowsMove(w, w') && NoBeat(w, w') && LocksShrink(w, w')
    requires w'.lockings == w.lockings
    ensures LocksInv(w')
  {
    forall d | d in w'.db.domains
      ensures LockOk(w', d)
    {
      assert d in w.db.domains ==> LockOk(w, d);
      LockKept(w, w', d, Q.Entry(w.db, d), w'.db.domains[d]);
    }
  }

  /** A step that renews no lease and takes no lock. */
  ghost predicate Quiet(w: World, w': World)
    requires Shape(w)
  {
    && Shape(w') && RowsMove(w, w') && AllJobsKept(w, w') && NoBeat(w, w') && LocksShrink(w, w')
    && w'.lockings == w.lockings
  }

  lemma QuietKeeps(w: World, w': World)
    requires Shape(w) && RowsInv(w) && LocksInv(w) && Quiet(w, w')
    ensures Shape(w') && RowsInv(w') && LocksInv(w')
  {
    RowsKept(w, w');
    LocksKept(w, w');
  }

  // ---- handlers -----------------------------------------------------------------------------

  /** Token `t` keeps its row under the same or a newer heartbeat. */
  ghost predicate RowRetained(w: World, w': World, k: RowKey, t: Token) {
    && Q.Owns(w'.db, k, t)
    && k in w.db.rows
    && (w'.db.rows[k].heartbeatAt == w.db.rows[k].heartbeatAt || w'.db.rows[k].heartbeatAt == Some(w'.now))
  }

  ghost predicate LockRetained(w: World, w': World, c: Claim) {
    HoldsFreshLock(w, c) ==> HoldsFreshLock(w', c)
  }

  /** A handler that stays in its phase is undisturbed if its row and its lock are. */
  lemma HandlerKept(w: World, w': World, t: Token, c: Claim, p: Phase, j: Job, j': Job)
    requires HandlerInv(w, t, c, p, j) && JobKept(j, j')
    requires w'.now == w.now && w.lapsed <= w'.lapsed && w.started <= w'.started
    requires InTime(w, c) ==> RowRetained(w, w', c.key, t)
    requires InTime(w, c) && (p.Holding? || p.Fetching?) ==> LockRetained(w, w', c)
    ensures HandlerInv(w', t, c, p, j')
  {
  }

  /** Every handler still in time keeps its phase, its row and its lock. */
  ghost predicate Undisturbed(w: World, w': World)
    requires Shape(w)
  {
    && w'.now == w.now && w'.lapsed == w.lapsed && w'.started == w.started && w'.claims == w.claims
    && (forall u | u in w'.handlers :: u in w.handlers && w'.handlers[u] == w.handlers[u])
    && (forall u | u in w'.handlers && InTime(w, w.claims[u]) ::
          RowRetained(w, w', w.claims[u].key, u) && LockRetained(w, w', w.claims[u]))
  }

  lemma HandlersKept(w: World, w': World)
    requires Shape(w) && HandlersInv(w) && Shape(w') && AllJobsKept(w, w') && Undisturbed(w, w')
    ensures HandlersInv(w')
  {
    forall u | u in w'.handlers
      ensures HandlerOk(w', u)
    {
      var j := w.claims[u].key.job;
      assert HandlerOk(w, u);
      HandlerKept(w, w', u, w.claims[u], w.handlers[u], w.db.jobs[j], w'.db.jobs[j]);
    }
  }

  ghost predicate OwnTokens(w: World)
    requires Shape(w)
  {
    forall u | u in w.handlers :: w.claims[u].token == u
  }

  lemma HandlersOwnTokens(w: World)
    requires Shape(w) && HandlersInv(w)
    ensures OwnTokens(w)
  {
    forall u | u in w.handlers ensures w.claims[u].token == u {
      assert HandlerOk(w, u);
    }
  }

  // ---- jobs ---------------------------------------------------------------------------------

  lemma JobKeeps(w: World, w': World, j: JobId, since: Time)
    requires Shape(w) && Shape(w') && j in w.db.jobs && j in w'.db.jobs
    requires JobInv(w, j) && JobMove(w.db.jobs[j], w'.db.jobs[j], since)
    requires w'.db.jobs[j].status.Done? ==> !Q.HasOpen(w'.db.rows, j) || j in w'.stranded
    requires j in w'.stranded ==> w'.db.jobs[j].startedAt.Some?
    requires Q.Active(w'.db.jobs[j]) ==> Q.HasOpen(w'.db.rows, j) || j in w'.owed
    ensures JobInv(w', j)
  {
    JobMoveKeepsStatus(w.db.jobs[j], w'.db.jobs[j], since, Q.HasOpen(w.db.rows, j), j in w.owed, j in w.stranded);
  }

  lemma SameOpen(rows: map<RowKey, Row>, rows': map<RowKey, Row>, j: JobId)
    requires rows.Keys == rows'.Keys
    requires forall k | k in rows :: Q.Open(rows[k]) <==> Q.Open(rows'[k])
    ensures Q.HasOpen(rows, j) == Q.HasOpen(rows', j)
  {
  }

  /** No job and no row's openness changes. */
  ghost predicate JobsStill(w: World, w': World) {
    && w'.db.jobs == w.db.jobs && w'.owed == w.owed && w'.stranded == w.stranded
    && w'.db.rows.Keys == w.db.rows.Keys
    && (forall k | k in w.db.rows :: Q.Open(w.db.rows[k]) <==> Q.Open(w'.db.rows[k]))
  }

  lemma StillJobsKept(w: World, w': World)
    requires JobsInv(w) && JobsStill(w, w')
    ensures JobsInv(w')
  {
    forall j | j in w'.db.jobs ensures JobInv(w', j) {
      assert JobInv(w, j);
      SameOpen(w.db.rows, w'.db.rows, j);
    }
  }
}
