/** What every reachable world satisfies, row by row, lock by lock, claim by claim and job by job. */
module ProtocolInv {
  import opened Tables
  import opened Protocol
  import Q = QueueSpec

  ghost predicate Shape(w: World) {
    && w.logs.Keys == w.db.rows.Keys
    && w.handlers.Keys <= w.claims.Keys
    && w.lapsed <= w.claims.Keys
    && w.stranded <= w.db.jobs.Keys
    && (forall k | k in w.db.rows :: k.job in w.db.jobs)
    && (forall t | t in w.claims :: w.claims[t].key in w.db.rows)
  }

  // ---- rows ---------------------------------------------------------------------------------

  /** The i-th charge of a row is a claim of that row which carried attempt number i + 1. */
  ghost predicate Charged(claims: map<Token, Claim>, k: RowKey, charges: seq<Token>) {
    forall i | 0 <= i < |charges| ::
      && charges[i] in claims
      && claims[charges[i]].key == k
      && claims[charges[i]].attempts == i + 1
  }

  ghost predicate RunningInv(claims: map<Token, Claim>, r: Row, charges: seq<Token>, now: Time) {
    && r.claimedBy.Some?
    && r.heartbeatAt.Some? && r.heartbeatAt.value <= now
    && charges != []
    && charges[|charges| - 1] == r.claimedBy.value
    && r.claimedBy.value in claims
    && claims[r.claimedBy.value].notBefore == r.requeuedAt
  }

  ghost predicate RowInv(claims: map<Token, Claim>, k: RowKey, r: Row, l: RowLog, j: Job, now: Time) {
    && r.attempts == |l.charges|
    && Charged(claims, k, l.charges)
    && (r.state.RowRunning? ==> RunningInv(claims, r, l.charges, now))
    && (!r.state.RowRunning? ==> r.claimedBy.None?)
    && l.recorded == l.reopened + (if r.state.RowDone? then 1 else 0)
    && (r.state.RowDone? ==> r.result.Some?)
    && (r.finishedAt.Some? ==> r.finishedAt.value <= now)
    && (r.requeuedAt.Some? ==> r.requeuedAt.value <= now)
    && j.createdAt <= now && (r.finishedAt.Some? ==> j.createdAt <= r.finishedAt.value)
    && (l.charges != [] || r.state.RowDone? ==> j.startedAt.Some?)
    && (r.state.RowDone? && r.fromCache ==>
        l.entryAt.Some? && FloorMet(j, r.result.value, l.entryAt.value, r.requeuedAt))
  }

  /** What a cached result recorded from an entry finished at `entryAt` promises. */
  ghost predicate FloorMet(j: Job, r: DomainResult, entryAt: Time, notBefore: Option<Time>) {
    j.isFresh || r.status.FetchFailed? ==> entryAt >= Q.Floor(j, notBefore)
  }

  ghost predicate RowOk(w: World, k: RowKey)
    requires Shape(w) && k in w.db.rows
  {
    RowInv(w.claims, k, w.db.rows[k], w.logs[k], w.db.jobs[k.job], w.now)
  }

  ghost predicate RowsInv(w: World)
    requires Shape(w)
  {
    forall k {:trigger RowOk(w, k)} | k in w.db.rows :: RowOk(w, k)
  }

  // ---- locks --------------------------------------------------------------------------------

  /** The lock still counts from the start of its transaction, and the row was renewed between that and the lock. */
  ghost predicate Short(l: Locking, until: Time, heartbeat: Time) {
    until == l.since + LEASE_S && l.since < heartbeat <= l.at
  }

  /** A lock outlives the row lease of the claim holding it, but for a renewal its transaction has missed. */
  ghost predicate LockInv(w: World, d: string, e: Domain) {
    && (e.lockOwner.Some? <==> e.lockUntil.Some?)
    && (e.lockOwner.Some? ==>
          var t := e.lockOwner.value;
          && t in w.claims
          && w.claims[t].key.domain == d
          && t in w.lockings
          && (Q.Owns(w.db, w.claims[t].key, t) && w.db.rows[w.claims[t].key].heartbeatAt.Some? ==>
                var heartbeat := w.db.rows[w.claims[t].key].heartbeatAt.value;
                e.lockUntil.value >= heartbeat + LEASE_S || Short(w.lockings[t], e.lockUntil.value, heartbeat)))
  }

  ghost predicate LockOk(w: World, d: string)
    requires d in w.db.domains
  {
    LockInv(w, d, w.db.domains[d])
  }

  ghost predicate LocksInv(w: World) {
    && (forall d {:trigger LockOk(w, d)} | d in w.db.domains :: LockOk(w, d))
    && (forall t | t in w.lockings :: w.lockings[t].since <= w.lockings[t].at <= w.now)
  }

  // ---- handlers -----------------------------------------------------------------------------

  ghost predicate HoldsLock(w: World, c: Claim) {
    c.key.domain in w.db.domains && w.db.domains[c.key.domain].lockOwner == Some(c.token)
  }

  ghost predicate HoldsFreshLock(w: World, c: Claim) {
    && HoldsLock(w, c) && w.db.domains[c.key.domain].lockUntil.Some?
    && w.db.domains[c.key.domain].lockUntil.value >= w.now
  }

  ghost predicate InTime(w: World, c: Claim) {
    Q.Owns(w.db, c.key, c.token) && !Q.Silent(w.db.rows[c.key], w.now)
  }

  predicate Dated(p: Phase) {
    p.Opened? || p.Missed? || p.TooMany? || p.Hit? || p.Fetched?
  }

  ghost predicate HandlerInv(w: World, t: Token, c: Claim, p: Phase, j: Job) {
    && c.token == t
    && (t !in w.lapsed ==> InTime(w, c) && (p.Holding? || p.Fetching? ==> HoldsFreshLock(w, c)))
    && j.createdAt <= w.now && (Dated(p) ==> j.createdAt <= p.since <= w.now)
    && (p.Missed? || p.Holding? ==> c.attempts <= MAX_CLAIMS)
    && (p.Fetching? || p.Fetched? ==> t in w.started)
    && (p.Hit? || p.HoldingHit? ==> FloorMet(j, p.hit, p.entryAt, c.notBefore))
  }

  ghost predicate HandlerOk(w: World, t: Token)
    requires Shape(w) && t in w.handlers
  {
    HandlerInv(w, t, w.claims[t], w.handlers[t], w.db.jobs[w.claims[t].key.job])
  }

  ghost predicate HandlersInv(w: World)
    requires Shape(w)
  {
    && (forall t {:trigger HandlerOk(w, t)} | t in w.handlers :: HandlerOk(w, t))
    && (forall t | t in w.started :: t in w.claims && w.claims[t].attempts <= MAX_CLAIMS)
  }

  // ---- jobs ---------------------------------------------------------------------------------

  ghost predicate StatusInv(j: Job, hasOpen: bool, owed: bool, stranded: bool) {
    && (j.pausedAt.Some? <==> j.status.Paused?)
    && (j.finishedAt.Some? <==> j.status.Done? || j.status.Cancelled?)
    && (j.status.Done? ==> !hasOpen || stranded)
    && (stranded ==> j.startedAt.Some?)
    && (Q.Active(j) ==> hasOpen || owed)
  }

  ghost predicate JobInv(w: World, j: JobId)
    requires j in w.db.jobs
  {
    StatusInv(w.db.jobs[j], Q.HasOpen(w.db.rows, j), j in w.owed, j in w.stranded)
  }

  ghost predicate JobsInv(w: World) {
    forall j {:trigger JobInv(w, j)} | j in w.db.jobs :: JobInv(w, j)
  }

  ghost predicate Inv(w: World) {
    Shape(w) && RowsInv(w) && LocksInv(w) && HandlersInv(w) && JobsInv(w)
  }
}
