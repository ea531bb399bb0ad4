/** Which row an atomic claim takes, and how evenly that spreads the work. */
module FairShare {
  import opened Tables
  import Q = QueueSpec

  predicate InFlight(db: Db, k: RowKey) {
    k in db.rows && db.rows[k].state.RowRunning?
  }

  predicate OwnedBy(db: Db, k: RowKey, o: Option<int>) {
    k.job in db.jobs && db.jobs[k.job].owner == o
  }

  function JobRunning(db: Db, j: JobId): nat {
    |RunningOf(db, j)|
  }

  function RunningOf(db: Db, j: JobId): set<RowKey> {
    set k | k in db.rows && k.job == j && InFlight(db, k)
  }

  function OwnerRunning(db: Db, o: Option<int>): nat {
    |RunningRows(db, o)|
  }

  function RunningRows(db: Db, o: Option<int>): set<RowKey> {
    set k | k in db.rows && OwnedBy(db, k, o) && InFlight(db, k)
  }

  /** A waiting row, due by now, of a job that is neither paused nor over. */
  predicate Available(db: Db, k: RowKey, now: Time) {
    && k in db.rows && db.rows[k].state == RowQueued && db.rows[k].availableAt <= now
    && k.job in db.jobs && (db.jobs[k.job].status == Queued || db.jobs[k.job].status == Running)
  }

  predicate Claimable(db: Db, j: JobId, now: Time) {
    j in db.jobs && Q.Active(db.jobs[j]) && exists k | k in db.rows :: k.job == j && Q.Pickable(db.rows[k], now)
  }

  /** `i` comes no later than `j` in the order jobs are served. */
  predicate Ahead(db: Db, i: JobId, j: JobId)
    requires i in db.jobs && j in db.jobs
  {
    var oi, oj := OwnerRunning(db, db.jobs[i].owner), OwnerRunning(db, db.jobs[j].owner);
    var ri, rj := JobRunning(db, i), JobRunning(db, j);
    || oi < oj
    || (oi == oj && (ri < rj || (ri == rj && db.jobs[i].createdAt <= db.jobs[j].createdAt)))
  }

  ghost predicate BestJob(db: Db, j: JobId, now: Time) {
    Claimable(db, j, now) && forall i | Claimable(db, i, now) :: i in db.jobs && Ahead(db, j, i)
  }

  ghost predicate NextRow(db: Db, k: RowKey, now: Time) {
    && k in db.rows && Q.Pickable(db.rows[k], now)
    && forall o | o in db.rows && o.job == k.job && Q.Pickable(db.rows[o], now) :: db.rows[k].seqNo <= db.rows[o].seqNo
  }

  /** One atomic claim: the best job's next row. */
  ghost predicate FairClaim(db: Db, db': Db, k: RowKey, t: Token, now: Time) {
    && k in db.rows && k.job in db.jobs
    && BestJob(db, k.job, now) && NextRow(db, k, now)
    && db' == Q.ClaimRow(db, k, t, now)
  }

  ghost predicate OwnerClaimable(db: Db, o: Option<int>, now: Time) {
    exists j | j in db.jobs :: db.jobs[j].owner == o && Claimable(db, j, now)
  }

  /** The jobs to choose from are those with an available row. */
  lemma ClaimableExactlyIf(db: Db, j: JobId, now: Time)
    ensures Claimable(db, j, now) <==> exists k :: Available(db, k, now) && k.job == j
  {
    if Claimable(db, j, now) {
      var k :| k in db.rows && k.job == j && Q.Pickable(db.rows[k], now);
      assert Available(db, k, now);
    }
  }

  // ---- one claim ------------------------------------------------------------------------------

  lemma ClaimFrame(db: Db, k: RowKey, t: Token, now: Time)
    requires k in db.rows && k.job in db.jobs
    ensures var db' := Q.ClaimRow(db, k, t, now);
      && db'.rows.Keys == db.rows.Keys
      && (forall o :: InFlight(db', o) <==> InFlight(db, o) || o == k)
      && (forall o, p :: OwnedBy(db', o, p) <==> OwnedBy(db, o, p))
  {
  }

  lemma OwnerAfterClaim(db: Db, k: RowKey, t: Token, now: Time, o: Option<int>)
    requires k in db.rows && k.job in db.jobs && !InFlight(db, k)
    ensures OwnerRunning(Q.ClaimRow(db, k, t, now), o) ==
      OwnerRunning(db, o) + (if db.jobs[k.job].owner == o then 1 else 0)
  {
    var db' := Q.ClaimRow(db, k, t, now);
    ClaimFrame(db, k, t, now);
    assert OwnedBy(db, k, o) <==> db.jobs[k.job].owner == o;
    assert RunningRows(db', o) == RunningRows(db, o) + (if OwnedBy(db, k, o) then {k} else {});
  }

  lemma JobAfterClaim(db: Db, k: RowKey, t: Token, now: Time, j: JobId)
    requires k in db.rows && k.job in db.jobs && !InFlight(db, k)
    ensures JobRunning(Q.ClaimRow(db, k, t, now), j) == JobRunning(db, j) + (if k.job == j then 1 else 0)
  {
    var db' := Q.ClaimRow(db, k, t, now);
    ClaimFrame(db, k, t, now);
    assert RunningOf(db', j) == RunningOf(db, j) + (if k.job == j then {k} else {});
  }

  /**
   A claim takes the lowest-numbered available row of its job. No job with an available row has an owner with fewer
   rows in flight; nor, among those level with it, fewer of its own; nor, among those level again, is it older.
   */
  lemma ClaimOrder(db: Db, db': Db, k: RowKey, t: Token, now: Time, o: RowKey)
    requires FairClaim(db, db', k, t, now) && Available(db, o, now)
    ensures Available(db, k, now) && (o.job == k.job ==> db.rows[k].seqNo <= db.rows[o].seqNo)
    ensures
      var owner, owner' := db.jobs[k.job].owner, db.jobs[o.job].owner;
      var running := set r | r in db.rows && db.rows[r].state == RowRunning;
      var owners := |set r | r in running && r.job in db.jobs && db.jobs[r.job].owner == owner|;
      var owners' := |set r | r in running && r.job in db.jobs && db.jobs[r.job].owner == owner'|;
      var own, own' := |set r | r in running && r.job == k.job|, |set r | r in running && r.job == o.job|;
      && owners <= owners'
      && (owners == owners' ==> own <= own')
      && (owners == owners' && own == own' ==> db.jobs[k.job].createdAt <= db.jobs[o.job].createdAt)
  {
    ClaimableExactlyIf(db, o.job, now);
    assert Ahead(db, k.job, o.job);
    RunningAre(db, k.job, db.jobs[k.job].owner);
    RunningAre(db, o.job, db.jobs[o.job].owner);
  }

  lemma RunningAre(db: Db, j: JobId, o: Option<int>)
    ensures var running := set r | r in db.rows && db.rows[r].state == RowRunning;
      && RunningOf(db, j) == (set r | r in running && r.job == j)
      && RunningRows(db, o) == set r | r in running && r.job in db.jobs && db.jobs[r.job].owner == o
  {
  }

  /** A claim goes to an owner with the fewest rows in flight among those with claimable work. */
  lemma ClaimServesLeastOwner(db: Db, db': Db, k: RowKey, t: Token, now: Time, o: Option<int>)
    requires FairClaim(db, db', k, t, now) && OwnerClaimable(db, o, now)
    ensures OwnerRunning(db, db.jobs[k.job].owner) <= OwnerRunning(db, o)
  {
    var j :| j in db.jobs && db.jobs[j].owner == o && Claimable(db, j, now);
    assert Ahead(db, k.job, j);
  }

  /** ... and then to that owner's job with the fewest. */
  lemma ClaimServesLeastJob(db: Db, db': Db, k: RowKey, t: Token, now: Time, j: JobId)
    requires FairClaim(db, db', k, t, now) && Claimable(db, j, now) && db.jobs[j].owner == db.jobs[k.job].owner
    ensures JobRunning(db, k.job) <= JobRunning(db, j)
  {
    assert Ahead(db, k.job, j);
  }

  // ---- any sequence of claims ---------------------------------------------------------------------

  /** Claims only, no row given back in between, at any times. */
  ghost predicate Claims(dbs: seq<Db>, ks: seq<RowKey>, ts: seq<Token>, nows: seq<Time>) {
    && |dbs| == |ks| + 1 && |ks| == |ts| == |nows|
    && forall i | 0 <= i < |ks| :: FairClaim(dbs[i], dbs[i + 1], ks[i], ts[i], nows[i])
  }

  function Abs(x: int): nat {
    if x < 0 then -x else x
  }

  function Gap(db: Db, a: Option<int>, b: Option<int>): nat {
    Abs(OwnerRunning(db, a) - OwnerRunning(db, b))
  }

  /** While two owners both have claimable work, neither gets more than one claim ahead of the other. */
  lemma {:induction false} OwnersStayLevel(dbs: seq<Db>, ks: seq<RowKey>, ts: seq<Token>, nows: seq<Time>,
      a: Option<int>, b: Option<int>)
    requires Claims(dbs, ks, ts, nows)
    requires forall i | 0 <= i < |ks| :: OwnerClaimable(dbs[i], a, nows[i]) && OwnerClaimable(dbs[i], b, nows[i])
    ensures Gap(dbs[|ks|], a, b) <= if Gap(dbs[0], a, b) >= 1 then Gap(dbs[0], a, b) else 1
    decreases |ks|
  {
    if |ks| > 0 {
      var n := |ks| - 1;
      assert Claims(dbs[..n + 1], ks[..n], ts[..n], nows[..n]);
      OwnersStayLevel(dbs[..n + 1], ks[..n], ts[..n], nows[..n], a, b);
      var db, k := dbs[n], ks[n];
      assert FairClaim(dbs[n], dbs[n + 1], ks[n], ts[n], nows[n]);
      OwnerAfterClaim(db, k, ts[n], nows[n], a);
      OwnerAfterClaim(db, k, ts[n], nows[n], b);
      ClaimServesLeastOwner(db, dbs[n + 1], k, ts[n], nows[n], a);
      ClaimServesLeastOwner(db, dbs[n + 1], k, ts[n], nows[n], b);
    }
  }

  function JobGap(db: Db, i: JobId, j: JobId): nat {
    Abs(JobRunning(db, i) - JobRunning(db, j))
  }

  lemma OwnersFixed(dbs: seq<Db>, ks: seq<RowKey>, ts: seq<Token>, nows: seq<Time>, n: nat, j: JobId)
    requires Claims(dbs, ks, ts, nows) && n < |dbs| && j in dbs[0].jobs
    ensures j in dbs[n].jobs && dbs[n].jobs[j].owner == dbs[0].jobs[j].owner
  {
    if n > 0 {
      OwnersFixed(dbs, ks, ts, nows, n - 1, j);
      assert FairClaim(dbs[n - 1], dbs[n - 1 + 1], ks[n - 1], ts[n - 1], nows[n - 1]);
    }
  }

  /** The same between two jobs of one owner. */
  lemma {:induction false} JobsStayLevel(dbs: seq<Db>, ks: seq<RowKey>, ts: seq<Token>, nows: seq<Time>, i: JobId,
      j: JobId)
    requires Claims(dbs, ks, ts, nows)
    requires i in dbs[0].jobs && j in dbs[0].jobs && dbs[0].jobs[i].owner == dbs[0].jobs[j].owner
    requires forall h | 0 <= h < |ks| :: Claimable(dbs[h], i, nows[h]) && Claimable(dbs[h], j, nows[h])
    ensures JobGap(dbs[|ks|], i, j) <= if JobGap(dbs[0], i, j) >= 1 then JobGap(dbs[0], i, j) else 1
    decreases |ks|
  {
    if |ks| > 0 {
      var n := |ks| - 1;
      assert Claims(dbs[..n + 1], ks[..n], ts[..n], nows[..n]);
      JobsStayLevel(dbs[..n + 1], ks[..n], ts[..n], nows[..n], i, j);
      var db, k := dbs[n], ks[n];
      assert FairClaim(dbs[n], dbs[n + 1], ks[n], ts[n], nows[n]);
      OwnersFixed(dbs, ks, ts, nows, n, i);
      OwnersFixed(dbs, ks, ts, nows, n, j);
      JobAfterClaim(db, k, ts[n], nows[n], i);
      JobAfterClaim(db, k, ts[n], nows[n], j);
      if k.job == i || k.job == j {
        ClaimServesLeastJob(db, dbs[n + 1], k, ts[n], nows[n], i);
        ClaimServesLeastJob(db, dbs[n + 1], k, ts[n], nows[n], j);
      }
    }
  }
}
