/**
 Runs of the protocol with one job of one domain, each showing that a condition is needed.

 First a heartbeat comes between the start of the transaction that takes the domain lock and the lock itself, so the
 lock ends before the row's lease. Then a row fails after the transaction that retries it has begun, so it finds its
 own failure in the cache. Last come the stamps that are older than their effect: a retry counts a job's time twice, and
 a completion or a cancel takes time back. Each lemma takes a run one step further.
 */
module ProtocolExamples {
  import opened Tables
  import opened Protocol
  import opened ProtocolInv
  import Q = QueueSpec

  ghost predicate Reached(w: World) {
    exists ws: seq<World>, ss: seq<Step> :: Run(ws, ss) && ws[|ss|] == w
  }

  lemma Begun()
    ensures Reached(INIT)
  {
    assert Run([INIT], []) && [INIT][0] == INIT;
  }

  lemma SameStep(ws: seq<World>, ss: seq<Step>, ws': seq<World>, ss': seq<Step>, i: nat)
    requires |ws| == |ss| + 1 && |ws'| == |ss'| + 1 && i < |ss| && i < |ss'| && StepAt(ws, ss, i)
    requires ws'[i] == ws[i] && ws'[i + 1] == ws[i + 1] && ss'[i] == ss[i]
    ensures StepAt(ws', ss', i)
  {
  }

  lemma LastStep(ws: seq<World>, ss: seq<Step>, w: World, s: Step, w': World)
    requires |ws| == |ss| + 1 && ws[|ss|] == w && Enabled(w, s) && w' == Next(w, s)
    ensures StepAt(ws + [w'], ss + [s], |ss|)
  {
  }

  lemma Extended(ws: seq<World>, ss: seq<Step>, w: World, s: Step, w': World)
    requires Run(ws, ss) && ws[|ss|] == w && Enabled(w, s) && w' == Next(w, s)
    ensures Run(ws + [w'], ss + [s])
  {
    LastStep(ws, ss, w, s, w');
    forall i | 0 <= i < |ss| + 1 ensures StepAt(ws + [w'], ss + [s], i) {
      if i < |ss| {
        SameStep(ws, ss, ws + [w'], ss + [s], i);
      }
    }
  }

  lemma Reach(w: World, s: Step, w': World)
    requires Reached(w) && Enabled(w, s) && w' == Next(w, s)
    ensures Reached(w')
  {
    var ws: seq<World>, ss: seq<Step> :| Run(ws, ss) && ws[|ss|] == w;
    Extended(ws, ss, w, s, w');
    assert Run(ws + [w'], ss + [s]) && (ws + [w'])[|ss + [s]|] == w';
  }

  const J := JobId(1)
  const X := "x"
  const K := RowKey(J, X)
  const T := Token(1, 1)
  const U := Token(1, 2)

  ghost function One(job: Job, row: Row, log: RowLog, e: Domain, now: Time, handlers: map<Token, Phase>,
      claims: map<Token, Claim>, started: set<Token>, lockings: map<Token, Locking>): World {
    World(Db(map[J := job], map[K := row], map[X := e]), now, handlers, claims, {}, started, {}, lockings, {}, {},
      map[K := log])
  }

  // ---- one claim of the only row ---------------------------------------------------------------

  const CREATED := Q.NewJob(false, false, None, 0.0)
  const STARTED := Q.StartedJob(CREATED, 0.0)
  const FRESH := Q.NewRow(0, 0.0)
  const HELD := Q.ClaimedRow(FRESH, T, 0.0)
  const CLAIMS := map[T := Tables.Claim(K, 1, T, None)]
  const CHARGED := RowLog([T], 0, 0, None)

  lemma Overwritten<A, B>(k: A, a: B, b: B)
    ensures map[k := a][k := b] == map[k := b]
  {
  }

  lemma CreatedRows()
    ensures Q.JobKeys(J, [X]) == {K} && Q.NewRows(J, [X], 0.0) == map[K := FRESH]
  {
    assert Q.JobKeys(J, [X]) == {K};
    assert Q.IndexOf([X], X) == 0;
  }

  lemma CreatedDb()
    ensures Q.CreateJob(INIT.db, J, [X], false, None, 0.0) ==
      Db(map[J := CREATED], map[K := FRESH], map[X := Q.PENDING])
  {
    CreatedRows();
    assert (map d | d in [X] :: Q.PENDING) == map[X := Q.PENDING];
  }

  lemma Created()
    ensures Reached(One(CREATED, FRESH, RowLog([], 0, 0, None), Q.PENDING, 0.0, map[], map[], {}, map[]))
  {
    Begun();
    var w' := One(CREATED, FRESH, RowLog([], 0, 0, None), Q.PENDING, 0.0, map[], map[], {}, map[]);
    CreatedRows();
    CreatedDb();
    assert (map k | k in Q.JobKeys(J, [X]) :: RowLog([], 0, 0, None)) == map[K := RowLog([], 0, 0, None)];
    assert w' == DoCreateJob(INIT, J, [X], false, None, 0.0);
    Reach(INIT, CreateJob(J, [X], false, None, 0.0), w');
  }

  lemma ClaimOne(w: World, job: Job, row: Row, log: RowLog, t: Token)
    requires w.db.jobs == map[J := job] && w.db.rows == map[K := row] && w.logs == map[K := log]
    ensures var w' := DoClaim(w, K, t, w.now);
      && w'.db == w.db.(jobs := map[J := Q.StartedJob(job, w.now)], rows := map[K := Q.ClaimedRow(row, t, w.now)])
      && w'.logs == map[K := log.(charges := log.charges + [t])]
  {
    Overwritten(K, row, Q.ClaimedRow(row, t, w.now));
    Overwritten(J, job, Q.StartedJob(job, w.now));
    Overwritten(K, log, log.(charges := log.charges + [t]));
  }

  lemma Taken()
    ensures Reached(One(STARTED, HELD, CHARGED, Q.PENDING, 0.0, map[T := Claimed], CLAIMS, {}, map[]))
  {
    Created();
    var w := One(CREATED, FRESH, RowLog([], 0, 0, None), Q.PENDING, 0.0, map[], map[], {}, map[]);
    var w' := One(STARTED, HELD, CHARGED, Q.PENDING, 0.0, map[T := Claimed], CLAIMS, {}, map[]);
    ClaimOne(w, CREATED, FRESH, RowLog([], 0, 0, None), T);
    assert [] + [T] == [T];
    assert w'.claims == w.claims[T := Tables.Claim(K, FRESH.attempts + 1, T, FRESH.requeuedAt)];
    assert w' == DoClaim(w, K, T, 0.0);
    Reach(w, ClaimRow(K, T, 0.0), w');
  }

  lemma Opening()
    ensures Reached(One(STARTED, HELD, CHARGED, Q.PENDING, 0.0, map[T := Opened(0.0)], CLAIMS, {}, map[]))
  {
    Taken();
    var w := One(STARTED, HELD, CHARGED, Q.PENDING, 0.0, map[T := Claimed], CLAIMS, {}, map[]);
    Reach(w, Open(T), One(STARTED, HELD, CHARGED, Q.PENDING, 0.0, map[T := Opened(0.0)], CLAIMS, {}, map[]));
  }

  // ---- a lock that runs out before the lease -----------------------------------------------------

  const BEATEN := HELD.(heartbeatAt := Some(1.0))

  lemma LateWhileOpen()
    ensures Reached(One(STARTED, HELD, CHARGED, Q.PENDING, 1.0, map[T := Opened(0.0)], CLAIMS, {}, map[]))
  {
    Opening();
    var w0 := One(STARTED, HELD, CHARGED, Q.PENDING, 0.0, map[T := Opened(0.0)], CLAIMS, {}, map[]);
    var w1 := One(STARTED, HELD, CHARGED, Q.PENDING, 1.0, map[T := Opened(0.0)], CLAIMS, {}, map[]);
    assert DoTick(w0, 1.0).lapsed == {};
    Reach(w0, Tick(1.0), w1);
  }

  lemma BeatenWhileOpen()
    ensures Reached(One(STARTED, BEATEN, CHARGED, Q.PENDING, 1.0, map[T := Opened(0.0)], CLAIMS, {}, map[]))
  {
    LateWhileOpen();
    var w1 := One(STARTED, HELD, CHARGED, Q.PENDING, 1.0, map[T := Opened(0.0)], CLAIMS, {}, map[]);
    var w2 := One(STARTED, BEATEN, CHARGED, Q.PENDING, 1.0, map[T := Opened(0.0)], CLAIMS, {}, map[]);
    assert Q.Heartbeat(w1.db, {T}, 1.0).rows == w2.db.rows;
    assert Q.Heartbeat(w1.db, {T}, 1.0).domains == w2.db.domains;
    assert DoHeartbeat(w1, {T}, 1.0).lapsed == {};
    Reach(w1, Heartbeat({T}, 1.0), w2);
  }

  /** T owns its row and its lock, and the lock expires before the row's lease does. */
  ghost predicate ShortLock(w: World) {
    && HoldsLock(w, Tables.Claim(K, 1, T, None)) && Q.Owns(w.db, K, T)
    && w.db.rows[K].heartbeatAt.Some? && w.db.domains[X].lockUntil.Some?
    && w.db.domains[X].lockUntil.value < w.db.rows[K].heartbeatAt.value + LEASE_S
  }

  /** A heartbeat between the start of the lock's transaction and the lock leaves the lock shorter than the lease. */
  lemma LockShorterThanLease()
    ensures exists w :: Reached(w) && ShortLock(w)
  {
    BeatenWhileOpen();
    var w0 := One(STARTED, BEATEN, CHARGED, Q.PENDING, 1.0, map[T := Opened(0.0)], CLAIMS, {}, map[]);
    var w1 := One(STARTED, BEATEN, CHARGED, Q.PENDING, 1.0, map[T := Missed(0.0)], CLAIMS, {}, map[]);
    Reach(w0, ReadCache(T, true), w1);
    var e := Domain(None, None, Some(T), Some(LEASE_S));
    var w2 := One(STARTED, BEATEN, CHARGED, e, 1.0, map[T := Holding], CLAIMS, {}, map[T := Locking(0.0, 1.0)]);
    assert Next(w1, TryLock(T)).db == w2.db;
    Reach(w1, TryLock(T), w2);
    assert Reached(w2) && ShortLock(w2);
  }

  // ---- a retry that reads its own failure back ------------------------------------------------------

  const FAILURE := DomainResult(FetchFailed, Some(Homepage), None, 0, "")
  const LOCKED := Domain(None, None, Some(T), Some(LEASE_S))
  const TOOK := map[T := Locking(0.0, 0.0)]

  lemma Fetches()
    ensures Reached(One(STARTED, HELD, CHARGED, LOCKED, 0.0, map[T := Fetching], CLAIMS, {T}, TOOK))
  {
    Opening();
    var w0 := One(STARTED, HELD, CHARGED, Q.PENDING, 0.0, map[T := Opened(0.0)], CLAIMS, {}, map[]);
    var w1 := One(STARTED, HELD, CHARGED, Q.PENDING, 0.0, map[T := Missed(0.0)], CLAIMS, {}, map[]);
    Reach(w0, ReadCache(T, true), w1);
    var w2 := One(STARTED, HELD, CHARGED, LOCKED, 0.0, map[T := Holding], CLAIMS, {}, TOOK);
    assert Next(w1, TryLock(T)).db == w2.db;
    Reach(w1, TryLock(T), w2);
    var w3 := One(STARTED, HELD, CHARGED, LOCKED, 0.0, map[T := Fetching], CLAIMS, {T}, TOOK);
    Reach(w2, ReadCacheLocked(T, true), w3);
  }

  function Failed(f: Time): Row {
    Q.RecordedRow(HELD, FAILURE, false, f)
  }

  function Over(f: Time): Job {
    Q.CompletedJob(STARTED, 1, f)
  }

  function Cached(f: Time): Domain {
    Domain(Some(f), Some(FAILURE), None, None)
  }

  lemma FetchesUntil(f: Time)
    requires 0.0 <= f <= LEASE_S
    ensures Reached(One(STARTED, HELD, CHARGED, LOCKED, f, map[T := Fetching], CLAIMS, {T}, TOOK))
  {
    Fetches();
    if f > 0.0 {
      var w0 := One(STARTED, HELD, CHARGED, LOCKED, 0.0, map[T := Fetching], CLAIMS, {T}, TOOK);
      assert DoTick(w0, f).lapsed == {};
      Reach(w0, Tick(f), One(STARTED, HELD, CHARGED, LOCKED, f, map[T := Fetching], CLAIMS, {T}, TOOK));
    }
  }

  lemma Gathers(f: Time)
    requires 0.0 <= f <= LEASE_S
    ensures Reached(One(STARTED, HELD, CHARGED, LOCKED, f, map[T := Fetched(FAILURE, f)], CLAIMS, {T}, TOOK))
  {
    FetchesUntil(f);
    var w0 := One(STARTED, HELD, CHARGED, LOCKED, f, map[T := Fetching], CLAIMS, {T}, TOOK);
    var w1 := One(STARTED, HELD, CHARGED, LOCKED, f, map[T := Fetched(FAILURE, f)], CLAIMS, {T}, TOOK);
    Reach(w0, PipelineReturns(T, FAILURE), w1);
  }

  lemma FailedDb(db: Db, f: Time)
    requires db == Db(map[J := STARTED], map[K := HELD], map[X := LOCKED])
    ensures Q.Finish(db, K, T, FAILURE, false, true, f) ==
      Db(map[J := Over(f)], map[K := Failed(f)], map[X := Cached(f)])
  {
    assert Q.RowsOf(db.rows, J) == {K};
    Overwritten(J, STARTED, Over(f));
    Overwritten(K, HELD, Failed(f));
    Overwritten(X, LOCKED, Cached(f));
  }

  lemma Fails(f: Time)
    requires 0.0 <= f <= LEASE_S
    ensures Reached(One(Over(f), Failed(f), CHARGED.(recorded := 1), Cached(f), f, map[], CLAIMS, {T}, TOOK))
  {
    Gathers(f);
    var w1 := One(STARTED, HELD, CHARGED, LOCKED, f, map[T := Fetched(FAILURE, f)], CLAIMS, {T}, TOOK);
    var w2 := One(Over(f), Failed(f), CHARGED.(recorded := 1), Cached(f), f, map[], CLAIMS, {T}, TOOK);
    FailedDb(w1.db, f);
    Overwritten(K, CHARGED, CHARGED.(recorded := 1));
    assert w1.handlers - {T} == map[];
    assert w2 == DoFinish(w1, T, f);
    Reach(w1, Finish(T, f), w2);
  }

  // The retry's transaction began at time zero, so the row and the job are stamped with that.

  function Waiting(f: Time): Row {
    Q.ReopenedRow(Failed(f), 0.0)
  }

  function Again(f: Time): Job {
    Q.ReopenedJob(Over(f), 0.0)
  }

  ghost function Later(row: Row, log: RowLog, f: Time, handlers: map<Token, Phase>, claims: map<Token, Claim>): World {
    One(Again(f), row, log, Cached(f), f, handlers, claims, {T}, TOOK)
  }

  lemma Retried(f: Time)
    requires 0.0 <= f <= LEASE_S
    ensures Reached(Later(Waiting(f), RowLog([], 1, 1, None), f, map[], CLAIMS))
  {
    Fails(f);
    var w0 := One(Over(f), Failed(f), CHARGED.(recorded := 1), Cached(f), f, map[], CLAIMS, {T}, TOOK);
    var w1 := Later(Waiting(f), RowLog([], 1, 1, None), f, map[], CLAIMS);
    RetriesIt(w0, w1, f);
    Reach(w0, RequeueFailed(J, true, 0.0), w1);
  }

  lemma RetriedDb(db: Db, f: Time)
    requires db == Db(map[J := Over(f)], map[K := Failed(f)], map[X := Cached(f)])
    ensures Q.AnyRetryable(db.rows, J)
    ensures Q.RequeueFailed(db, J, 0.0) == Db(map[J := Again(f)], map[K := Waiting(f)], map[X := Cached(f)])
  {
    assert K in db.rows && Q.Retryable(db.rows[K]);
    assert Q.AnyRetryable(db.rows, J);
    Overwritten(J, Over(f), Again(f));
    assert Q.ReopenRows(db, J, 0.0).rows == map[K := Waiting(f)];
  }

  lemma RetriesIt(w0: World, w1: World, f: Time)
    requires w0 == One(Over(f), Failed(f), CHARGED.(recorded := 1), Cached(f), f, map[], CLAIMS, {T}, TOOK)
    requires w1 == Later(Waiting(f), RowLog([], 1, 1, None), f, map[], CLAIMS)
    ensures w1 == DoRequeueFailed(w0, J, true, 0.0)
  {
    RetriedDb(w0.db, f);
    assert Q.Retryable(w0.db.rows[K]);
    assert DoRequeueFailed(w0, J, true, 0.0).logs == w1.logs;
    assert w0.stranded - {J} == {};
  }

  function Held2(f: Time): Row {
    Q.ClaimedRow(Waiting(f), U, f)
  }

  const CLAIMS2 := CLAIMS[U := Tables.Claim(K, 1, U, Some(0.0))]

  lemma RetryClaimed(f: Time)
    requires 0.0 <= f <= LEASE_S
    ensures Reached(Later(Held2(f), RowLog([U], 1, 1, None), f, map[U := Claimed], CLAIMS2))
  {
    Retried(f);
    var w0 := Later(Waiting(f), RowLog([], 1, 1, None), f, map[], CLAIMS);
    var w1 := Later(Held2(f), RowLog([U], 1, 1, None), f, map[U := Claimed], CLAIMS2);
    assert Q.StartedJob(Again(f), f) == Again(f);
    ClaimOne(w0, Again(f), Waiting(f), RowLog([], 1, 1, None), U);
    assert [] + [U] == [U];
    assert w1 == DoClaim(w0, K, U, f);
    Reach(w0, ClaimRow(K, U, f), w1);
  }

  lemma HitsItsFailure(f: Time)
    requires 0.0 <= f <= LEASE_S
    ensures Reached(Later(Held2(f), RowLog([U], 1, 1, None), f, map[U := Hit(FAILURE, f, f)], CLAIMS2))
  {
    RetryClaimed(f);
    var w1 := Later(Held2(f), RowLog([U], 1, 1, None), f, map[U := Claimed], CLAIMS2);
    var w2 := Later(Held2(f), RowLog([U], 1, 1, None), f, map[U := Opened(f)], CLAIMS2);
    Reach(w1, Open(U), w2);
    var w3 := Later(Held2(f), RowLog([U], 1, 1, None), f, map[U := Hit(FAILURE, f, f)], CLAIMS2);
    Reach(w2, ReadCache(U, true), w3);
  }

  /** The row was reopened once, stamped zero, and recorded from the cache with the failure of time `f` it had. */
  ghost predicate ReadBack(w: World, f: Time) {
    && K in w.db.rows && w.db.rows[K].state.RowDone? && w.db.rows[K].fromCache && w.db.rows[K].result == Some(FAILURE)
    && w.db.rows[K].requeuedAt == Some(0.0)
    && K in w.logs && w.logs[K].reopened == 1 && w.logs[K].entryAt == Some(f)
  }

  /** A row that fails just when the transaction of its retry began, or later, gets its own failure back. */
  lemma RetryReadsItsFailureBack(f: Time)
    requires 0.0 <= f <= LEASE_S
    ensures exists w :: Reached(w) && ReadBack(w, f)
  {
    HitsItsFailure(f);
    var w0 := Later(Held2(f), RowLog([U], 1, 1, None), f, map[U := Hit(FAILURE, f, f)], CLAIMS2);
    var w1 := Next(w0, Finish(U, f));
    Reach(w0, Finish(U, f), w1);
    assert Reached(w1) && ReadBack(w1, f);
  }

  // ---- stamps older than their effect ------------------------------------------------------------------

  /** The job shows more time able to run than has passed since it was created. */
  ghost predicate ShowsTooMuch(w: World) {
    && J in w.db.jobs && Q.ActiveSeconds(w.db.jobs[J], w.now).Some?
    && Q.ActiveSeconds(w.db.jobs[J], w.now).value > w.now - w.db.jobs[J].createdAt
  }

  /** A retry whose transaction began before the job was done counts the time since then again. */
  lemma RetryCountsTwice()
    ensures exists w :: Reached(w) && ShowsTooMuch(w)
  {
    Retried(1.0);
    var w := Later(Waiting(1.0), RowLog([], 1, 1, None), 1.0, map[], CLAIMS);
    assert Reached(w) && ShowsTooMuch(w);
  }

  /** The step takes back some of the time the job has shown. */
  ghost predicate TakesBack(w: World, s: Step) {
    && Enabled(w, s) && J in w.db.jobs && J in Next(w, s).db.jobs
    && var a, b := Q.ActiveSeconds(w.db.jobs[J], w.now), Q.ActiveSeconds(Next(w, s).db.jobs[J], w.now);
    a.Some? && b.Some? && b.value < a.value
  }

  /** A cancel whose transaction began earlier takes back the time since then. */
  lemma CancelStopsEarlier()
    ensures exists w :: Reached(w) && TakesBack(w, Cancel(J, 0.0))
  {
    LateWhileOpen();
    var w := One(STARTED, HELD, CHARGED, Q.PENDING, 1.0, map[T := Opened(0.0)], CLAIMS, {}, map[]);
    assert Reached(w) && TakesBack(w, Cancel(J, 0.0));
  }

  /** So does a completion: claimed at 0, fetched at 1 and recorded by 2, the job shows one second. */
  lemma CompletionStopsEarlier()
    ensures exists w :: Reached(w) && w.now == 2.0 && TakesBack(w, Finish(T, 1.0)) && ShowsOne(Next(w, Finish(T, 1.0)))
  {
    Gathers(1.0);
    var w0 := One(STARTED, HELD, CHARGED, LOCKED, 1.0, map[T := Fetched(FAILURE, 1.0)], CLAIMS, {T}, TOOK);
    var w1 := One(STARTED, HELD, CHARGED, LOCKED, 2.0, map[T := Fetched(FAILURE, 1.0)], CLAIMS, {T}, TOOK);
    assert DoTick(w0, 1.0).lapsed == {};
    Reach(w0, Tick(1.0), w1);
    FailedDb(w1.db, 1.0);
    assert TakesBack(w1, Finish(T, 1.0)) && ShowsOne(Next(w1, Finish(T, 1.0)));
  }

  ghost predicate ShowsOne(w: World) {
    J in w.db.jobs && w.db.jobs[J].status.Done? && Q.ActiveSeconds(w.db.jobs[J], w.now) == Some(1.0)
  }
}
