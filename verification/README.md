# Verified model of the e-mail extractor

A Dafny model of the service that finds contact e-mail addresses for uploaded lists of domains, with proofs of what
its work queue, rate limiting and page pipeline promise. `dafny verify dfyconfig.toml` checks the whole project.

## What is modelled

**The work queue** (`Tables`, `QueueSpec`, `QueueEffects`, `Queue`, `Protocol*`, `FairShare`, `CompletionRace`). Three tables hold jobs,
job rows and domains (the shared result cache with its lease lock). `QueueSpec` says what each transaction does to the
tables. `Queue.Store` carries the tables as fields and runs each operation, proved against `QueueSpec`: the two searches
of a claim are loops, and an operation that is one UPDATE over many rows is one comprehension. `QueueEffects` says of
every operation, apart from these functions, what each column holds afterwards.
`Protocol` lets any number of workers run these transactions in any order, with handlers that stop between two
transactions, crash, lose their row to the reaper, or wait. A claim's token is a worker and a nonce. The transaction
that reads the cache and then takes the domain lock is two steps, and the lock is stamped with the start of the
transaction, as `now()` is; heartbeats can come in between. A retry either sees that the job is done or, having looked
before the job's completion was committed, misses it. Every transaction of the queue takes effect at one step but
carries an earlier start, which is what `now()` gives in it: its tests and stamps count from there. A recording begins
no earlier than its handler had the result, and a heartbeat no earlier than the stamps it renews, as a worker sends
one at a time. A world also keeps a history that no operation reads: claims made, leases lapsed, locks taken,
pipelines started, results recorded, rows reopened, jobs stranded. `ProtocolInv`, `ProtocolMoves`, `ProtocolSteps` and
`ProtocolProof` state and prove one invariant of every reachable world; `ProtocolTheorems` and `ProtocolJobs`, with
`ProtocolFrames` for what each kind of step leaves alone, state what follows over whole runs. `ProtocolHandlers` traces
every recorded result and every delay to the step it came from, `ProtocolProgress` says what comes back after crashes
and that every job can still be completed, and `ProtocolExamples` holds runs in which a promise fails. `CompletionRace` takes completion apart into its statements under read-committed
visibility: finishers, completion checks, the sweep and retries, which take no job lock. Three facts about single
steps stand beside the theorems as helpers: what a finish by a claim that lost its row leaves alone
(`ProtocolTheorems.StaleFinishWritesNothing`), what a recording publishes (`ProtocolJobs.PipelineResultPublished`) and
when a completion check becomes due (`ProtocolJobs.OwedOnlyAfterResume`).

**Rate limiting** (`RateLimit`, `SharedBucket`, `Breaker`, `FetchGate`). The local token bucket and the script shared
through Redis, the circuit breaker, and the gate of semaphores that every fetch passes. Buckets and breaker are classes
proved against functions on values; the theorems are about any sequence of calls. The gate is a state machine whose
steps are what runs between two awaits; a released permit is handed to the first waiter in the same step, as the
semaphores of Python 3.12 do.

**The pipeline's algorithms** (`Select`, `HtmlScan`, `Sitemap`, `Decision`, `Caches`). Page selection, the block
scanner, the sitemap worklist, the chain from ranked candidates and model answers to the reported address, and the two
caches that must agree with recomputation.

Time is a real number. Clocks are parameters, and so are random numbers, fetched texts, model answers, lowercasing and
parsing.

## Where the code differs from what it says

- The breaker's text says escalation resets only after the breaker held closed for the recovery time. The code compares
  with the last close even if the breaker has re-opened since: `Breaker.StartsOverWithoutRecovery` is a run where it
  held closed for one second of four, and `Breaker.StartsOverMeansHeldClosed` says exactly when the two agree.
- A chosen address is meant to be one the model scored as belonging. A score that is not a number passes the fallback's
  test: `Decision.NaNIsLetThrough` shows it and `Decision.DecideIsSoundUnlessNaN` says it is the only way.
- A penalty with a negative fraction speeds a token bucket up and breaks its bound
  (`RateLimit.NegativePenaltyBreaksBound`). The bound holds for every sequence of calls exactly if the fraction is not
  negative (`RateLimit.BoundHoldsExactlyIf`); the only caller passes 0.25.
- A done job is meant to have nothing left to do. `requeue_failed` takes no job lock: if a completion is not committed
  yet when its second statement looks, it finds the job not done and leaves it, and the job ends up done with a queued
  row that no claim picks. `CompletionRace.RetryStrandsARow` is such a run. A completing commit leaves only recorded
  rows exactly if no other row was open at its decision and no retry committed between that and its commit
  (`CompletionRace.CompletesCleanlyExactlyIf`, `CompletionRace.FinishIsAtomicUnlessRetried`), and a retry leaves the
  job done exactly if it looked before the completion (`CompletionRace.RetryStrandsExactlyIf`). Without such a retry,
  done means recorded (`CompletionRace.DoneMeansRecorded`, `ProtocolJobs.SeenRetriesStrandNothing`). The number of
  completions needs no such condition.
- An active job is meant to have something left to do. The check after a resume is a transaction of its own; if it is
  lost, a job whose last row finished during the pause stays running (`CompletionRace.LostCheckLeavesAJob`). A job is
  left behind exactly if a check was lost and nothing, such as a sweep, has completed the job since
  (`CompletionRace.NoJobLeftBehind`); one sweep is enough (`CompletionRace.SweepRepairs`).
- A domain lock is meant to outlast its holder's lease. It is stamped with the start of the transaction that also read
  the job and the cache, so a heartbeat in between is newer than the lock: `ProtocolExamples.LockShorterThanLease`. At
  every moment the lock outlasts the lease exactly if it no longer counts from before the last heartbeat
  (`ProtocolTheorems.LockOutlivesLeaseExactlyIf`). It falls short only while the last heartbeat is one between that
  start and the lock (`ProtocolTheorems.ShortMeansBeatInGap`), so a later heartbeat restores it, and by no more than
  the time between the two (`ProtocolTheorems.LockOutlivesLease`). Exclusion holds for claims that are not late, where
  a claim not renewed since its lock is late when its transaction is older than the lease
  (`ProtocolTheorems.MutualExclusion`).
- A retried row is meant never to read back the failure it retries. `requeued_at` is the start of the retry's
  transaction, which looked the job up before. A row that fails just then, or later but before the retry reopens it,
  gets its own failure back: `ProtocolExamples.RetryReadsItsFailureBack`. The failure is reusable after the retry
  exactly if it finished at or after that start (`ProtocolJobs.RetriedFailureReusableExactlyIf`), and otherwise never
  comes back (`ProtocolJobs.RetryNeverReadsItsFailureBack`). For the same reason `requeued_at` can move back, exactly
  when a retry reopens the row that began before the stamp (`ProtocolJobs.RequeuedAtFallsExactlyIf`).
- The active seconds of a job are meant to be the time it was able to run. A first claim, a resume and a retry count
  from the start of their transaction, a completion, a pause and a cancel stop there. What is shown is the time the
  job ran plus exactly these delays, with their signs (`ProtocolJobs.ActiveSecondsExact`). So it is right exactly if
  they add up to nothing (`ProtocolJobs.ActiveSecondsExactlyIf`), in particular if no such transaction took effect
  later than it began (`ProtocolJobs.ActiveSecondsRight`). It falls exactly when a running job with time to show is
  completed, paused or cancelled by a transaction that began earlier (`ProtocolJobs.ActiveSecondsMonotone`), which is
  the ordinary case: `ProtocolExamples.CompletionStopsEarlier` is a run of one claim and one completion.
  `ProtocolExamples.RetryCountsTwice` and `ProtocolExamples.CancelStopsEarlier` show the two signs for a retry and a
  cancel.
- The block scanner looks for tag names in the lowercased text and uses those offsets in the text itself. A character
  whose lowercase is longer (U+0130 is one) moves them apart: `HtmlScan.LongerHidesTag` is a text whose only tag is
  not found. A tag whose name ends before the first such character is found (`HtmlScan.FindsTagBefore`), and every tag
  of every text exactly if no character becomes longer (`HtmlScan.FindsTagsExactlyIf`).
- Calls recorded while the breaker is open are sampled and can open it again, which restarts and lengthens the window:
  in `Breaker.ReopensWhileOpen` a failure one second into a window moves its end from 11 s to 22 s.
  (`Breaker.OpensExactlyOnRule` covers closed and open alike.)

## Model

| member | source | states |
|---|---|---|
| `CompletionRace.NoJobLeftBehind` | app/queue.py:200-287 | For every interleaving of the statements of any number of finishers, completion checks, sweeps and retries with claims, give-backs, pauses, resumes, cancels and aborts of any of them: once no finisher, check or sweep is in flight and no row is open, the job is done, paused or cancelled; it is left active exactly if a completion check after a resume was lost and nothing has completed the job since |
| `CompletionRace.LostCheckLeavesAJob` | app/main.py:678-691 | There is a run, with the lock in place, that ends with every row recorded, no transaction left and the job still running |
| `CompletionRace.CompletedExactlyOnce` | app/queue.py:246-287 | In every such run, whatever the retries, the number of transactions that completed the job is the number of times it was reopened, plus one while it is done |
| `CompletionRace.CompletesCleanlyExactlyIf` | app/queue.py:259-332 | A commit that completes the job leaves only recorded rows exactly if none was open at its decision and no retry committed from then on |
| `CompletionRace.FinishIsAtomicUnlessRetried` | app/queue.py:200-287 | The separate statements of a finisher or check do what one atomic step at its commit would (record the row, complete an active job without other open rows) exactly unless it decided to complete and a retry committed before it did |
| `CompletionRace.RetryStrandsExactlyIf` | app/queue.py:298-332 | A retry leaves the job done, with the rows it reopened, exactly if the job was not done when it looked and is done when it commits |
| `CompletionRace.DoneMeansRecorded` | app/queue.py:259-332 | In every run without a retry that commits behind a completion it did not see or a decided one, a done job has only recorded rows |
| `CompletionRace.RetryStrandsARow` | app/queue.py:298-332 | There is a run that ends with the job done, a row queued and no transaction left |
| `CompletionRace.SweepRepairs` | app/queue.py:371-388 | From any state in which an active job has no open row and its lock is free, one sweep completes it and changes no row |
| `CompletionRace.WithoutLockAJobIsLost` | app/queue.py:259-271 | Without the job-row lock there is a run that ends with every row recorded, no finisher left and the job still running |
| `ProtocolProof.StepKeeps` | app/queue.py:92-426 | Every step of the protocol keeps the invariant that ties rows, locks, handlers and jobs to the history |
| `ProtocolProof.RunKeeps` | app/worker.py:192-282 | Every world reachable from empty tables satisfies that invariant |
| `ProtocolTheorems.LockOutlivesLease` | app/queue.py:149-167 | In every run, while a claim owns its row and the domain lock, the lock expires no earlier than the row's heartbeat plus the lease, unless it still counts from the start of its transaction and the heartbeat came after that and by the lock; it is never short by more than the time between the two |
| `ProtocolTheorems.LockOutlivesLeaseExactlyIf` | app/queue.py:149-167 | At every moment of every run such a lock lasts to the row's heartbeat plus the lease exactly if not both: it still counts from the start of its transaction, and the heartbeat is newer than that |
| `ProtocolTheorems.ShortMeansBeatInGap` | app/queue.py:347-368 | A lock is short only while some heartbeat of its claim began after its transaction did and by the lock, and none has begun later |
| `ProtocolTheorems.FullAtLockExactlyIf` | app/worker.py:206-223 | When a lock is taken it lasts to the row's heartbeat plus the lease exactly if no heartbeat that renewed the row began after the lock's transaction did |
| `ProtocolExamples.LockShorterThanLease` | app/worker.py:206-223 | There is a run after which a claim owns its row and the lock, and the lock ends before the row's lease |
| `ProtocolTheorems.LockTakenOnlyFromLate` | app/queue.py:149-167 | A lock passes to another claim only if its holder has lost its row or is late: its heartbeat is older than the lease, or it was not renewed since its lock and its lock's transaction began longer ago than the lease |
| `ProtocolTheorems.LapsedMeansLate` | app/queue.py:347-404 | A claim counted as lapsed did own its row and was late at some earlier moment of the run |
| `ProtocolTheorems.MutualExclusion` | app/worker.py:206-271 | Two claims run the pipeline on one domain at the same time only if one of them was late before |
| `ProtocolTheorems.AttemptsCountCharges` | app/queue.py:77-89 | `attempts` is the number of unrefunded claims of the current round, which are distinct and carry the numbers 1, 2, ... in order |
| `ProtocolTheorems.ChargedRunsBounded` | app/worker.py:215-224 | Whatever crashes and reaps happen, a round charges at most MAX_CLAIMS pipeline runs to a row |
| `ProtocolTheorems.StepMoves` | app/queue.py:183-332 | Each step moves every row by at most one move of the row life cycle |
| `ProtocolTheorems.RecordedExactlyOnce` | app/queue.py:200-256 | Results recorded for a row are as many as its reopenings, plus one while it is done |
| `ProtocolTheorems.MoveFreezes` | app/queue.py:298-332 | A stored result changes only at a recording, and only a retryable failure is reopened |
| `ProtocolTheorems.ResultFrozen` | app/queue.py:200-332 | Along any stretch of a run without a new recording, a row's result and finish time stay the same |
| `ProtocolTheorems.QueuedUntilAvailable` | app/queue.py:77-89 | A queued row is left as it is, by every operation, until the time it becomes available |
| `ProtocolTheorems.BackoffRespected` | app/queue.py:183-197 | A row its handler gave back with a delay is in nobody's hands until the delay, counted from the start of that transaction, is over |
| `ProtocolTheorems.FairClaimIsStep` | app/queue.py:92-113 | In a reachable world, the row the fair order picks under a new token, by a transaction begun at any earlier time, is a step of the protocol with the same effect; it is a waiting row, due by then, of a queued or running job, never of a paused, done or cancelled one |
| `ProtocolHandlers.ReadDecides` | app/worker.py:206-232 | In every run a usable cached result that can be read is reused; without one a claim past MAX_CLAIMS gives up, any other asks for the lock, and fetches only if there is none with the lock in hand either |
| `ProtocolHandlers.RecordedFrom` | app/worker.py:206-282 | In every run, what a claim records it read from a usable cache entry, or had from its own pipeline, or is the failure of a claim past MAX_CLAIMS; a provider outage is recorded at the third attempt at the earliest; only what the pipeline returned goes into the cache |
| `ProtocolHandlers.GivenBackFor` | app/worker.py:192-269 | In every run a row given back waits 10 s for a domain locked by another, nothing after an account problem, 30 s after an error, 600 s after a provider outage before the third attempt; only the last two keep the attempt |
| `ProtocolProgress.NothingSilentAfterReap` | app/queue.py:391-404 | In every run, after a reap no row runs on a heartbeat older than the lease, counted from its start |
| `ProtocolProgress.ReapedRowIsClaimable` | app/queue.py:391-404 | A reap takes back exactly the rows running on an older heartbeat: queued, nobody's, due at once, with the same attempts, and any new claim may take them; every other row is unchanged |
| `ProtocolProgress.CrashedRowComesBack` | app/queue.py:391-404 | A claim whose process died owns no row after the first reap begun more than the lease after the crash |
| `ProtocolProgress.NothingClaimedAfterPause` | app/queue.py:335-344 | Right after active jobs are paused no fair claim exists |
| `ProtocolProgress.NothingOverAfterSweep` | app/queue.py:371-388 | After a sweep every queued or running job has a row that is not done |
| `ProtocolProgress.NothingHeldAfterRelease` | app/queue.py:407-426 | After a worker is released no row and no lock is held by any of its claims |
| `ProtocolProgress.RowCanFinish` | app/worker.py:192-282 | From every world that satisfies the invariant, an open row, whoever holds it or its domain, can be claimed and recorded under any new token, without reopening a recorded row or stopping a job |
| `ProtocolProgress.EveryJobCanComplete` | app/worker.py:192-282 | Every run can be continued to one in which a given job that is not cancelled is done and all its rows are recorded |
| `ProtocolJobs.JobStatusSound` | app/queue.py:259-344 | In every reachable world: paused exactly when `paused_at` is set, over exactly when `finished_at` is set, done means no open row or a retry that missed the completion, active means an open row or a resume whose completion check is still to come |
| `ProtocolJobs.SeenRetriesStrandNothing` | app/queue.py:298-332 | In every run whose retries all saw the completion, no done job has an open row |
| `ProtocolJobs.StepMovesJob` | app/main.py:623-649 | Each step moves every job by at most one move of the job life cycle |
| `ProtocolJobs.CancelledForever` | app/main.py:694-706 | A cancelled job stays cancelled, with the same finish time, for the rest of every run |
| `ProtocolJobs.DoneLeftOnlyByRetry` | app/queue.py:298-332 | Only a retry that reopened a row takes a job out of done |
| `ProtocolJobs.ActiveSecondsExact` | app/main.py:513-527 | The seconds computed from the job's columns equal the time in the run during which it was started, unpaused and not over, plus what the first claim and each resume and retry took effect late, less what each completion, pause and cancel did, and not below zero |
| `ProtocolJobs.ActiveSecondsExactlyIf` | app/main.py:513-527 | For a started job they equal that time exactly if these delays, with their signs, add up to nothing, or to less than nothing while there is no time to show |
| `ProtocolJobs.ActiveSecondsRight` | app/main.py:513-527 | They equal that time in every run in which no first claim, return to running or stop of the job took effect later than its transaction began |
| `ProtocolJobs.ActiveSecondsMonotone` | app/main.py:513-527 | From step to step they decrease exactly when a running job with time to show is completed, paused or cancelled by a transaction that began earlier, and stand still while the job is paused, done or cancelled until an older transaction brings it back |
| `ProtocolExamples.CompletionStopsEarlier` | app/worker.py:260-271 | There is a run of one claim and one completion after which the job shows one second of the two it ran, less than before it completed |
| `ProtocolExamples.RetryCountsTwice` | app/queue.py:319-330 | There is a run after which a job shows more active time than has passed since its creation |
| `ProtocolExamples.CancelStopsEarlier` | app/main.py:694-706 | There is a run after which a cancel makes the time shown fall |
| `ProtocolJobs.CacheFloor` | app/queue.py:116-133 | A row of a fresh job, or one holding a failure, that was recorded from cache used an entry finished no earlier than the job's creation and the row's last requeue |
| `ProtocolJobs.RetryNeverReadsItsFailureBack` | app/queue.py:290-332 | After a retry of a failure, if it and every later retry of the row began after the failure was recorded, no later recording of that row from a cached failure used that failure |
| `ProtocolJobs.RetriedFailureReusableExactlyIf` | app/queue.py:116-133 | After a retry the failure it retries is reusable by the row, at any later time, exactly if it was recorded at or after the start of the retry's transaction |
| `ProtocolExamples.RetryReadsItsFailureBack` | app/main.py:656-675 | For every delay up to the lease there is a run in which a row fails that long after its retry's transaction began and, retried, is recorded from that failure in the cache |
| `ProtocolJobs.RequeuedAtFallsExactlyIf` | app/queue.py:307-318 | A row's `requeued_at` moves back exactly when a retry reopens the row whose transaction began before the stamp |
| `ProtocolJobs.RequeuedAtIsLastRetry` | app/queue.py:307-318 | Over any stretch of a run it is the start of the last retry that reopened the row, or what it was |
| `ProtocolJobs.CacheWrittenOnlyByPipeline` | app/queue.py:236-245 | A cached result changes only when a claim that ran the pipeline and still owns its row records it, and then to that result, stamped with the start of the recording |
| `ProtocolJobs.NoLockLeftBehind` | app/worker.py:192-271 | In every run a domain lock belongs to a claim whose handler is still to release it, or whose handler is gone: its process died or its error path failed |
| `FairShare.ClaimServesLeastOwner` | app/queue.py:55-75 | A claim goes to an owner with the fewest rows in flight among owners with claimable work |
| `FairShare.ClaimServesLeastJob` | app/queue.py:55-75 | Then to that owner's job with the fewest |
| `FairShare.OwnersStayLevel` | app/queue.py:55-113 | Along any sequence of claims, two owners that stay claimable differ by no more than the larger of their first gap and one |
| `FairShare.JobsStayLevel` | app/queue.py:55-113 | The same for two jobs of one owner |
| `FairShare.ClaimableExactlyIf` | app/queue.py:68-72 | A job may be served exactly if it is queued or running and has a queued row that is due |
| `FairShare.ClaimOrder` | app/queue.py:55-89 | Told in columns: a claim takes the lowest-numbered due row of its job; no job with a due row has an owner with fewer running rows, nor among equals fewer of its own, nor among equals again is it older |
| `QueueSpec.OpenAfterRecording` | app/queue.py:200-287 | After a row is recorded its job has an open row exactly if another row was open before |
| `QueueEffects.ClaimEffect` | app/queue.py:77-108 | The row runs under the claim with one more attempt; a queued job runs and a first start is kept; nothing else changes |
| `QueueEffects.CacheUsableExactlyIf` | app/queue.py:116-133 | A finished result is reusable exactly if it is no older than the job and the row's last retry, or, for a job that is not fresh and a result that is no failure, no older than the cache time |
| `QueueEffects.LockEffect` | app/queue.py:149-167 | The lock goes to the claim, until the lease after its transaction began, exactly if nobody holds it or it has run out; a domain unknown so far gets an entry |
| `QueueEffects.UnlockEffect` | app/queue.py:170-180 | Only a lock of this claim goes; results stay |
| `QueueEffects.RequeueEffect` | app/queue.py:183-197 | Only the row the claim still runs goes back: queued, nobody's, due after the delay, with or without the attempt |
| `QueueEffects.FinishRows` | app/queue.py:200-235 | Only the row the claim still runs is done, with the result, the source and the tokens, which a cached result does not cost |
| `QueueEffects.FinishDomains` | app/queue.py:236-250 | The cache gets the result unless it came from there or is kept out or the row was lost; only this claim's lock goes |
| `QueueEffects.FinishJobs` | app/queue.py:251-287 | The job is done, with its rows counted, exactly if it was active, the claim still had the row and every row is done now |
| `QueueEffects.CompleteEffect` | app/queue.py:259-287 | The job is done exactly if it was active and every row of it is done; no other job changes |
| `QueueEffects.SweepEffect` | app/queue.py:371-388 | The same for every job at once |
| `QueueEffects.RetryRows` | app/queue.py:290-318 | Exactly the job's fetch failures for one of the six reasons, or given up after too many attempts, are queued again from attempt zero, due at once, stamped, with their result kept |
| `QueueEffects.RetryJobs` | app/queue.py:319-332 | A done job with such a row runs again, and the time it sat done is booked as paused |
| `QueueEffects.ReapEffect` | app/queue.py:391-404 | Every running row with a heartbeat older than the lease is queued, nobody's and due now, with the same attempts; every other row, job and domain is unchanged |
| `QueueEffects.ReleaseEffect` | app/queue.py:407-426 | Every row the worker runs goes back with its attempt refunded, never below zero, and every lock it holds; nothing else changes |
| `QueueEffects.HeartbeatEffect` | app/queue.py:347-368 | Exactly the rows run and the locks held by the claims named are renewed |
| `QueueEffects.PauseEffect` | app/queue.py:335-344 | Exactly the queued and running jobs are paused, with the reason and the time |
| `QueueEffects.ResumeEffect` | app/main.py:623-649 | A paused job runs again, and its pause is booked from the later of its start and the job's |
| `QueueEffects.ResumeForEffect` | app/main.py:892-905 | The same for every job paused for the reason |
| `QueueEffects.CancelEffect` | app/main.py:694-706 | A job that is not over is cancelled, an open pause is booked and a finish time it has is kept |
| `QueueEffects.CreateEffect` | app/jobs.py:207-280 | One row for each domain and no other; rows and cache entries there before stay; a job without domains is done at once |
| `QueueEffects.CreateRows` | app/jobs.py:269-276 | Each domain's row is queued, due at once and numbered by the domain's first place in the list |
| `Queue.Store.PickJob` | app/queue.py:55-75 | Finds a job the serving order puts first, which is queued or running and has a queued row that is due; finds none exactly if there is no such row of such a job |
| `Queue.Store.PickRow` | app/queue.py:77-89 | Finds the job's due row with the lowest number |
| `Queue.Store.Claim` | app/queue.py:92-113 | Returns a claim exactly if some queued row of a queued or running job is due; then of such a row, by the fair order, which alone changes to running with the token, the time and one more attempt, while its job starts; otherwise nothing changes |
| `Queue.Store.CachedResult` | app/queue.py:136-146 | Returns the domain's result exactly if there is an entry the job may use and its stored shape is still valid |
| `Queue.Store.LockDomain` | app/queue.py:149-167 | Takes the lease lock, dated from the start of its transaction, exactly if it was free or expired then |
| `Queue.Store.UnlockDomain` | app/queue.py:170-180 | Drops the lock only if this claim owns it |
| `Queue.Store.Requeue` | app/queue.py:183-197 | Gives an owned row back with its delay, refunding the attempt unless counted |
| `Queue.Store.Finish` | app/queue.py:200-256 | Updates row, cache, lock and job as the specification does; reports whether it recorded and whether it completed the job |
| `Queue.Store.CompleteIfFinished` | app/queue.py:259-287 | Completes an active job without open rows, and says if it did |
| `Queue.Store.RequeueFailed` | app/queue.py:298-332 | Reopens exactly the job's retryable failures and returns how many |
| `Queue.Store.PauseActiveJobs` | app/queue.py:335-344 | Pauses every active job with the reason |
| `Queue.Store.Heartbeat` | app/queue.py:347-368 | Renews rows and locks of the live claims |
| `Queue.Store.CompleteFinishedJobs` | app/queue.py:371-388 | Completes every active job without open rows and returns how many |
| `Queue.Store.Reap` | app/queue.py:391-404 | Every running row with a heartbeat older than the lease becomes queued, nobody's and due now, with the same attempts; no other row, no job and no domain changes; returns how many rows changed |
| `Queue.Store.ReleaseWorker` | app/queue.py:407-426 | Gives back the rows of a stopped worker with their attempts refunded, and its locks |
| `Queue.Store.Transition` | app/main.py:623-649 | Changes the status only from an allowed one, booking the pause that ends |
| `Queue.Store.ResumeJob` | app/main.py:678-691 | Resumes a paused job, then completes it if nothing is left |
| `Queue.Store.CancelJob` | app/main.py:694-706 | Cancels a job that is not over, and says if it did |
| `Queue.Store.ActiveSeconds` | app/main.py:513-527 | Computes the job's active seconds; none before its first claim |
| `RateLimit.TraceBalances` | app/ratelimit.py:36-60 | After any prefix of any trace, tokens granted plus tokens left are at most the tokens at the start plus what the full rate earned |
| `RateLimit.GrantedInInterval` | app/ratelimit.py:36-60 | Over any interval and from any state, tokens granted are at most capacity plus rate times elapsed time, whatever penalties are applied |
| `RateLimit.NegativePenaltyBreaksBound` | app/ratelimit.py:47-50 | A penalty with a negative fraction breaks that bound for every rate and capacity |
| `RateLimit.BoundHoldsExactlyIf` | app/ratelimit.py:36-60 | That bound holds over every interval of every sequence of calls penalizing by a fraction exactly if the fraction is not negative |
| `RateLimit.WaitIsEnough` | app/ratelimit.py:52-60 | A refused request within the capacity is granted after the wait it is told, if nothing comes between |
| `RateLimit.NeverMoreThanCapacity` | app/ratelimit.py:52-60 | A request beyond the capacity is never granted |
| `RateLimit.RefillIs` | app/ratelimit.py:36-46 | A call first books what has come in since the last one, at the slowed rate while a penalty lasts and at the full rate otherwise, up to the capacity |
| `RateLimit.WaitIsNeeded` | app/ratelimit.py:52-60 | Asked again before that wait is over, at an unchanged rate, it is refused |
| `RateLimit.TakeIs` | app/ratelimit.py:36-60 | What is then in the bucket is taken exactly if it is enough, and what is left and the time are kept |
| `RateLimit.PenaltyTakesEffect` | app/ratelimit.py:47-50 | Until a penalty ends tokens come in slower by its fraction, never below a twentieth of the rate; afterwards at the full rate |
| `RateLimit.TokenBucket.TryAcquire` | app/ratelimit.py:52-60 | One turn of acquiring: grants exactly if the refilled bucket has the tokens, else returns a wait that is enough |
| `RateLimit.TokenBucket.Penalize` | app/ratelimit.py:47-50 | Sets the slower rate and its end |
| `SharedBucket.RedisBucket.Run` | app/ratelimit.py:71-90 | The shared script: new stored pair, and a positive wait exactly if the tokens were missing, in which the slowed rate earns just those |
| `SharedBucket.ReadyIs` | app/ratelimit.py:71-90 | A new bucket is full; a clock ahead of the stored one earns at the slowed rate up to the capacity and is stored, another earns nothing and moves nothing |
| `SharedBucket.CallIs` | app/ratelimit.py:71-90 | What is then there is taken exactly if it is enough |
| `SharedBucket.RetrySucceeds` | app/ratelimit.py:71-90 | A refused caller whose clock is not behind the stored one is served after its wait, if nothing comes between |
| `SharedBucket.GrantedAcrossProcesses` | app/ratelimit.py:71-90 | Any number of processes with any clocks, even running backward, are granted together at most capacity plus rate times the advance of the stored time |
| `SharedBucket.StampIsACallersClock` | app/ratelimit.py:71-90 | The stored time is the first one or some caller's clock, and no caller's clock is ahead of it |
| `Breaker.WindowIsRecentSamples` | app/ratelimit.py:265-284 | In every run the window is the last `window` outcomes recorded outside half-open since the breaker last opened or closed |
| `Breaker.OpensExactlyOnRule` | app/ratelimit.py:265-284 | In every run a call recorded outside a trial opens the breaker, there and then, exactly if of the last `window` samples, this one included, there are at least `minSamples` and one at all, and the failed ones are more than `threshold` times as many; otherwise only the window changes |
| `Breaker.ReopensWhileOpen` | app/ratelimit.py:265-302 | A run in which a failure recorded while the breaker is open opens it again and doubles its window, from its end at 11 s to one at 22 s |
| `Breaker.EpisodeAdmitsAtMostProbes` | app/ratelimit.py:252-263 | In every half-open episode, admitted calls are counted right and are at most `probes` |
| `Breaker.EpisodeEndsAtLastProbe` | app/ratelimit.py:265-276 | An episode ends at exactly the `probes`-th result (the first, if `probes` is zero), closed or re-opened by the number of successes |
| `Breaker.OpenWindowBounds` | app/ratelimit.py:287-302 | Every open window lasts between the configured time and the configured maximum |
| `Breaker.NthOpenLasts` | app/ratelimit.py:287-302 | Until the first close, the n-th open lasts the base time doubled n - 1 times, capped |
| `Breaker.StartsOverOnTimeSinceClose` | app/ratelimit.py:287-302 | Escalation starts over exactly when the last close is further back than the recovery time (and not at clock zero) |
| `Breaker.StartsOverMeansHeldClosed` | app/ratelimit.py:197-201 | That agrees with the time held closed exactly unless the breaker re-opened within the recovery time and opens again after it |
| `Breaker.StartsOverWithoutRecovery` | app/ratelimit.py:287-302 | A run in which escalation starts over though the breaker held closed for a quarter of the recovery time |
| `Breaker.RemainingIsExact` | app/ratelimit.py:241-263 | The reported remaining time is when the open window ends, it is what a refused caller is told, and it is zero exactly when the breaker is not open |
| `Breaker.CircuitBreaker.Record` | app/ratelimit.py:265-284 | Records an outcome with the trimming and counting loops. Outside a trial: into the window, and it opens exactly by that rule. In a trial: kept until there are `probes` reports, which then close or re-open by the number of successes |
| `Breaker.CircuitBreaker.Check` | app/ratelimit.py:252-263 | Admits or refuses a call and counts half-open admissions, as `CheckIs` says in fields |
| `Breaker.LookIs` | app/ratelimit.py:228-234 | An open breaker becomes half-open, with nothing admitted or reported, exactly when its window has run out; nothing else changes |
| `Breaker.CheckIs` | app/ratelimit.py:252-263 | Closed admits, open refuses for what is left of the window, a trial admits its first `probes` calls and refuses the others for a second |
| `Breaker.RecordedIsJudged` | app/ratelimit.py:265-284 | What a recorded outcome does in each mode, by counts of failures and successes alone |
| `Breaker.CircuitBreaker.SecondsUntilClose` | app/ratelimit.py:241-250 | What is left of the open window, after the lapse to half-open is noticed |
| `Breaker.CircuitBreaker.Trip` | app/ratelimit.py:287-302 | Opens with the escalated window and clears the counts |
| `FetchGate.StepKeeps` | app/ratelimit.py:334-391 | Every step of the gate keeps permits, waiting lines and the dictionary consistent |
| `FetchGate.PermitsConserved` | app/ratelimit.py:334-391 | In every run of entries, failures at any await, exits and `release_domain`, with any limits: free plus held permits equal the limit, globally and per domain, and a domain without a semaphore has no task in it |
| `FetchGate.ReleaseNeverOverfills` | app/ratelimit.py:371-391 | Whoever leaves gives back the semaphore it took, and a permit is missing there |
| `FetchGate.EmptyGateIsWhole` | app/ratelimit.py:341-345 | When all tasks have left, every permit is back and every domain's semaphore can be dropped |
| `FetchGate.NobodyForgotten` | app/ratelimit.py:371-391 | In every run a free permit somebody waits for can be given to the first in line, who then holds it |
| `FetchGate.NobodyOvertakes` | app/ratelimit.py:371-391 | In every run nobody takes a permit at once while another task waits for one of the same kind |
| `FetchGate.ExitLetsNextIn` | app/ratelimit.py:371-391 | In every run a task that leaves gives its domain's permit to the first in line for it in the same step |
| `FetchGate.GateNeverStuck` | app/ratelimit.py:334-391 | With positive limits, in every run, while a task is in the gate some task can go on, without a failure or cancellation |
| `FetchGate.AwaitBreaker` | app/ratelimit.py:359-373 | Waiting on the breaker takes at most 30 s and 60 naps, ends at the first pass, and gives up only when the next nap would exceed the limit, after more than 22.5 s |
| `Select.Pick` | app/pipeline/discovery/score.py:187-207 | Dedupes, ranks and draws: the result is the greedy pick from the deduplicated candidates in rank order, and optimal in the sense below for the positive scores candidates have |
| `Select.BestIsFirstBest` | app/pipeline/discovery/score.py:191-195 | Each URL keeps its best-scored candidate, the earliest of equals |
| `Select.SelectionIsOptimal` | app/pipeline/discovery/score.py:197-207 | The pick has no page twice, keeps the limit and the cap of every tier, and no other choice of deduplicated candidates that does so scores more in total |
| `Select.SelectionIsOrderFree` | app/pipeline/discovery/score.py:187-207 | Every permutation of the candidates gives the same URLs, scores and tiers in the same order |
| `Select.SelectionTakes` | app/pipeline/discovery/score.py:197-207 | A deduplicated page is chosen exactly if fewer than `limit` chosen pages come before it and fewer than the cap of its tier; the chosen pages are in order |
| `Select.BeforeIs` | app/pipeline/discovery/score.py:197 | Pages come in the order of higher score, smaller depth, shorter URL, smaller first differing character |
| `Select.TierFor` | app/pipeline/discovery/score.py:147-157 | The matching tier with the highest score, if any matches |
| `Select.ScoreUrl` | app/pipeline/discovery/score.py:165-184 | No score exactly for excluded URLs and those matching neither tier nor anchor; otherwise a positive score of the tier, with the bonus exactly if the anchor matches |
| `Select.ScoreTellsTier` | app/pipeline/discovery/score.py:32-52 | Two tiers never share a score |
| `HtmlScan.IterBlocks` | app/pipeline/htmlscan.py:27-54 | Yields the scan's blocks; all its finds together move over no more characters than the text has plus twice what lowercasing adds |
| `HtmlScan.ScanLaysBlocks` | app/pipeline/htmlscan.py:27-54 | For any lowercased text, blocks come in order and within the text, each starting where the one before has ended or later |
| `HtmlScan.LaidApart` | app/pipeline/htmlscan.py:27-54 | Any two blocks of such a list are disjoint |
| `HtmlScan.ScanYieldsBlocks` | app/pipeline/htmlscan.py:27-54 | Each block runs from a bounded opening tag through its first `>`, over a body without a closing tag, to the `>` of the closing tag or the end of the text |
| `HtmlScan.ScanCovers` | app/pipeline/htmlscan.py:27-54 | For any lowercased text, every name-bounded opening tag it shows that is followed by a `>` starts a block or lies inside one |
| `HtmlScan.FindsTagsExactlyIf` | app/pipeline/htmlscan.py:27-54 | In every text every complete opening tag, in any case, starts a block or lies inside one, exactly if lowercasing makes no character longer |
| `HtmlScan.FindsTagBefore` | app/pipeline/htmlscan.py:27-54 | In any text a complete opening tag whose name ends before the first character that becomes longer starts a block or lies inside one |
| `HtmlScan.FindsTagsInPlace` | app/pipeline/htmlscan.py:27-54 | In a text without such a character all of them do |
| `HtmlScan.LongerHidesTag` | app/pipeline/htmlscan.py:29-47 | A character whose lowercase is longer, right before the only tag of a text, makes the scan find nothing |
| `HtmlScan.GapsAndBlocks` | app/pipeline/htmlscan.py:57-71 | Gaps and blocks concatenate back to the text: stripping that keeps every block is the identity |
| `HtmlScan.StripBlocks` | app/pipeline/htmlscan.py:57-71 | At each block's place, moved by what the blocks before it have shrunk, stands the block if it is kept and one space if not; every gap stands unchanged at its moved place; the length is that of the text less all but one character of each block not kept |
| `HtmlScan.StripReplaces` | app/pipeline/htmlscan.py:57-71 | The same of the specification, for any list of blocks in order |
| `HtmlScan.ReplacedOne` | app/pipeline/htmlscan.py:57-71 | With one block, not kept, the result is the text before it, a space and the text behind it |
| `HtmlScan.Bodies` | app/pipeline/htmlscan.py:74-75 | One body per block, cut from the text between the block's offsets; none holds a closing tag in any case, if lowercasing keeps the text's characters in place |
| `Sitemap.CollectSitemapUrls` | app/pipeline/discovery/__init__.py:40-79 | Terminates for any answers; fetches at most four different documents, all on the site, none deeper than two levels, each a seed or a child of an index that was read; returns what those documents list, cut at the cap; unless cap or budget stopped it, nothing listed was left unread |
| `Sitemap.PagesOnSite` | app/pipeline/discovery/__init__.py:73-79 | Every page returned is on the site and there are at most MAX_URLS |
| `Sitemap.PagesAre` | app/pipeline/discovery/__init__.py:66-79 | A page is collected exactly if it is on the site and a document read that is no index lists it |
| `Sitemap.ReturnsOffered` | app/pipeline/discovery/__init__.py:66-79 | Every page returned is one of these, and unless the cap is reached all of them are returned |
| `Sitemap.AllDocsAre` | app/pipeline/discovery/__init__.py:46-66 | The documents read are the texts given, at depth 0, and the answers fetched, at their depth, but for empty ones |
| `Sitemap.FilterInOrder` | app/pipeline/discovery/__init__.py:73-79 | What is kept of a list stays in order, each behind those kept before it |
| `Sitemap.ChildrenOnSite` | app/pipeline/discovery/sitemap.py:106-115 | At most three children are followed, each listed, on the site and not of an excluded kind |
| `Sitemap.PageLikeFirst` | app/pipeline/discovery/sitemap.py:110-115 | A wanted child is passed over only when three are followed, and a page-like one only for page-like ones |
| `Decision.BuildBody` | app/pipeline/typesafe.py:102-117 | The model is asked about the first ten different addresses by rank, each a candidate's |
| `Decision.AskedInOrder` | app/pipeline/typesafe.py:102-117 | An address is asked about, at its place, exactly if fewer than ten different ones are ranked before its first place |
| `Decision.Decide` | app/pipeline/typesafe.py:167-224 | Runs the decision block with its loops. It raises exactly for an answer of the wrong kind; otherwise the choice is taken, with its confidence and without review, exactly if it is one of the addresses and the numbers for confidence and, at its place, belonging reach their minima; none is said exactly if not so, the choice is `none` and the confidence reaches its minimum; else review is asked for and no confidence given; business addresses are those whose number reaches the minimum |
| `Decision.DecidedIsWarranted` | app/pipeline/typesafe.py:167-224 | The same of the specification, in the answers' own fields |
| `Decision.FallbackIs` | app/pipeline/typesafe.py:212-224 | When review is asked for, the address is the top-ranked one unless its number is below the minimum; then the first asked about whose number is not, or none exactly if there is none |
| `Decision.RulesOnlyIs` | app/pipeline/typesafe.py:89-99 | Without the model: the top-ranked address, no confidence, no review, and as business addresses those of rank 1 or 2 |
| `Decision.DecideIsSoundUnlessNaN` | app/pipeline/typesafe.py:167-224 | For any answers, the choice is none or an address scored as belonging and in the business list, exactly unless the rules' fallback was used and the first score is not a number |
| `Decision.NaNIsLetThrough` | app/pipeline/typesafe.py:214-217 | A score that is not a number lets through an address nobody judged as belonging |
| `Decision.JudgeNamesCandidates` | app/pipeline/typesafe.py:232-246 | A judgment names no address that is not a candidate; one picked by rules has no confidence |
| `Decision.Provenance` | app/pipeline/run.py:351-364 | Keeps exactly the candidates with a source among the fetched pages, each behind those kept before it |
| `Decision.HarvestIsBacked` | app/pipeline/run.py:375-449 | Whatever the judgment, the reported address is none or a candidate with a fetched source; `found` exactly when there is one; never `no_business_email` beside a business address |
| `Decision.HarvestIs` | app/pipeline/run.py:375-449 | Which address, source, confidence and status are reported for any judgment, field by field: `found` beside an address, else parked before denied before form before nothing |
| `Decision.DecisionChain` | app/pipeline/run.py:367-449 | From candidates to report for any readable answers or a failed call: the address is backed by a fetched page; `found` means there is one; one is credited to the model exactly if the model was asked and its choice is an address with enough confidence and belonging, and then it is that choice; review is asked for exactly if results are partial or the model was asked and neither chose so nor said none; without the model the top-ranked address is reported |
| `Decision.JudgedAddressBelongs` | app/pipeline/run.py:375-449 | When the model was asked and its first score is a number, the reported address belongs and is in the business list |
| `Caches.UniqueDomains` | app/jobs.py:95-102 | Every domain once, each behind those first named before it |
| `Caches.NumberRows` | app/jobs.py:270-287 | Chunks of at most 1,000 rows carry numbers that run through the whole list |
| `Caches.StreamRows` | app/jobs.py:354-396 | One output per row in order, equal to parsing each row afresh: the stored result of a done row if it can be read, else the reason of an invalid row under its label, else nothing and whether it is being retried; the cache holds exactly the domains used last and never more than its cap between rows |
| `Caches.RecentInOrder` | app/jobs.py:366-385 | Of two domains in the cache's order the later one was used after the last use of the earlier |
| `Caches.RecentAre` | app/jobs.py:366-385 | That order has exactly the domains of done rows with a stored result |
| `Caches.Scratch.ExtractAll` | app/pipeline/run.py:325-331 | The memo keyed by page count returns what extracting the current pages would |
| `Caches.Scratch.AddPage` | app/pipeline/run.py:282-319 | Pages only grow, so a memo stays right for the pages it was made from |
| `Caches.Scratch.Land` | app/pipeline/run.py:250-251 | Sets the final domain while nothing is extracted yet |
| `Caches.Attempt` | app/pipeline/run.py:250-331 | Landing, adding pages, extracting, adding more pages and extracting twice more gives each time what extracting the pages so far would |

## Left out

- HTTP, DNS, the database driver, Redis connections and asyncio scheduling: foreign code; their answers are arbitrary inputs.
- A job without domains is over at once; its finish time is taken as the start of its transaction, where the code asks the application's clock.
- Rows a claim skips because another transaction has them locked, and its list of five jobs going stale: the protocol lets a claim take any available row of any job instead, which covers both.
- Display columns (`stage`, `needs_review` flags, token counts), webhooks, idempotent uploads and the active-job limit.
- `Queue.Store.PauseActiveJobs`: does not model the retry with a newly saved provider key before pausing.
- The shared bucket's key expiry and its fallback to the local bucket when Redis is away: after either, the bound holds per stored bucket only.
- Floating-point rounding, and the overflow of the doubled open window after a thousand opens in a row: arithmetic is over reals.
- The breaker's failure reasons: only logged.
- Liveness of half-open: an admitted probe that never reports leaves the breaker half-open, as in the code.
- The gate is modelled on values, not as a class, because interleaving is the point.
- `HtmlScan.ScanCovers`: takes a tag name without `<`, as all callers have. Lowercasing works character by character; the one rule of Unicode that looks at neighbours, for a final sigma, does not change lengths.
- Canonical URLs, exclusions, tokens and anchors in page scoring: text functions of libraries; their results are inputs.
- Extraction, ranking and merging of candidates, phones, socials and forms: regular expressions and libraries not shown.
- `Caches.Scratch.Land`: requires, as the pipeline does, that the final domain is set before the first extraction.
