/** The three Postgres tables behind the work queue, and the values stored in them. */
module Tables {

  datatype Option<+T> = None | Some(value: T)

  type Time = real
  datatype JobId = JobId(uuid: int)
  type Worker = int

  const LEASE_S: Time := 90.0
  const LOCK_BUSY_DELAY_S: Time := 10.0
  const ERROR_RETRY_DELAY_S: Time := 30.0
  const RETRY_PASS_DELAY_S: Time := 600.0
  const CACHE_S: Time := 7776000.0  // CACHE_DAYS = 90
  const MAX_DOMAIN_ATTEMPTS := 3
  const MAX_CLAIMS := MAX_DOMAIN_ATTEMPTS + 2

  /** Identifies one claim, never reused: the worker's id and a nonce. */
  datatype Token = Token(worker: Worker, nonce: int)

  datatype ResultStatus =
    | InvalidInput | FetchFailed | ParkedOrForSale | NoBusinessEmail | Found | FormOnly | NoContactInfo

  datatype ErrorReason =
    | Homepage | Dns | CircuitOpen | DomainTimeout | InternalError | PrivateAddress | OtherReason(reason: string)

  datatype SiteStatus = TooManyAttempts | OtherSite(text: string)

  datatype DomainResult = DomainResult(
    status: ResultStatus,
    errorReason: Option<ErrorReason>,
    siteStatus: Option<SiteStatus>,
    jinaTokens: nat,
    payload: string)

  datatype JobStatus = Queued | Running | Paused | Done | Cancelled

  datatype Job = Job(
    status: JobStatus,
    createdAt: Time,
    startedAt: Option<Time>,
    finishedAt: Option<Time>,
    pausedAt: Option<Time>,
    pausedSeconds: Time,
    pauseReason: Option<string>,
    isFresh: bool,
    owner: Option<int>,
    doneCount: nat)

  datatype RowState = RowQueued | RowRunning | RowDone

  datatype RowKey = RowKey(job: JobId, domain: string)

  datatype Row = Row(
    seqNo: nat,
    state: RowState,
    attempts: int,
    availableAt: Time,
    claimedBy: Option<Token>,
    heartbeatAt: Option<Time>,
    finishedAt: Option<Time>,
    fromCache: bool,
    jinaTokens: nat,
    result: Option<DomainResult>,
    requeuedAt: Option<Time>)

  /** One row of `domains`: the shared cache entry and the lease lock. */
  datatype Domain = Domain(
    finishedAt: Option<Time>,
    result: Option<DomainResult>,
    lockOwner: Option<Token>,
    lockUntil: Option<Time>)

  datatype Db = Db(jobs: map<JobId, Job>, rows: map<RowKey, Row>, domains: map<string, Domain>)

  /** What `claim` hands to the handler of one row. */
  datatype Claim = Claim(key: RowKey, attempts: int, token: Token, notBefore: Option<Time>)

  function Max(a: Time, b: Time): Time {
    if a >= b then a else b
  }

  function Min(a: real, b: real): real {
    if a <= b then a else b
  }

  function Coalesce(a: Option<Time>, b: Time): Time {
    if a.Some? then a.value else b
  }
}
