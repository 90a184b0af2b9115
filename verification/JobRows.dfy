/** Rows of the job queue and what each transaction of `internal/jobs` does to
    them, as functions on a database snapshot. The methods of `JobQueue.Service`
    are proved against these functions; `JobRuns` proves what whole runs keep. */
module JobRows {
  import opened Prelude

  type Time = int // seconds since the Unix epoch

  /** Rows are numbered in the order `ORDER BY created_at, id` lists them. */
  type JobId = nat
  type AgentId = nat
  type DeviceId = nat
  type DeploymentId = nat
  type SignedId = nat // a signed_artifacts row

  /** An original artifact's UUID; `head` is its first eight characters, the
      part a refresh-sign key keeps. */
  datatype ArtifactId = ArtifactId(head: nat, tail: nat)

  const NIL_AGENT: AgentId := 0
  const DEFAULT_MAX_ATTEMPTS := 5
  const BACKOFF_SECONDS := 30
  const MAX_BACKOFF_SECONDS := 300
  const PROFILE_VALIDITY := 7 * 24 * 3600

  datatype JobState = Pending | Claimed | InProgress | Completed | Failed | Dead

  datatype JobType =
    | Install | Verify | Refresh | Sign | Uninstall | Inventory
    | ExportP12 | AppIDs | LiveContainerPush | InstalledApps
    | OtherType(name: string)

  datatype Category =
    | Auth | Certificate | Provisioning | Entitlement | UnsupportedJobType
    | OtherCategory(name: string)

  predicate TerminalCategory(c: Category) { !c.OtherCategory? }

  datatype DeadReason = TerminalError(category: Category) | MaxAttempts

  /** The idempotency keys the code builds, and any other text. */
  datatype Key =
    | CycleKey(deployment: DeploymentId, dueDay: int, expiryDay: int)
    | GuardKey(guarded: DeploymentId, guardDay: int)
    | RefreshSignKey(refresh: JobId, sourceHead: nat)
    | RefreshInstallKey(parentRefresh: JobId, signed: SignedId)
    | ExportKey(account: string)
    | PlainKey(text: string)

  /** The members of a job's JSON parameters that the queue's own code reads. */
  datatype Params = Params(
    deployment: Option<DeploymentId>,
    source: Option<ArtifactId>,
    refreshJob: Option<JobId>,
    signedArtifact: Option<SignedId>)

  /** A job result: absent, not JSON, or the members read from it. */
  datatype JobResult =
    | NoResult
    | Malformed
    | Reported(profileExpiry: Option<Time>, signedArtifact: Option<SignedId>, installJob: Option<JobId>)

  datatype Job = Job(
    jobType: JobType,
    device: Option<DeviceId>,
    state: JobState,
    attempt: nat,
    maxAttempts: int,
    claimedBy: Option<AgentId>,
    lease: Option<Time>,
    retryAt: Option<Time>,
    category: Option<Category>,
    deadReason: Option<DeadReason>,
    requiresAttention: bool,
    params: Params,
    result: JobResult,
    key: Key,
    parent: Option<JobId>)

  datatype RefreshOutcome = Never | RefreshOk | RefreshFailed | Attention

  datatype Deployment = Deployment(
    device: DeviceId,
    nextDue: Option<Time>,
    outcome: RefreshOutcome,
    rollback: Option<SignedId>)

  datatype Installation = Installation(
    expiry: Option<Time>,
    signed: Option<SignedId>,
    installJob: Option<JobId>)

  /** The tables the transactions below touch. `keys` is the unique index on
      idempotency_key. */
  datatype Db = Db(
    jobs: map<JobId, Job>,
    keys: map<Key, JobId>,
    nextId: JobId,
    deployments: map<DeploymentId, Deployment>,
    records: map<DeploymentId, Installation>)

  datatype Config = Config(lease: nat, refreshLead: int)

  /** A status a client may send: any text; only the six known ones parse. */
  datatype RequestedState = Known(state: JobState) | Unrecognised(text: string)

  datatype UpdateRequest = UpdateRequest(
    state: RequestedState,
    category: Option<Category>,
    hasDetails: bool, // error_details is present; its text is left out
    result: JobResult)

  datatype Error =
    | MissingType | MissingKey | MissingDevice
    | NotFound | NotClaimed | InvalidTransition | AlreadyActive
    | DuplicateColumn | MissingDeployment | InvalidResult

  // ---------------------------------------------------------------- one row

  predicate Active(j: Job) { j.state == Claimed || j.state == InProgress }

  function EffectiveMax(j: Job): (m: int)
    ensures m > 0
  {
    if j.maxAttempts <= 0 then DEFAULT_MAX_ATTEMPTS else j.maxAttempts
  }

  predicate Due(j: Job, now: Time) { j.retryAt.None? || j.retryAt.value <= now }

  /** A freshly inserted row. */
  function NewRow(jobType: JobType, device: Option<DeviceId>, params: Params, key: Key,
                  retryAt: Option<Time>, maxAttempts: int, parent: Option<JobId>): Job
  {
    Job(jobType, device, Pending, 0, maxAttempts, None, None, retryAt, None, None, false,
        params, NoResult, key, parent)
  }

  /** The UPDATE both claim paths run. */
  function Grant(j: Job, agent: AgentId, now: Time, cfg: Config): Job {
    j.(state := Claimed, claimedBy := Some(agent), attempt := j.attempt + 1,
       lease := Some(now + cfg.lease), retryAt := None)
  }

  predicate ValidTransition(from: JobState, to: RequestedState) {
    match to
    case Known(InProgress) => from == Claimed || from == InProgress
    case Known(Completed) => from == Claimed || from == InProgress
    case Known(Failed) => from == Claimed || from == InProgress
    case _ => false
  }

  /** The row after an accepted status update. */
  function Applied(j: Job, req: UpdateRequest, now: Time, cfg: Config): Job
    requires req.state.Known?
  {
    var s := req.state.state;
    j.(state := s,
       lease := if s == InProgress then Some(now + cfg.lease) else None,
       category := if s == Completed then None
                   else if req.category.Some? then req.category
                   else j.category,
       result := if req.result == NoResult then j.result else req.result)
  }

  /** A 64-bit signed left shift by one. */
  function Double64(x: int): (r: int)
    ensures -0x8000_0000_0000_0000 <= r < 0x8000_0000_0000_0000
  {
    var w := (2 * x) % 0x1_0000_0000_0000_0000;
    if w >= 0x8000_0000_0000_0000 then w - 0x1_0000_0000_0000_0000 else w
  }

  /** `x << k` on 64-bit signed integers. */
  function Shl64(x: int, k: nat): int
    decreases k
  {
    if k == 0 then x else Double64(Shl64(x, k - 1))
  }

  function MinBackoff(attempt: nat): int
    requires attempt >= 1
  {
    var backoff := Shl64(BACKOFF_SECONDS, attempt - 1);
    if backoff > MAX_BACKOFF_SECONDS then MAX_BACKOFF_SECONDS else backoff
  }

  function RetryDelay(attempt: nat): int {
    if attempt > 1 then MinBackoff(attempt) else BACKOFF_SECONDS
  }

  /** The reaper's WHERE clause. */
  predicate Reapable(j: Job, now: Time) {
    || (Active(j) && j.lease.Some? && j.lease.value < now)
    || (j.state == Failed && (j.jobType == Refresh || j.jobType == Sign))
  }

  /** The death the reaper has decided on, if any. */
  function Verdict(j: Job): Option<DeadReason> {
    if j.state == Failed && j.category.Some? && TerminalCategory(j.category.value)
    then Some(TerminalError(j.category.value))
    else if j.attempt >= EffectiveMax(j) then Some(MaxAttempts)
    else None
  }

  function Killed(j: Job, why: DeadReason): Job {
    j.(state := Dead, claimedBy := None, lease := None, retryAt := None,
       requiresAttention := true, deadReason := Some(why))
  }

  function Requeued(j: Job, now: Time): Job {
    j.(state := Pending, claimedBy := None, lease := None, retryAt := Some(now + RetryDelay(j.attempt)))
  }

  function Reaped(j: Job, now: Time): Job {
    var v := Verdict(j);
    if v.Some? then Killed(j, v.value) else Requeued(j, now)
  }

  // ------------------------------------------------------- the whole database

  /** Create and CreateRefresh: insert, or find the row already holding the key. */
  function Insert(db: Db, row: Job): (Db, JobId) {
    if row.key in db.keys then (db, db.keys[row.key])
    else (db.(jobs := db.jobs[db.nextId := row], keys := db.keys[row.key := db.nextId], nextId := db.nextId + 1),
          db.nextId)
  }

  function GrantAll(db: Db, ids: set<JobId>, agent: AgentId, now: Time, cfg: Config): Db {
    db.(jobs := map id | id in db.jobs :: if id in ids then Grant(db.jobs[id], agent, now, cfg) else db.jobs[id])
  }

  /** ClaimSpecific, run as one step: completed and own active rows are handed
      back as they are, failed and dead ones requeued and granted. */
  function ClaimOne(db: Db, agent: AgentId, id: JobId, now: Time, cfg: Config): (Db, Result<Job, Error>) {
    if id !in db.jobs then (db, Err(NotFound))
    else
      var j := db.jobs[id];
      match j.state
      case Completed => (db, Ok(j))
      case Claimed | InProgress => if j.claimedBy == Some(agent) then (db, Ok(j)) else (db, Err(AlreadyActive))
      case Failed | Dead | Pending =>
        var g := Grant(j, agent, now, cfg);
        (db.(jobs := db.jobs[id := g]), Ok(g))
  }

  /** What a completed or failed refresh writes to its deployment, in the same
      transaction as the job row. */
  function RefreshOutcomeWrites(db: Db, j: Job, req: UpdateRequest, now: Time, cfg: Config): Result<Db, Error> {
    if j.jobType != Refresh || (j.state != Completed && j.state != Failed) then Ok(db)
    else if j.params.deployment.None? then Err(MissingDeployment)
    else
      var d := j.params.deployment.value;
      if j.state == Failed then
        Ok(if d in db.deployments
           then db.(deployments := db.deployments[d := db.deployments[d].(outcome := RefreshFailed)])
           else db)
      else if req.result == Malformed then Err(InvalidResult)
      else
        var expiry := if req.result.Reported? && req.result.profileExpiry.Some? then req.result.profileExpiry.value
                      else now + PROFILE_VALIDITY;
        var signed := if req.result.Reported? then req.result.signedArtifact else None;
        var install := if req.result.Reported? then req.result.installJob else None;
        Ok(Recorded(db, d, expiry, signed, install, cfg))
  }

  /** The deployment and installation rows after a completed refresh. */
  function Recorded(db: Db, d: DeploymentId, expiry: Time, signed: Option<SignedId>, install: Option<JobId>,
                    cfg: Config): Db {
    var previous := if d in db.records then db.records[d].signed else None;
    var deployments :=
      if d !in db.deployments then db.deployments
      else
        var dep := db.deployments[d].(nextDue := Some(expiry - cfg.refreshLead), outcome := RefreshOk);
        db.deployments[d := if signed.Some? && previous.Some?
            && previous != signed then dep.(rollback := previous) else dep];
    var records :=
      if d !in db.records then db.records
      else if signed.Some? then db.records[d := Installation(Some(expiry), signed, install)]
      else db.records[d := db.records[d].(expiry := Some(expiry))];
    db.(deployments := deployments, records := records)
  }

  /** Why Update would refuse this row, if it would. A completion that also
      carries an error category or error details assigns that column twice, which
      PostgreSQL rejects. */
  function RowRefusal(j: Job, agent: AgentId, req: UpdateRequest): Option<Error> {
    if j.claimedBy != Some(agent) then Some(NotClaimed)
    else if !ValidTransition(j.state, req.state) then Some(InvalidTransition)
    else if req.state == Known(Completed) && (req.category.Some? || req.hasDetails) then Some(DuplicateColumn)
    else if j.jobType != Refresh || req.state == Known(InProgress) then None
    else if j.params.deployment.None? then Some(MissingDeployment)
    else if req.state == Known(Completed) && req.result == Malformed then Some(InvalidResult)
    else None
  }

  function Refusal(db: Db, agent: AgentId, id: JobId, req: UpdateRequest): Option<Error> {
    if id in db.jobs then RowRefusal(db.jobs[id], agent, req) else Some(NotFound)
  }

  /** Update: a refused request rolls the whole transaction back. */
  function Updated(db: Db, agent: AgentId, id: JobId, req: UpdateRequest, now: Time, cfg: Config): Db {
    if Refusal(db, agent, id, req).Some? then db
    else
      var j := Applied(db.jobs[id], req, now, cfg);
      var w := RefreshOutcomeWrites(db.(jobs := db.jobs[id := j]), j, req, now, cfg);
      if w.Ok? then w.value else db
  }

  /** Reap: every reapable row that no other transaction has locked. */
  function ReapAll(db: Db, locked: set<JobId>, now: Time): Db {
    db.(jobs := map id | id in db.jobs ::
          if id !in locked && Reapable(db.jobs[id], now) then Reaped(db.jobs[id], now) else db.jobs[id])
  }

  /** Deleting a row clears the parent link of its children. */
  function WithoutRow(db: Db, id: JobId): Db
    requires id in db.jobs
  {
    db.(jobs := map i | i in db.jobs && i != id ::
          if db.jobs[i].parent == Some(id) then db.jobs[i].(parent := None) else db.jobs[i],
        keys := map k | k in db.keys && k != db.jobs[id].key :: db.keys[k])
  }

  /** releaseDeadCycle: delete the row holding `key` if it is dead. */
  function Released(db: Db, key: Key): Db {
    if key in db.keys && db.keys[key] in db.jobs && db.jobs[db.keys[key]].state == Dead
        && db.jobs[db.keys[key]].key == key
    then WithoutRow(db, db.keys[key])
    else db
  }

  /** awaitExportP12: delete the row holding `key`, whatever its state. */
  function Purged(db: Db, key: Key): Db {
    if key in db.keys && db.keys[key] in db.jobs
        && db.jobs[db.keys[key]].key == key then WithoutRow(db, db.keys[key]) else db
  }

  // ------------------------------------------------------------- invariants

  /** Which nullable columns go with which state. */
  predicate Shaped(j: Job) {
    match j.state
    case Pending => j.claimedBy.None? && j.lease.None?
    case Claimed => j.claimedBy.Some? && j.lease.Some? && j.retryAt.None? && j.attempt >= 1
    case InProgress => j.claimedBy.Some? && j.lease.Some? && j.retryAt.None? && j.attempt >= 1
    case Completed => j.claimedBy.Some? && j.lease.None? && j.retryAt.None? && j.attempt >= 1 && j.category.None?
    case Failed => j.claimedBy.Some? && j.lease.None? && j.retryAt.None? && j.attempt >= 1
    case Dead => j.claimedBy.None? && j.lease.None? && j.retryAt.None? && j.attempt >= 1
                 && j.deadReason.Some? && j.requiresAttention
  }

  /** The unique index and the id sequence agree with the rows, and every row is shaped. */
  ghost predicate WellFormed(db: Db) {
    && (forall id :: id in db.jobs ==> id < db.nextId && db.jobs[id].key in db.keys && db.keys[db.jobs[id].key] == id)
    && (forall k :: k in db.keys ==> db.keys[k] in db.jobs && db.jobs[db.keys[k]].key == k)
    && (forall id :: id in db.jobs ==> Shaped(db.jobs[id]))
  }
}
