/** The two endpoints of `internal/api/device_refresh.go` a refresh is driven
    through, and the install child a signed upload enqueues
    (`internal/api/signing.go`). */
module DeviceRefresh {
  import opened Prelude
  import opened JobRows
  import opened JobQueue

  /** The other tables loadRefreshContext reads: originals and which of them are
      approved, devices rows, what resolveUpdateArtifact answers per deployment, and
      whether an Apple account resolves. */
  datatype Env = Env(
    originals: set<ArtifactId>,
    approved: set<ArtifactId>,
    devices: set<DeviceId>,
    updates: map<DeploymentId, ArtifactId>,
    accountResolves: bool)

  datatype Context = Context(device: DeviceId, deployment: Option<DeploymentId>, source: ArtifactId,
      updateFrom: Option<ArtifactId>)

  datatype ApiError =
    | RefreshNotFound | NotARefresh | NoDevice | NotActive | NotAnOriginal | NotApproved | DeviceNotFound | NoAccount
    | NoSignJob | SignNotCompleted | NoSignedArtifact | SignedArtifactNotFound
    | ClaimFailed(install: JobId, why: Error)

  datatype SignReply = SignReply(signJob: JobId, updateAttempted: bool)

  /** loadRefreshContext. */
  function LoadContext(db: Db, r: JobId, env: Env): Result<Context, ApiError> {
    if r !in db.jobs then Err(RefreshNotFound)
    else
      var j := db.jobs[r];
      if j.jobType != Refresh then Err(NotARefresh)
      else if j.device.None? then Err(NoDevice)
      else if !Active(j) then Err(NotActive)
      else if j.params.source.None? then Err(NotAnOriginal)
      else
        var original := j.params.source.value;
        var update := if j.params.deployment.Some? && j.params.deployment.value in env.updates
                      then Some(env.updates[j.params.deployment.value]) else None;
        var source := if update.Some? then update.value else original;
        if source !in env.originals then Err(NotAnOriginal)
        else if source !in env.approved then Err(NotApproved)
        else if j.device.value !in env.devices then Err(DeviceNotFound)
        else if !env.accountResolves then Err(NoAccount)
        else Ok(Context(j.device.value, j.params.deployment, source, if update.Some? then Some(original) else None))
  }

  /** The sign child a refresh asks for. */
  function SignRow(r: JobId, rc: Context, fallback: bool): Job {
    var source := if fallback && rc.updateFrom.Some? then rc.updateFrom.value else rc.source;
    NewRow(Sign, Some(rc.device), Params(rc.deployment, Some(source), Some(r), None),
           RefreshSignKey(r, source.head), None, DEFAULT_MAX_ATTEMPTS, Some(r))
  }

  /** handleDeviceRefreshSign. */
  function SignChild(db: Db, r: JobId, env: Env, fallback: bool): (Db, Result<SignReply, ApiError>) {
    match LoadContext(db, r, env)
    case Err(e) => (db, Err(e))
    case Ok(rc) =>
      var (db', id) := Insert(db, SignRow(r, rc, fallback));
      (db', Ok(SignReply(id, rc.updateFrom.Some? && !fallback)))
  }

  function SignChildren(db: Db, r: JobId): set<JobId> {
    set id | id in db.jobs && db.jobs[id].jobType == Sign && db.jobs[id].parent == Some(r)
  }

  /** ORDER BY created_at DESC LIMIT 1. */
  function NewestSign(db: Db, r: JobId): (id: JobId)
    requires SignChildren(db, r) != {}
    ensures id in SignChildren(db, r) && forall x :: x in SignChildren(db, r) ==> x <= id
  {
    Greatest(SignChildren(db, r))
  }

  /** The install child of a refresh for one signed artifact. */
  function InstallRow(r: JobId, device: DeviceId, deployment: Option<DeploymentId>, g: SignedId,
                      maxAttempts: int): Job {
    NewRow(Install, Some(device), Params(deployment, None, Some(r), Some(g)),
           RefreshInstallKey(r, g), None, maxAttempts, Some(r))
  }

  /** The signed artifact ensure-install settles on: the newest sign child's. */
  function ResolveSigned(db: Db, r: JobId, env: Env, signed: set<SignedId>): Result<(Context, SignedId), ApiError> {
    match LoadContext(db, r, env)
    case Err(e) => Err(e)
    case Ok(rc) =>
      if SignChildren(db, r) == {} then Err(NoSignJob)
      else
        var s := db.jobs[NewestSign(db, r)];
        if s.state != Completed then Err(SignNotCompleted)
        else if !s.result.Reported? || s.result.signedArtifact.None? then Err(NoSignedArtifact)
        else if s.result.signedArtifact.value !in signed then Err(SignedArtifactNotFound)
        else Ok((rc, s.result.signedArtifact.value))
  }

  /** handleDeviceEnsureInstall: the insert stands even when the claim fails. */
  function InstallChild(db: Db, r: JobId, env: Env, signed: set<SignedId>, agent: AgentId, now: Time, cfg: Config)
    : (Db, Result<(JobId, Job), ApiError>)
  {
    match ResolveSigned(db, r, env, signed)
    case Err(e) => (db, Err(e))
    case Ok((rc, g)) =>
      var (db1, id) := Insert(db, InstallRow(r, rc.device, rc.deployment, g, DEFAULT_MAX_ATTEMPTS));
      var (db2, claimed) := ClaimOne(db1, agent, id, now, cfg);
      (db2, match claimed case Ok(j) => Ok((id, j)) case Err(e) => Err(ClaimFailed(id, e)))
  }

  // --------------------------------------- what they answer, refuse and leave

  /** The update the refresh's deployment may take, if there is one. */
  function UpdateFor(j: Job, env: Env): Option<ArtifactId> {
    if j.params.deployment.Some? && j.params.deployment.value in env.updates
    then Some(env.updates[j.params.deployment.value]) else None
  }

  /** The artifact the refresh settles on: the update, else its own source. */
  function FinalSource(j: Job, env: Env): Option<ArtifactId> {
    if j.params.source.Some? && UpdateFor(j, env).Some? then UpdateFor(j, env) else j.params.source
  }

  /** What both endpoints demand. */
  predicate MayProceed(db: Db, r: JobId, env: Env) {
    && r in db.jobs && db.jobs[r].jobType == Refresh && db.jobs[r].device.Some?
    && (db.jobs[r].state == Claimed || db.jobs[r].state == InProgress)
    && FinalSource(db.jobs[r], env).Some?
    && FinalSource(db.jobs[r], env).value in env.originals && FinalSource(db.jobs[r], env).value in env.approved
    && db.jobs[r].device.value in env.devices && env.accountResolves
  }

  /** The answer of a call that is refused: the first demand that is not met. */
  function FirstError(db: Db, r: JobId, env: Env): ApiError
    requires !MayProceed(db, r, env)
  {
    if r !in db.jobs then RefreshNotFound
    else if db.jobs[r].jobType != Refresh then NotARefresh
    else if db.jobs[r].device == None then NoDevice
    else if db.jobs[r].state != Claimed && db.jobs[r].state != InProgress then NotActive
    else if FinalSource(db.jobs[r], env) == None
        || FinalSource(db.jobs[r], env).value !in env.originals then NotAnOriginal
    else if FinalSource(db.jobs[r], env).value !in env.approved then NotApproved
    else if db.jobs[r].device.value !in env.devices then DeviceNotFound
    else NoAccount
  }

  /** The original artifact, when the caller asks to fall back to it and an update
      would have been taken; else the artifact settled on. */
  function ToSign(j: Job, env: Env, fallback: bool): ArtifactId
    requires FinalSource(j, env).Some?
  {
    if fallback then j.params.source.value else FinalSource(j, env).value
  }

  /** The sign request is answered exactly when the demands are met, and then with
      the sign job under the key of refresh and source, found or newly queued with
      five attempts as the refresh's child; else with the first error and nothing
      changed. */
  lemma SignRequestMeans(db: Db, r: JobId, env: Env, fallback: bool)
    ensures var (after, reply) := SignChild(db, r, env, fallback);
            && (reply.Ok? <==> MayProceed(db, r, env))
            && (!MayProceed(db, r, env) ==> after == db && reply == Err(FirstError(db, r, env)))
            && (MayProceed(db, r, env) ==>
                  var source := ToSign(db.jobs[r], env, fallback);
                  var key := RefreshSignKey(r, source.head);
                  && reply.value.updateAttempted == (UpdateFor(db.jobs[r], env).Some? && !fallback)
                  && if key in db.keys then after == db && reply.value.signJob == db.keys[key]
                     else
                       && reply.value.signJob == db.nextId
                       && after == db.(nextId := db.nextId + 1, keys := db.keys[key := db.nextId],
                                       jobs := db.jobs[db.nextId := after.jobs[db.nextId]])
                       && after.jobs[db.nextId]
                           == Job(Sign, db.jobs[r].device, Pending, 0, 5, None, None, None, None, None,
                            false, Params(db.jobs[r].params.deployment, Some(source), Some(r), None), NoResult, key,
                                Some(r)))
  {
  }

  /** A sign job newly queued is for an approved artifact, unless it falls back to an
      original that is not approved itself: only the update was checked then. */
  lemma QueuedSourceApproved(db: Db, r: JobId, env: Env, fallback: bool)
    requires MayProceed(db, r, env) && db.nextId !in db.jobs
    requires db.nextId in SignChild(db, r, env, fallback).0.jobs
    ensures var source := SignChild(db, r, env, fallback).0.jobs[db.nextId].params.source;
            source.Some? && (source.value in env.approved <==>
              !(fallback && UpdateFor(db.jobs[r], env).Some?) || db.jobs[r].params.source.value in env.approved)
  {
    hide LoadContext, SignRow, Insert;
    SignRequestMeans(db, r, env, fallback);
  }

  const RUNNING := Job(Refresh, Some(0), InProgress, 1, 15, Some(1), Some(100), None, None, None, false,
                       Params(Some(0), Some(ArtifactId(1, 0)), None, None), NoResult, PlainKey("a"), None)
  const TABLES := Db(map[0 := RUNNING], map[PlainKey("a") := 0], 1, map[], map[])
  const QUARANTINED := Env({ArtifactId(1, 0), ArtifactId(2, 0)}, {ArtifactId(2, 0)}, {0}, map[0 := ArtifactId(2, 0)],
      true)

  /** Such a fallback: the original is in quarantine, the update is approved, and the
      original gets a sign job. */
  lemma FallbackSignsUnapproved()
    ensures var (after, reply) := SignChild(TABLES, 0, QUARANTINED, true);
            && reply == Ok(SignReply(1, false)) && 1 in after.jobs
                && after.jobs[1].params.source == Some(ArtifactId(1, 0))
            && ArtifactId(1, 0) !in QUARANTINED.approved
  {
    SignRequestMeans(TABLES, 0, QUARANTINED, true);
  }

  /** The refresh's sign children. */
  predicate IsSignChild(db: Db, r: JobId, s: JobId) {
    s in db.jobs && db.jobs[s].jobType == Sign && db.jobs[s].parent == Some(r)
  }

  /** s is the newest sign child, and completed with artifact g, which is still there. */
  predicate Delivers(db: Db, r: JobId, s: JobId, g: SignedId, signed: set<SignedId>) {
    && IsSignChild(db, r, s) && (forall x :: x in db.jobs && IsSignChild(db, r, x) ==> x <= s)
    && db.jobs[s].state == Completed && db.jobs[s].result.Reported? && db.jobs[s].result.signedArtifact == Some(g)
    && g in signed
  }

  /** The install job under this key is in another agent's hands. */
  predicate Taken(db: Db, key: Key, agent: AgentId) {
    && key in db.keys && db.keys[key] in db.jobs
    && (db.jobs[db.keys[key]].state == Claimed || db.jobs[db.keys[key]].state == InProgress)
    && db.jobs[db.keys[key]].claimedBy != Some(agent)
  }

  lemma NewestIs(db: Db, r: JobId)
    requires SignChildren(db, r) != {}
    ensures IsSignChild(db, r, NewestSign(db, r))
    ensures forall x :: x in db.jobs && IsSignChild(db, r, x) ==> x <= NewestSign(db, r)
  {
    assert forall x :: x in db.jobs && IsSignChild(db, r, x) ==> x in SignChildren(db, r);
  }

  /** The artifact ensure-install goes by, or what keeps it from having one. */
  lemma ResolveMeans(db: Db, r: JobId, env: Env, signed: set<SignedId>)
    ensures !MayProceed(db, r, env) ==> ResolveSigned(db, r, env, signed) == Err(FirstError(db, r, env))
    ensures ResolveSigned(db, r, env, signed).Ok?
        <==> MayProceed(db, r, env) && exists s, g :: Delivers(db, r, s, g, signed)
    ensures ResolveSigned(db, r, env, signed).Ok? ==>
      var (rc, g) := ResolveSigned(db, r, env, signed).value;
      && rc.device == db.jobs[r].device.value && rc.deployment == db.jobs[r].params.deployment
      && (exists s :: Delivers(db, r, s, g, signed)) && forall s, h :: Delivers(db, r, s, h, signed) ==> h == g
    ensures MayProceed(db, r, env) ==>
      (ResolveSigned(db, r, env, signed) == Err(NoSignJob) <==> forall x :: x in db.jobs ==> !IsSignChild(db, r, x))
    ensures ResolveSigned(db, r, env, signed) == Err(SignNotCompleted) ==>
      exists x :: x in db.jobs && IsSignChild(db, r, x) && db.jobs[x].state != Completed
  {
    hide LoadContext;
    ContextMeans(db, r, env);
    if SignChildren(db, r) == {} {
      forall x | x in db.jobs ensures !IsSignChild(db, r, x) { assert x !in SignChildren(db, r); }
    } else {
      NewestIs(db, r);
      var s := NewestSign(db, r);
      if ResolveSigned(db, r, env, signed).Ok? {
        assert Delivers(db, r, s, ResolveSigned(db, r, env, signed).value.1, signed);
      }
      forall s', h | Delivers(db, r, s', h, signed) ensures s' == s { assert s <= s' <= s; }
    }
  }

  /** Ensure-install is answered exactly when the same demands are met, the newest
      sign child has delivered an artifact that is still there, and nobody else has
      its install job in hand. */
  lemma EnsureInstallMeans(db: Db, r: JobId, env: Env, signed: set<SignedId>, agent: AgentId, now: Time, cfg: Config)
    requires WellFormed(db)
    ensures InstallChild(db, r, env, signed, agent, now, cfg).1.Ok? <==>
      && MayProceed(db, r, env)
      && exists s, g :: Delivers(db, r, s, g, signed) && !Taken(db, RefreshInstallKey(r, g), agent)
    ensures !MayProceed(db, r, env) ==>
      InstallChild(db, r, env, signed, agent, now, cfg) == (db, Err(FirstError(db, r, env)))
  {
    hide WellFormed, ResolveSigned, Delivers, Taken, Insert, ClaimOne;
    ResolveMeans(db, r, env, signed);
    if ResolveSigned(db, r, env, signed).Ok? {
      var (rc, g) := ResolveSigned(db, r, env, signed).value;
      ClaimsUnlessTaken(db, InstallRow(r, rc.device, rc.deployment, g, DEFAULT_MAX_ATTEMPTS), agent, now, cfg);
    }
  }

  lemma ContextMeans(db: Db, r: JobId, env: Env)
    ensures LoadContext(db, r, env).Ok? <==> MayProceed(db, r, env)
    ensures !MayProceed(db, r, env) ==> LoadContext(db, r, env) == Err(FirstError(db, r, env))
    ensures MayProceed(db, r, env) ==>
      LoadContext(db, r, env).value.device == db.jobs[r].device.value
      && LoadContext(db, r, env).value.deployment == db.jobs[r].params.deployment
  {
  }

  lemma ClaimsUnlessTaken(db: Db, row: Job, agent: AgentId, now: Time, cfg: Config)
    requires WellFormed(db) && row.state == Pending
    ensures var (mid, i) := Insert(db, row); ClaimOne(mid, agent, i, now, cfg).1.Ok? <==> !Taken(db, row.key, agent)
  {
  }

  /** The row ensure-install would queue. */
  function Wanted(j: Job, r: JobId, g: SignedId): Job {
    Job(Install, j.device, Pending, 0, 5, None, None, None, None, None, false,
        Params(j.params.deployment, None, Some(r), Some(g)), NoResult, RefreshInstallKey(r, g), Some(r))
  }

  /** And then what it hands over is the install job under the key of refresh and
      artifact: the one there is, or a new child of the refresh; completed, or now in
      the caller's hands. */
  lemma EnsureInstallHandsOver(db: Db, r: JobId, env: Env, signed: set<SignedId>, agent: AgentId, now: Time,
                               cfg: Config)
    requires WellFormed(db) && InstallChild(db, r, env, signed, agent, now, cfg).1.Ok?
    ensures r in db.jobs && exists s, g :: Delivers(db, r, s, g, signed)
    ensures forall s, g :: Delivers(db, r, s, g, signed) ==>
      var (after, reply) := InstallChild(db, r, env, signed, agent, now, cfg);
      HandsOver(db, after, reply.value.0, reply.value.1, Wanted(db.jobs[r], r, g), agent, now, cfg)
  {
    hide WellFormed, ResolveSigned, Delivers, Insert, ClaimOne, HandsOver;
    ResolveMeans(db, r, env, signed);
    var (rc, g) := ResolveSigned(db, r, env, signed).value;
    var row := InstallRow(r, rc.device, rc.deployment, g, DEFAULT_MAX_ATTEMPTS);
    assert row == Wanted(db.jobs[r], r, g);
    InsertThenClaim(db, row, agent, now, cfg);
  }

  /** Job i, now row j, is under the wanted row's key: it was there before, or is that
      row; and it is completed, or the agent has it. */
  ghost predicate HandsOver(db: Db, after: Db, i: JobId, j: Job, row: Job, agent: AgentId, now: Time, cfg: Config) {
    && row.key in after.keys && after.keys[row.key] == i && i in after.jobs && after.jobs[i] == j
    && (j.state == Completed || ((j.state == Claimed || j.state == InProgress) && j.claimedBy == Some(agent)))
    && (row.key in db.keys ==> i == db.keys[row.key])
    && (row.key !in db.keys ==>
          && i == db.nextId
          && j == row.(state := Claimed, claimedBy := Some(agent), attempt := 1, lease := Some(now + cfg.lease)))
  }

  lemma InsertThenClaim(db: Db, row: Job, agent: AgentId, now: Time, cfg: Config)
    requires WellFormed(db) && row.state == Pending && row.attempt == 0 && row.retryAt.None?
    requires var (mid, i) := Insert(db, row); ClaimOne(mid, agent, i, now, cfg).1.Ok?
    ensures var (mid, i) := Insert(db, row); var (after, reply) := ClaimOne(mid, agent, i, now, cfg);
            HandsOver(db, after, i, reply.value, row, agent, now, cfg)
  {
  }

  // ---------------------------------------------------------- the code itself

  class Server {
    const queue: Service
    var signed: set<SignedId>

    constructor (queue: Service)
      ensures this.queue == queue && signed == {}
    {
      this.queue, signed := queue, {};
    }

    method HandleRefreshSign(r: JobId, env: Env, fallback: bool) returns (reply: Result<SignReply, ApiError>)
      modifies queue`jobs, queue`keys, queue`nextId
      ensures reply.Ok? <==> MayProceed(old(queue.Db()), r, env)
      ensures reply.Err? ==> queue.Db() == old(queue.Db()) && reply.error == FirstError(old(queue.Db()), r, env)
      ensures (queue.Db(), reply) == SignChild(old(queue.Db()), r, env, fallback)
    {
      SignRequestMeans(queue.Db(), r, env, fallback);
      var rc := LoadContext(queue.Db(), r, env);
      if rc.Err? { return Err(rc.error); }
      var source := rc.value.source;
      var updateAttempted := rc.value.updateFrom.Some?;
      if fallback && rc.value.updateFrom.Some? {
        source := rc.value.updateFrom.value;
        updateAttempted := false;
      }
      var job := queue.Create(Sign, Some(rc.value.device), Params(rc.value.deployment, Some(source), Some(r), None),
                              RefreshSignKey(r, source.head), None, Some(r));
      return Ok(SignReply(job.value, updateAttempted));
    }

    method HandleEnsureInstall(r: JobId, env: Env, agent: AgentId, now: Time)
      returns (reply: Result<(JobId, Job), ApiError>)
      modifies queue`jobs, queue`keys, queue`nextId
      ensures !MayProceed(old(queue.Db()), r, env) ==>
        queue.Db() == old(queue.Db()) && reply == Err(FirstError(old(queue.Db()), r, env))
      ensures (queue.Db(), reply) == InstallChild(old(queue.Db()), r, env, signed, agent, now, queue.cfg)
    {
      ContextMeans(queue.Db(), r, env);
      var rc := LoadContext(queue.Db(), r, env);
      if rc.Err? { return Err(rc.error); }
      if SignChildren(queue.Db(), r) == {} { return Err(NoSignJob); }
      var sign := queue.jobs[NewestSign(queue.Db(), r)];
      if sign.state != Completed { return Err(SignNotCompleted); }
      if !sign.result.Reported? || sign.result.signedArtifact.None? { return Err(NoSignedArtifact); }
      var g := sign.result.signedArtifact.value;
      if g !in signed { return Err(SignedArtifactNotFound); }
      var install := queue.Create(Install, Some(rc.value.device), Params(rc.value.deployment, None, Some(r), Some(g)),
                                  RefreshInstallKey(r, g), None, Some(r));
      var claimed := queue.ClaimSpecific(agent, install.value, now);
      if claimed.Err? { return Err(ClaimFailed(install.value, claimed.error)); }
      return Ok((install.value, claimed.value));
    }

    /** The tail of the signed-upload transaction for a refresh's sign job: the
        derivative's row and its install child, three attempts, under the same
        key ensure-install uses. */
    method RecordSigned(g: SignedId, sign: JobId, device: DeviceId)
      requires sign in queue.jobs && queue.jobs[sign].parent.Some? && queue.jobs[sign].params.refreshJob.Some?
      modifies this`signed, queue`jobs, queue`keys, queue`nextId
      ensures signed == old(signed) + {g}
      ensures var s := old(queue.jobs)[sign];
              queue.Db() == Insert(old(queue.Db()),
                Job(Install, Some(device), Pending, 0, 3, None, None, None, None, None, false,
                    Params(s.params.deployment, None, s.params.refreshJob, Some(g)), NoResult,
                    RefreshInstallKey(s.params.refreshJob.value, g), s.parent)).0
    {
      var s := queue.jobs[sign];
      signed := signed + {g};
      var row := NewRow(Install, Some(device), Params(s.params.deployment, None, s.params.refreshJob, Some(g)),
                        RefreshInstallKey(s.params.refreshJob.value, g), None, 3, s.parent);
      var _ := queue.InsertOrFind(row);
    }
  }
}
