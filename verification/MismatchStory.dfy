/** A refresh that records an artifact other than the one its install job put on
    the device: told step by step from an empty queue. */
module MismatchStory {
  import opened Prelude
  import opened JobRows
  import JobQueue
  import JobApi
  import opened JobRuns
  import opened DeviceRefresh
  import opened RefreshProtocol
  import opened RefreshSafety
  import opened RefreshRecovery
  import opened RefreshMismatch

  const CFG := Config(600, 86400)
  const SERVICE: AgentId := 1
  const WORKER: AgentId := 2
  const PARTY := Party(CFG, SERVICE, {0})
  const ORIGINAL := ArtifactId(1, 0)
  const UPDATE := ArtifactId(2, 0)
  const ENV := Env({ORIGINAL, UPDATE}, {ORIGINAL, UPDATE}, {0}, map[0 := UPDATE], true)
  const CONTEXT := Context(0, Some(0), UPDATE, Some(ORIGINAL))

  const FLEET := JobQueue.Fleet(
    map[SERVICE := JobQueue.AgentRow(JobQueue.DeviceService, false),
        WORKER := JobQueue.AgentRow(JobQueue.SigningWorker, true)],
    map[0 := Some(SERVICE)])

  // ------------------------------------------------------------- telling it

  function Types(agent: AgentId): set<JobType> { JobApi.AllowedJobTypes(JobApi.EffectiveRole(FLEET, agent)) }

  /** What a Claims event hands out is what Claim answers, to a caller that asks for
      everything its role may have. */
  ghost predicate IsAnswer(sys: System, t: Timed) {
    match t.action
    case Queue(Claims(agent, ids)) =>
      exists claimed: seq<JobId> ::
        Elements(claimed) == ids
        && JobQueue.ClaimAnswers(sys.db.jobs, FLEET, agent, JobQueue.ClaimRequest({}, Types(agent), 5), {}, t.now,
            claimed)
    case _ => true
  }

  ghost predicate ClaimsAreAnswers(sys: System, story: Story, p: Party) {
    story == []
    || (ClaimsAreAnswers(sys, story[..|story| - 1], p)
        && IsAnswer(After(sys, story[..|story| - 1], p), story[|story| - 1]))
  }

  /** The clock never goes back. */
  predicate InOrder(story: Story) { forall j, k :: 0 <= j < k < |story| ==> story[j].now <= story[k].now }

  predicate UpTo(story: Story, now: Time) { InOrder(story) && forall k :: 0 <= k < |story| ==> story[k].now <= now }

  const START := System(Tables(map[], map[], 0), {}, 0, Idle, {}, map[])

  /** The story so far is possible, its claims are real, and it leads to `here`. */
  ghost predicate Told(story: Story, now: Time, here: System) {
    && Possible(START, story, PARTY) && ClaimsAreAnswers(START, story, PARTY) && UpTo(story, now)
    && After(START, story, PARTY) == here
  }

  lemma NothingTold()
    ensures Told([], 0, START)
  {
  }

  lemma Tell(story: Story, here: System, before: Time, now: Time, a: Action, next: System) returns (longer: Story)
    requires Told(story, before, here) && before <= now && CanHappen(here, AtTime(now, a), PARTY)
    requires IsAnswer(here, AtTime(now, a)) && Next(here, AtTime(now, a), PARTY) == next
    ensures Told(longer, now, next)
  {
    hide CanHappen, Next, IsAnswer;
    Extend(START, story, AtTime(now, a), PARTY);
    longer := story + [AtTime(now, a)];
    assert longer[..|story|] == story;
  }

  function WithRow(here: System, id: JobId, j: Job): System { here.(db := here.db.(jobs := here.db.jobs[id := j])) }

  function WithNew(here: System, row: Job): System { here.(db := Insert(here.db, row).0) }

  /** An agent polls and is handed one job. */
  lemma TellClaim(story: Story, here: System, before: Time, now: Time, agent: AgentId, id: JobId, next: System)
    returns (longer: Story)
    requires Told(story, before, here) && before <= now
    requires JobQueue.ClaimAnswers(here.db.jobs, FLEET, agent, JobQueue.ClaimRequest({}, Types(agent), 5), {}, now,
        [id])
    requires id in here.db.jobs && (here.db.jobs[id].jobType == Refresh ==> agent == SERVICE)
    requires next == WithRow(here, id, Grant(here.db.jobs[id], agent, now, CFG)).(
      handed := if agent == SERVICE && here.orch.Idle? then if here.db.jobs[id].jobType == Refresh then {id} else {}
          else here.handed)
    ensures Told(longer, now, next)
  {
    hide Told, JobQueue.ClaimAnswers, Types;
    var t := AtTime(now, Queue(Claims(agent, {id})));
    assert Elements([id]) == {id};
    assert here.db.jobs[id].state == Pending && Due(here.db.jobs[id], now) by {
      AnswersArePending(here.db.jobs, agent, now, id);
    }
    ApplyIsStep(here.db, now, Claims(agent, {id}), CFG);
    assert GrantAll(here.db, {id}, agent, now, CFG) == next.db;
    assert NextHanded(here, t, PARTY) == next.handed;
    longer := Tell(story, here, before, now, t.action, next);
  }

  lemma AnswersArePending(jobs: map<JobId, Job>, agent: AgentId, now: Time, id: JobId)
    requires JobQueue.ClaimAnswers(jobs, FLEET, agent, JobQueue.ClaimRequest({}, Types(agent), 5), {}, now, [id])
    ensures id in jobs && jobs[id].state == Pending && Due(jobs[id], now)
  {
    assert JobQueue.Proper(jobs, FLEET, agent, JobQueue.ClaimRequest({}, Types(agent), 5), {}, now, [id][0]);
  }

  /** Job id is the earliest on offer to the agent, of jobs that are all for device 0. */
  predicate OnOffer(jobs: map<JobId, Job>, agent: AgentId, now: Time, id: JobId) {
    && (forall x :: x in jobs ==> jobs[x].device == Some(0))
    && id in jobs && jobs[id].state == Pending && Due(jobs[id], now) && jobs[id].jobType in Types(agent)
    && forall x :: x in jobs && x < id ==>
         jobs[x].state != Pending || !Due(jobs[x], now) || jobs[x].jobType !in Types(agent)
  }

  /** That is what an agent who polls is handed. */
  lemma EarliestIsAnswer(jobs: map<JobId, Job>, agent: AgentId, now: Time, id: JobId)
    requires (agent == SERVICE || agent == WORKER) && OnOffer(jobs, agent, now, id)
    ensures id in jobs
    ensures JobQueue.ClaimAnswers(jobs, FLEET, agent, JobQueue.ClaimRequest({}, Types(agent), 5), {}, now, [id])
  {
    assert id in [id];
    assert JobQueue.Served(jobs, [id], Some(0));
  }

  /** An agent reports on a job that is no refresh. */
  lemma TellReport(story: Story, here: System, before: Time, now: Time, agent: AgentId, id: JobId, req: UpdateRequest)
    returns (longer: Story)
    requires Told(story, before, here) && before <= now && req.state.Known?
    requires id in here.db.jobs && here.db.jobs[id].jobType != Refresh && RowRefusal(here.db.jobs[id], agent, req).None?
    ensures var j := here.db.jobs[id];
            Told(longer, now,
                 WithRow(here, id, Applied(j, req, now, CFG)).(
                   installed := if j.jobType == Install && j.params.signedArtifact.Some?
                       && req.state == Known(Completed)
                                then here.installed[id := Named(j.params.signedArtifact.value)] else here.installed))
  {
    hide Told, RowRefusal;
    var e := Updates(agent, id, req);
    ApplyIsStep(here.db, now, e, CFG);
    longer := Tell(story, here, before, now, Queue(e), Next(here, AtTime(now, Queue(e)), PARTY));
  }

  /** The worker uploads what sign job `job` asked for. */
  lemma TellUpload(story: Story, here: System, before: Time, now: Time, job: JobId, row: Job) returns (longer: Story)
    requires Told(story, before, here) && before <= now
    requires job in here.db.jobs && here.db.jobs[job].jobType == Sign
    requires here.db.jobs[job].parent == Some(0) && here.db.jobs[job].params.refreshJob == Some(0)
    requires row == InstallRow(0, 0, here.db.jobs[job].params.deployment, here.nextSigned, 3)
    ensures Told(longer, now, WithNew(here, row).(signed := here.signed + {here.nextSigned},
        nextSigned := here.nextSigned + 1))
  {
    hide Told, Insert;
    ApplyIsStep(here.db, now, Creates(row), CFG);
    longer := Tell(story, here, before, now, Upload(job, 0), Next(here, AtTime(now, Upload(job, 0)), PARTY));
  }

  /** The reaper finds one row to requeue. */
  lemma TellReap(story: Story, here: System, before: Time, now: Time, id: JobId) returns (longer: Story)
    requires Told(story, before, here) && before <= now && id in here.db.jobs
    requires Reapable(here.db.jobs[id], now) && Verdict(here.db.jobs[id]).None?
    requires forall x :: x in here.db.jobs && x != id ==> !Reapable(here.db.jobs[x], now)
    ensures Told(longer, now, WithRow(here, id, Requeued(here.db.jobs[id], now)))
  {
    hide Told, Reapable, Verdict, Requeued;
    var e := Reaps({});
    ApplyIsStep(here.db, now, e, CFG);
    assert ReapAll(here.db, {}, now).jobs == here.db.jobs[id := Requeued(here.db.jobs[id], now)];
    longer := Tell(story, here, before, now, Queue(e), Next(here, AtTime(now, Queue(e)), PARTY));
  }

  /** The device service picks a refresh from its batch and reports it in progress. */
  lemma TellStart(story: Story, here: System, now: Time, r: JobId) returns (longer: Story)
    requires Told(story, now, here) && here.orch == Idle && r in here.handed && r in here.db.jobs
    requires RowRefusal(here.db.jobs[r], SERVICE, Working()).None? && here.db.jobs[r].params.source.Some?
    ensures Told(longer, now, WithRow(here, r, Applied(here.db.jobs[r], Working(), now, CFG)).(
                                orch := Requesting(r, false), handed := here.handed - {r}))
  {
    hide Told, RowRefusal;
    var picked := here.(orch := Starting(r), handed := here.handed - {r});
    longer := Tell(story, here, now, now, Pick(r), picked);
    ApplyIsStep(here.db, now, Updates(SERVICE, r, Working()), CFG);
    longer := Tell(longer, picked, now, now, Begin(true), Next(picked, AtTime(now, Begin(true)), PARTY));
  }

  /** It asks for a derivative; updates are on the list. */
  lemma TellRequest(story: Story, here: System, now: Time, r: JobId, fallback: bool, row: Job) returns (longer: Story)
    requires Told(story, now, here) && here.orch == Requesting(r, fallback)
    requires LoadContext(here.db, r, ENV) == Ok(CONTEXT) && row == SignRow(r, CONTEXT, fallback)
    ensures Told(longer, now, WithNew(here, row).(orch := Awaiting(r, Insert(here.db, row).1, !fallback)))
  {
    hide Told, Insert, LoadContext;
    var a := RequestSign(ENV, true);
    ApplyIsStep(here.db, now, Creates(row), CFG);
    longer := Tell(story, here, now, now, a, Next(here, AtTime(now, a), PARTY));
  }

  /** It looks how the signing went. */
  lemma TellPoll(story: Story, here: System, now: Time, r: JobId, s: JobId, next: Orchestrator) returns (longer: Story)
    requires Told(story, now, here) && here.orch == Awaiting(r, s, true) && s in here.db.jobs
    requires || (here.db.jobs[s].state == Failed && next == Requesting(r, true))
             || (here.db.jobs[s].state == Completed && here.db.jobs[s].result.Reported?
                 && here.db.jobs[s].result.signedArtifact.Some?
                     && next == Signed(r, s, here.db.jobs[s].result.signedArtifact.value))
    ensures Told(longer, now, here.(orch := next))
  {
    hide Told;
    longer := Tell(story, here, now, now, Poll, here.(orch := next));
  }

  /** The device service crashes. */
  lemma TellCrash(story: Story, here: System, now: Time) returns (longer: Story)
    requires Told(story, now, here)
    ensures Told(longer, now, here.(orch := Idle, handed := {}))
  {
    hide Told;
    longer := Tell(story, here, now, now, Crash, here.(orch := Idle, handed := {}));
  }

  /** Ensure-install finds the install job there, and completed. */
  lemma TellEnsured(story: Story, here: System, now: Time, r: JobId, s: JobId, g: SignedId, h: SignedId, i: JobId)
    returns (longer: Story)
    requires Told(story, now, here) && here.orch == Signed(r, s, g)
    requires ResolveSigned(here.db, r, ENV, here.signed) == Ok((CONTEXT, h))
    requires RefreshInstallKey(r, h) in here.db.keys && here.db.keys[RefreshInstallKey(r, h)] == i
    requires i in here.db.jobs && here.db.jobs[i].state == Completed
        && here.db.jobs[i].result == Reported(None, None, None)
    ensures Told(longer, now, here.(orch := Completing(r, s, g, i, None)))
  {
    hide Told, ResolveSigned, Step;
    var row := InstallRow(r, 0, Some(0), h, DEFAULT_MAX_ATTEMPTS);
    ApplyIsStep(here.db, now, Creates(row), CFG);
    StepIsInsert(here.db, At(now, Creates(row)), CFG);
    longer := Tell(story, here, now, now, EnsureInstall(ENV), here.(orch := Claiming(r, s, g, i)));
    ApplyIsStep(here.db, now, ClaimsOne(SERVICE, i), CFG);
    StepIsClaimOne(here.db, At(now, ClaimsOne(SERVICE, i)), CFG);
    longer := Tell(longer, here.(orch := Claiming(r, s, g, i)), now, now, ClaimInstall(true),
        here.(orch := Completing(r, s, g, i, None)));
  }

  /** The completion report. */
  lemma TellComplete(story: Story, here: System, now: Time) returns (longer: Story)
    requires Told(story, now, here) && here.orch.Completing?
    ensures var o := here.orch;
            Told(longer, now,
                 here.(db := Updated(here.db, SERVICE, o.r, CompletionReport(o.g, o.install, o.expiry), now, CFG),
                     orch := Idle))
  {
    hide Told, Updated;
    var o := here.orch;
    ApplyIsStep(here.db, now, Updates(SERVICE, o.r, CompletionReport(o.g, o.install, o.expiry)), CFG);
    longer := Tell(story, here, now, now, CompleteRefresh, Next(here, AtTime(now, CompleteRefresh), PARTY));
  }

  // --------------------------------------------------------------- the rows

  const CYCLE := NewRow(Refresh, Some(0), Params(Some(0), Some(ORIGINAL), None, None), CycleKey(0, 0, 0), None, 15,
      None)
  const SIGN_UPDATE := SignRow(0, CONTEXT, false)
  const SIGN_ORIGINAL := SignRow(0, CONTEXT, true)
  const INSTALL_UPDATE := InstallRow(0, 0, Some(0), 0, 3)
  const INSTALL_ORIGINAL := InstallRow(0, 0, Some(0), 1, 3)

  const OUTAGE := UpdateRequest(Known(Failed), Some(OtherCategory("network")), true, NoResult)
  const DONE := InstallReport(true, Auth, None)

  function SignedReport(g: SignedId): UpdateRequest {
    UpdateRequest(Known(Completed), None, false, Reported(None, Some(g), None))
  }

  const GRANTED := Grant(CYCLE, SERVICE, 0, CFG)
  const RUNNING := Applied(GRANTED, Working(), 0, CFG)
  const UPDATE_FAILED := Applied(Grant(SIGN_UPDATE, WORKER, 0, CFG), OUTAGE, 0, CFG)
  const UPDATE_AGAIN := Requeued(UPDATE_FAILED, 100)
  const UPDATE_SIGNED := Applied(Grant(UPDATE_AGAIN, WORKER, 200, CFG), SignedReport(0), 200, CFG)
  const ORIGINAL_SIGNED := Applied(Grant(SIGN_ORIGINAL, WORKER, 200, CFG), SignedReport(1), 200, CFG)
  const LAPSED := Requeued(RUNNING, 1000)
  const UPDATE_TAKEN := Grant(INSTALL_UPDATE, SERVICE, 1000, CFG)
  const UPDATE_RUNS := Applied(UPDATE_TAKEN, Working(), 1000, CFG)
  const UPDATE_INSTALLED := Applied(UPDATE_RUNS, DONE, 1000, CFG)
  const ORIGINAL_TAKEN := Grant(INSTALL_ORIGINAL, SERVICE, 1000, CFG)
  const ORIGINAL_RUNS := Applied(ORIGINAL_TAKEN, Working(), 1000, CFG)
  const ORIGINAL_INSTALLED := Applied(ORIGINAL_RUNS, DONE, 1000, CFG)
  const RETAKEN := Grant(LAPSED, SERVICE, 2000, CFG)
  const RESUMED := Applied(RETAKEN, Working(), 2000, CFG)

  const DEPLOYMENTS := map[0 := Deployment(0, None, Never, None)]
  const RECORDS := map[0 := Installation(None, None, None)]
  const KEYS1: map<Key, JobId> := map[CycleKey(0, 0, 0) := 0]
  const KEYS2: map<Key, JobId> := KEYS1[RefreshSignKey(0, 2) := 1]
  const KEYS3: map<Key, JobId> := KEYS2[RefreshSignKey(0, 1) := 2]
  const KEYS4: map<Key, JobId> := KEYS3[RefreshInstallKey(0, 0) := 3]
  const KEYS5: map<Key, JobId> := KEYS4[RefreshInstallKey(0, 1) := 4]

  function Tables(jobs: map<JobId, Job>, keys: map<Key, JobId>, n: nat): Db { Db(jobs, keys, n, DEPLOYMENTS, RECORDS) }

  function One(a: Job, orch: Orchestrator, handed: set<JobId>): System {
    System(Tables(map[0 := a], KEYS1, 1), {}, 0, orch, handed, map[])
  }

  function Two(a: Job, b: Job, orch: Orchestrator): System {
    System(Tables(map[0 := a, 1 := b], KEYS2, 2), {}, 0, orch, {}, map[])
  }

  function Three(b: Job, c: Job): System {
    System(Tables(map[0 := RUNNING, 1 := b, 2 := c], KEYS3, 3), {}, 0, Awaiting(0, 2, false), {}, map[])
  }

  function Four(b: Job, c: Job): System {
    System(Tables(map[0 := RUNNING, 1 := b, 2 := c, 3 := INSTALL_UPDATE], KEYS4, 4), {0}, 1, Awaiting(0, 2, false),
        {}, map[])
  }

  function Five(a: Job, c: Job, d: Job, e: Job, orch: Orchestrator, handed: set<JobId>,
                installed: map<JobId, Put>): System {
    System(Tables(map[0 := a, 1 := UPDATE_SIGNED, 2 := c, 3 := d, 4 := e], KEYS5, 5), {0, 1}, 2, orch, handed,
        installed)
  }

  predicate Looks(j: Job, jobType: JobType, state: JobState) {
    j.jobType == jobType && j.state == state && j.device == Some(0)
  }

  lemma SignRowsLook()
    ensures Looks(UPDATE_SIGNED, Sign, Completed) && Looks(ORIGINAL_SIGNED, Sign, Completed)
    ensures UPDATE_SIGNED.parent == Some(0) && UPDATE_SIGNED.result == Reported(None, Some(0), None)
    ensures ORIGINAL_SIGNED.parent == Some(0) && ORIGINAL_SIGNED.result == Reported(None, Some(1), None)
  {
  }

  /** A refresh's sign job, waiting. */
  predicate LooksQueued(j: Job, now: Time) {
    Looks(j, Sign, Pending) && Due(j, now) && j.parent == Some(0) && j.params.refreshJob == Some(0)
        && j.params.deployment == Some(0)
  }

  lemma QueuedSignsLook()
    ensures LooksQueued(UPDATE_AGAIN, 200) && LooksQueued(SIGN_ORIGINAL, 200)
    ensures Looks(RUNNING, Refresh, InProgress) && Looks(INSTALL_UPDATE, Install, Pending)
  {
  }

  lemma InstallRowsLook()
    ensures Looks(INSTALL_UPDATE, Install, Pending) && INSTALL_UPDATE.retryAt.None?
        && INSTALL_UPDATE.params.signedArtifact == Some(0)
    ensures Looks(INSTALL_ORIGINAL, Install, Pending) && INSTALL_ORIGINAL.retryAt.None?
    ensures INSTALL_ORIGINAL.params.signedArtifact == Some(1)
    ensures Looks(UPDATE_INSTALLED, Install, Completed) && Looks(ORIGINAL_INSTALLED, Install, Completed)
    ensures ORIGINAL_INSTALLED.result == Reported(None, None, None)
  {
  }

  lemma RefreshRowsLook()
    ensures Looks(LAPSED, Refresh, Pending) && LAPSED.retryAt == Some(1030)
    ensures LAPSED.params.deployment.Some? && LAPSED.params.source.Some?
    ensures Looks(RESUMED, Refresh, InProgress)
  {
    assert RUNNING.attempt == 1;
  }

  lemma OneRow(a: Job, b: Job, o: Orchestrator, h: set<JobId>)
    ensures WithRow(One(a, o, h), 0, b) == One(b, o, h)
  {
    assert map[0 := a][0 := b] == map[0 := b];
  }

  lemma TwoRows(a: Job, b: Job, c: Job, o: Orchestrator)
    ensures b.key == RefreshSignKey(0, 2) ==>
        WithNew(One(a, o, {}), b) == Two(a, b, o) && Insert(One(a, o, {}).db, b).1 == 1
    ensures WithRow(Two(a, b, o), 1, c) == Two(a, c, o)
  {
    assert map[0 := a][1 := b] == map[0 := a, 1 := b] && map[0 := a, 1 := b][1 := c] == map[0 := a, 1 := c];
  }

  lemma ThreeRows(b: Job, c: Job, d: Job, o: Orchestrator)
    ensures c.key == RefreshSignKey(0, 1) ==>
      WithNew(Two(RUNNING, b, o), c) == Three(b, c).(orch := o) && Insert(Two(RUNNING, b, o).db, c).1 == 2
    ensures WithRow(Three(b, c), 1, d) == Three(d, c)
  {
    var a := RUNNING;
    assert map[0 := a, 1 := b][2 := c] == map[0 := a, 1 := b, 2 := c];
    assert map[0 := a, 1 := b, 2 := c][1 := d] == map[0 := a, 1 := d, 2 := c];
  }

  lemma FourRows(b: Job, c: Job, x: Job)
    ensures WithNew(Three(b, c), INSTALL_UPDATE).(signed := {0}, nextSigned := 1) == Four(b, c)
    ensures WithRow(Four(b, c), 1, x) == Four(x, c) && WithRow(Four(b, c), 2, x) == Four(b, x)
  {
    var a, d := RUNNING, INSTALL_UPDATE;
    assert d.key == RefreshInstallKey(0, 0);
    assert map[0 := a, 1 := b, 2 := c][3 := d] == map[0 := a, 1 := b, 2 := c, 3 := d];
    assert map[0 := a, 1 := b, 2 := c, 3 := d][1 := x] == map[0 := a, 1 := x, 2 := c, 3 := d];
    assert map[0 := a, 1 := b, 2 := c, 3 := d][2 := x] == map[0 := a, 1 := b, 2 := x, 3 := d];
  }

  lemma FifthRow(c: Job)
    ensures WithNew(Four(UPDATE_SIGNED, c), INSTALL_ORIGINAL).(signed := {0, 1}, nextSigned := 2)
         == Five(RUNNING, c, INSTALL_UPDATE, INSTALL_ORIGINAL, WAITING, {}, map[])
  {
    var a, b, d, e := RUNNING, UPDATE_SIGNED, INSTALL_UPDATE, INSTALL_ORIGINAL;
    assert e.key == RefreshInstallKey(0, 1);
    assert map[0 := a, 1 := b, 2 := c, 3 := d][4 := e] == map[0 := a, 1 := b, 2 := c, 3 := d, 4 := e];
  }

  lemma FiveRows(a: Job, c: Job, d: Job, e: Job, o: Orchestrator, h: set<JobId>, put: map<JobId, Put>, x: Job)
    ensures WithRow(Five(a, c, d, e, o, h, put), 0, x) == Five(x, c, d, e, o, h, put)
    ensures WithRow(Five(a, c, d, e, o, h, put), 2, x) == Five(a, x, d, e, o, h, put)
    ensures WithRow(Five(a, c, d, e, o, h, put), 3, x) == Five(a, c, x, e, o, h, put)
    ensures WithRow(Five(a, c, d, e, o, h, put), 4, x) == Five(a, c, d, x, o, h, put)
  {
    FiveJobs(a, UPDATE_SIGNED, c, d, e, x);
  }

  lemma FiveJobs<T>(a: T, b: T, c: T, d: T, e: T, x: T)
    ensures var m: map<JobId, T> := map[0 := a, 1 := b, 2 := c, 3 := d, 4 := e];
            && m[0 := x] == map[0 := x, 1 := b, 2 := c, 3 := d, 4 := e]
            && m[2 := x] == map[0 := a, 1 := b, 2 := x, 3 := d, 4 := e]
            && m[3 := x] == map[0 := a, 1 := b, 2 := c, 3 := x, 4 := e]
            && m[4 := x] == map[0 := a, 1 := b, 2 := c, 3 := d, 4 := x]
  {
  }

  lemma ServiceTypes()
    ensures Install in Types(SERVICE) && Refresh in Types(SERVICE) && Sign !in Types(SERVICE)
  {
  }

  /** What the worker is offered. */
  lemma WorkerOffers(here: System, id: JobId)
    requires id in here.db.jobs && LooksQueued(here.db.jobs[id], 200) && (id == 1 || id == 2)
    requires forall x :: x in here.db.jobs ==> here.db.jobs[x].device == Some(0)
    requires 0 in here.db.jobs && here.db.jobs[0].state == InProgress
    requires id == 2 ==> 1 in here.db.jobs && here.db.jobs[1].state == Completed
    ensures OnOffer(here.db.jobs, WORKER, 200, id)
  {
    hide Types;
    assert Sign in Types(WORKER) by { WorkerTypes(); }
  }

  lemma WorkerTypes()
    ensures Sign in Types(WORKER)
  {
  }

  /** What the service is offered late in the story. */
  lemma Offers(here: System, now: Time, id: JobId)
    requires here.db.jobs.Keys == {0, 1, 2, 3, 4} && (id == 0 || id == 3 || id == 4)
    requires forall x :: x in here.db.jobs ==> here.db.jobs[x].device == Some(0)
    requires here.db.jobs[1].state == Completed && here.db.jobs[2].state == Completed
    requires here.db.jobs[id].state == Pending && Due(here.db.jobs[id], now)
    requires here.db.jobs[id].jobType == Install || here.db.jobs[id].jobType == Refresh
    requires id > 0 ==> !Due(here.db.jobs[0], now)
    requires id == 4 ==> here.db.jobs[3].state == Completed
    ensures OnOffer(here.db.jobs, SERVICE, now, id)
  {
    hide Types;
    ServiceTypes();
  }

  // --------------------------------------------------------------- chapters

  /** The context of refresh 0, whenever it is in the service's hands. */
  lemma LoadsTheUpdate(db: Db)
    requires 0 in db.jobs && (db.jobs[0] == RUNNING || db.jobs[0] == RESUMED)
    ensures LoadContext(db, 0, ENV) == Ok(CONTEXT)
  {
  }

  lemma TellCycle() returns (story: Story)
    ensures Told(story, 0, One(CYCLE, Idle, {}))
  {
    hide Told;
    NothingTold();
    ApplyIsStep(START.db, 0, Creates(CYCLE), CFG);
    story := Tell([], START, 0, 0, Queue(Creates(CYCLE)), One(CYCLE, Idle, {}));
  }

  /** The cycle is queued, handed to the device service and started. */
  lemma Chapter1() returns (story: Story)
    ensures Told(story, 0, One(RUNNING, Requesting(0, false), {}))
  {
    hide Told, WithRow;
    story := TellCycle();
    story := TellHanded(story, One(CYCLE, Idle, {}), 0, 0, 0, CYCLE, RUNNING);
    OneRow(CYCLE, RUNNING, Idle, {});
  }

  const WAITING: Orchestrator := Awaiting(0, 2, false)
  const SIGNING := Grant(SIGN_UPDATE, WORKER, 0, CFG)

  /** It asks for the update to be signed; the worker fails to for the moment. */
  lemma Chapter2() returns (story: Story)
    ensures Told(story, 0, Two(RUNNING, UPDATE_FAILED, Awaiting(0, 1, true)))
  {
    hide Told, JobQueue.ClaimAnswers, LoadContext, WithRow, WithNew, Insert;
    story := Chapter1();
    var asked := Two(RUNNING, SIGN_UPDATE, Awaiting(0, 1, true));
    LoadsTheUpdate(One(RUNNING, Requesting(0, false), {}).db);
    story := TellRequest(story, One(RUNNING, Requesting(0, false), {}), 0, 0, false, SIGN_UPDATE);
    TwoRows(RUNNING, SIGN_UPDATE, SIGNING, Requesting(0, false));
    TwoRows(RUNNING, SIGN_UPDATE, SIGNING, asked.orch);
    EarliestIsAnswer(asked.db.jobs, WORKER, 0, 1);
    story := TellClaim(story, asked, 0, 0, WORKER, 1, Two(RUNNING, SIGNING, asked.orch));
    story := TellReport(story, Two(RUNNING, SIGNING, asked.orch), 0, 0, WORKER, 1, OUTAGE);
    TwoRows(RUNNING, SIGNING, UPDATE_FAILED, asked.orch);
  }

  /** So the service falls back to the original, and the reaper requeues the update. */
  lemma Chapter3() returns (story: Story)
    ensures Told(story, 100, Three(UPDATE_AGAIN, SIGN_ORIGINAL))
  {
    hide Told, LoadContext, WithRow, WithNew, Insert;
    story := Chapter2();
    var retrying := Two(RUNNING, UPDATE_FAILED, Requesting(0, true));
    story := TellPoll(story, Two(RUNNING, UPDATE_FAILED, Awaiting(0, 1, true)), 0, 0, 1, Requesting(0, true));
    LoadsTheUpdate(retrying.db);
    story := TellRequest(story, retrying, 0, 0, true, SIGN_ORIGINAL);
    ThreeRows(UPDATE_FAILED, SIGN_ORIGINAL, UPDATE_AGAIN, Requesting(0, true));
    story := TellReap(story, Three(UPDATE_FAILED, SIGN_ORIGINAL), 0, 100, 1);
  }

  const SIGNING_AGAIN := Grant(UPDATE_AGAIN, WORKER, 200, CFG)
  const SIGNING_ORIGINAL := Grant(SIGN_ORIGINAL, WORKER, 200, CFG)

  /** The worker is handed sign job i, and uploads what it signed. */
  lemma TellUploaded(story: Story, here: System, before: Time, i: JobId, granted: Job, row: Job, next: System)
    returns (longer: Story)
    requires Told(story, before, here) && before <= 200 && here.orch == WAITING && OnOffer(here.db.jobs, WORKER, 200, i)
    requires here.db.jobs[i].jobType == Sign && here.db.jobs[i].parent == Some(0)
    requires here.db.jobs[i].params.refreshJob == Some(0) && granted == Grant(here.db.jobs[i], WORKER, 200, CFG)
    requires row == InstallRow(0, 0, here.db.jobs[i].params.deployment, here.nextSigned, 3)
    requires next == WithNew(WithRow(here, i, granted), row).(
                       signed := here.signed + {here.nextSigned}, nextSigned := here.nextSigned + 1)
    ensures Told(longer, 200, next)
  {
    hide Told, JobQueue.ClaimAnswers, OnOffer, Insert;
    EarliestIsAnswer(here.db.jobs, WORKER, 200, i);
    assert i in here.db.jobs;
    longer := TellClaim(story, here, before, 200, WORKER, i, WithRow(here, i, granted));
    longer := TellUpload(longer, WithRow(here, i, granted), 200, 200, i, row);
  }

  lemma UpdateUploaded() returns (story: Story)
    ensures Told(story, 200, Four(SIGNING_AGAIN, SIGN_ORIGINAL))
  {
    hide Told, WithRow, WithNew, Insert, OnOffer, Applied, Grant, Requeued, NewRow, SignRow, InstallRow;
    QueuedSignsLook();
    SignRowsLook();
    story := Chapter3();
    var here := Three(UPDATE_AGAIN, SIGN_ORIGINAL);
    ThreeRows(UPDATE_AGAIN, SIGN_ORIGINAL, SIGNING_AGAIN, WAITING);
    FourRows(SIGNING_AGAIN, SIGN_ORIGINAL, UPDATE_SIGNED);
    assert here.signed + {0} == {0};
    WorkerOffers(here, 1);
    story := TellUploaded(story, here, 100, 1, SIGNING_AGAIN, INSTALL_UPDATE, Four(SIGNING_AGAIN, SIGN_ORIGINAL));
  }

  /** The worker signs the update after all, */
  lemma Chapter4() returns (story: Story)
    ensures Told(story, 200, Four(UPDATE_SIGNED, SIGN_ORIGINAL))
  {
    hide Told, WithRow;
    story := UpdateUploaded();
    story := TellReport(story, Four(SIGNING_AGAIN, SIGN_ORIGINAL), 200, 200, WORKER, 1, SignedReport(0));
    FourRows(SIGNING_AGAIN, SIGN_ORIGINAL, UPDATE_SIGNED);
  }

  /** and then the original, */
  lemma Chapter5() returns (story: Story)
    ensures Told(story, 200, Five(RUNNING, ORIGINAL_SIGNED, INSTALL_UPDATE, INSTALL_ORIGINAL, WAITING, {}, map[]))
  {
    hide Told, WithRow, WithNew, Insert;
    story := OriginalUploaded();
    var uploaded := Five(RUNNING, SIGNING_ORIGINAL, INSTALL_UPDATE, INSTALL_ORIGINAL, WAITING, {}, map[]);
    story := TellReport(story, uploaded, 200, 200, WORKER, 2, SignedReport(1));
    FiveRows(RUNNING, SIGNING_ORIGINAL, INSTALL_UPDATE, INSTALL_ORIGINAL, WAITING, {}, map[], ORIGINAL_SIGNED);
  }

  lemma OriginalUploaded() returns (story: Story)
    ensures Told(story, 200, Five(RUNNING, SIGNING_ORIGINAL, INSTALL_UPDATE, INSTALL_ORIGINAL, WAITING, {}, map[]))
  {
    hide Told, WithRow, WithNew, Insert, OnOffer, Applied, Grant, Requeued, NewRow, SignRow, InstallRow;
    QueuedSignsLook();
    SignRowsLook();
    story := Chapter4();
    FourRows(UPDATE_SIGNED, SIGN_ORIGINAL, SIGNING_ORIGINAL);
    FifthRow(SIGNING_ORIGINAL);
    assert {0} + {1} == {0, 1};
    WorkerOffers(Four(UPDATE_SIGNED, SIGN_ORIGINAL), 2);
    story := TellUploaded(story, Four(UPDATE_SIGNED, SIGN_ORIGINAL), 200, 2, SIGNING_ORIGINAL, INSTALL_ORIGINAL,
                          Five(RUNNING, SIGNING_ORIGINAL, INSTALL_UPDATE, INSTALL_ORIGINAL, WAITING, {}, map[]));
  }

  /** while the device service crashes, for longer than its lease. */
  lemma Chapter6() returns (story: Story)
    ensures Told(story, 1000, Five(LAPSED, ORIGINAL_SIGNED, INSTALL_UPDATE, INSTALL_ORIGINAL, Idle, {}, map[]))
  {
    hide Told, WithRow;
    story := Chapter5();
    story := TellCrash(story, Five(RUNNING, ORIGINAL_SIGNED, INSTALL_UPDATE, INSTALL_ORIGINAL, WAITING, {}, map[]),
        200);
    story := TellReap(story, Five(RUNNING, ORIGINAL_SIGNED, INSTALL_UPDATE, INSTALL_ORIGINAL, Idle, {}, map[]), 200,
        1000, 0);
    FiveRows(RUNNING, ORIGINAL_SIGNED, INSTALL_UPDATE, INSTALL_ORIGINAL, Idle, {}, map[], LAPSED);
  }

  /** The poll loop is handed install job i and runs it. */
  lemma TellRun(story: Story, here: System, i: JobId, j: Job, ended: Job, g: SignedId) returns (longer: Story)
    requires Told(story, 1000, here) && here.orch == Idle && OnOffer(here.db.jobs, SERVICE, 1000, i)
        && here.db.jobs[i] == j
    requires j.jobType == Install && j.params.signedArtifact == Some(g)
    requires ended == Applied(Applied(Grant(j, SERVICE, 1000, CFG), Working(), 1000, CFG), DONE, 1000, CFG)
    ensures Told(longer, 1000, WithRow(here, i, ended).(handed := {}, installed := here.installed[i := Named(g)]))
  {
    hide Told, JobQueue.ClaimAnswers, OnOffer;
    var granted := Grant(j, SERVICE, 1000, CFG);
    var started := Applied(granted, Working(), 1000, CFG);
    var taken, runs := WithRow(here, i, granted).(handed := {}), WithRow(here, i, started).(handed := {});
    EarliestIsAnswer(here.db.jobs, SERVICE, 1000, i);
    assert i in here.db.jobs;
    longer := TellClaim(story, here, 1000, 1000, SERVICE, i, taken);
    longer := TellReport(longer, taken, 1000, 1000, SERVICE, i, Working());
    assert here.db.jobs[i := granted][i := started] == here.db.jobs[i := started];
    longer := TellReport(longer, runs, 1000, 1000, SERVICE, i, DONE);
    assert here.db.jobs[i := started][i := ended] == here.db.jobs[i := ended];
  }

  /** The poll loop is handed refresh r and starts it. */
  lemma TellHanded(story: Story, here: System, before: Time, now: Time, r: JobId, j: Job, running: Job)
    returns (longer: Story)
    requires Told(story, before, here) && before <= now && here.orch == Idle
    requires OnOffer(here.db.jobs, SERVICE, now, r) && here.db.jobs[r] == j
    requires j.jobType == Refresh && j.params.deployment.Some? && j.params.source.Some?
    requires running == Applied(Grant(j, SERVICE, now, CFG), Working(), now, CFG)
    ensures Told(longer, now, WithRow(here, r, running).(orch := Requesting(r, false), handed := {}))
  {
    hide Told, JobQueue.ClaimAnswers, OnOffer;
    var granted := Grant(j, SERVICE, now, CFG);
    var taken := WithRow(here, r, granted).(handed := {r});
    EarliestIsAnswer(here.db.jobs, SERVICE, now, r);
    assert r in here.db.jobs;
    longer := TellClaim(story, here, before, now, SERVICE, r, taken);
    longer := TellStart(longer, taken, now, r);
    assert here.db.jobs[r := granted][r := running] == here.db.jobs[r := running] && {r} - {r} == {};
  }

  /** Back again, its poll loop is handed the update's install job and runs it, */
  lemma Chapter7() returns (story: Story)
    ensures Told(story, 1000, Five(LAPSED, ORIGINAL_SIGNED, UPDATE_INSTALLED, INSTALL_ORIGINAL, Idle, {},
        map[3 := Named(0)]))
  {
    hide Told, WithRow, Applied, Grant, Requeued, NewRow, SignRow, InstallRow, OnOffer;
    SignRowsLook();
    InstallRowsLook();
    RefreshRowsLook();
    story := Chapter6();
    var here := Five(LAPSED, ORIGINAL_SIGNED, INSTALL_UPDATE, INSTALL_ORIGINAL, Idle, {}, map[]);
    Offers(here, 1000, 3);
    story := TellRun(story, here, 3, INSTALL_UPDATE, UPDATE_INSTALLED, 0);
    FiveRows(LAPSED, ORIGINAL_SIGNED, INSTALL_UPDATE, INSTALL_ORIGINAL, Idle, {}, map[], UPDATE_INSTALLED);
  }

  const BOTH: map<JobId, Put> := map[3 := Named(0), 4 := Named(1)]

  /** and then the original's. */
  lemma Chapter8() returns (story: Story)
    ensures Told(story, 1000, Late(LAPSED, Idle, {}))
  {
    hide Told, WithRow, Applied, Grant, Requeued, NewRow, SignRow, InstallRow, OnOffer;
    SignRowsLook();
    InstallRowsLook();
    RefreshRowsLook();
    story := Chapter7();
    var put: map<JobId, Put> := map[3 := Named(0)];
    var here := Five(LAPSED, ORIGINAL_SIGNED, UPDATE_INSTALLED, INSTALL_ORIGINAL, Idle, {}, put);
    Offers(here, 1000, 4);
    story := TellRun(story, here, 4, INSTALL_ORIGINAL, ORIGINAL_INSTALLED, 1);
    FiveRows(LAPSED, ORIGINAL_SIGNED, UPDATE_INSTALLED, INSTALL_ORIGINAL, Idle, {}, put, ORIGINAL_INSTALLED);
    assert put[4 := Named(1)] == BOTH;
  }

  function Late(a: Job, orch: Orchestrator, handed: set<JobId>): System {
    Five(a, ORIGINAL_SIGNED, UPDATE_INSTALLED, ORIGINAL_INSTALLED, orch, handed, BOTH)
  }

  /** Now the refresh is due again, and the service starts over. */
  lemma Chapter9() returns (story: Story)
    ensures Told(story, 2000, Late(RESUMED, Requesting(0, false), {}))
  {
    hide Told, WithRow, Applied, Grant, Requeued, NewRow, SignRow, InstallRow, OnOffer;
    SignRowsLook();
    InstallRowsLook();
    RefreshRowsLook();
    story := Chapter8();
    Offers(Late(LAPSED, Idle, {}), 2000, 0);
    story := TellHanded(story, Late(LAPSED, Idle, {}), 1000, 2000, 0, LAPSED, RESUMED);
    FiveRows(LAPSED, ORIGINAL_SIGNED, UPDATE_INSTALLED, ORIGINAL_INSTALLED, Idle, {}, BOTH, RESUMED);
  }

  lemma FindsTheUpdate(db: Db)
    requires db == Late(RESUMED, Idle, {}).db
    ensures Insert(db, SIGN_UPDATE) == (db, 1)
  {
    assert SIGN_UPDATE.key == RefreshSignKey(0, 2);
  }

  /** The update is still listed, and by now it is signed. */
  lemma Chapter10() returns (story: Story)
    ensures Told(story, 2000, Late(RESUMED, Signed(0, 1, 0), {}))
  {
    hide Told, WithRow, Applied, Grant, Requeued, NewRow, SignRow, InstallRow, LoadContext, Insert;
    SignRowsLook();
    InstallRowsLook();
    RefreshRowsLook();
    story := Chapter9();
    LoadsTheUpdate(Late(RESUMED, Requesting(0, false), {}).db);
    FindsTheUpdate(Late(RESUMED, Requesting(0, false), {}).db);
    story := TellRequest(story, Late(RESUMED, Requesting(0, false), {}), 2000, 0, false, SIGN_UPDATE);
    story := TellPoll(story, Late(RESUMED, Awaiting(0, 1, true), {}), 2000, 0, 1, Signed(0, 1, 0));
  }

  lemma ResolvesNewest(db: Db, s: JobId, g: SignedId, signed: set<SignedId>)
    requires LoadContext(db, 0, ENV) == Ok(CONTEXT)
    requires s in SignChildren(db, 0) && forall x :: x in SignChildren(db, 0) ==> x <= s
    requires db.jobs[s].state == Completed && db.jobs[s].result == Reported(None, Some(g), None) && g in signed
    ensures ResolveSigned(db, 0, ENV, signed) == Ok((CONTEXT, g))
  {
    hide LoadContext;
  }

  /** But ensure-install goes by the newest sign child, which is the original's. */
  lemma ResolvesTheOriginal(db: Db)
    requires db == Late(RESUMED, Idle, {}).db
    ensures ResolveSigned(db, 0, ENV, {0, 1}) == Ok((CONTEXT, 1))
  {
    hide LoadContext, ResolveSigned, Applied, Grant, Requeued, NewRow, SignRow, InstallRow;
    SignRowsLook();
    InstallRowsLook();
    RefreshRowsLook();
    LoadsTheUpdate(db);
    ResolvesNewest(db, 2, 1, {0, 1});
  }

  /** The original's install job is completed: nothing is left to install. */
  lemma Chapter11() returns (story: Story)
    ensures Told(story, 2000, Late(RESUMED, Completing(0, 1, 0, 4, None), {}))
  {
    hide Told, WithRow, Applied, Grant, Requeued, NewRow, SignRow, InstallRow, ResolveSigned;
    SignRowsLook();
    InstallRowsLook();
    RefreshRowsLook();
    story := Chapter10();
    ResolvesTheOriginal(Late(RESUMED, Idle, {}).db);
    story := TellEnsured(story, Late(RESUMED, Signed(0, 1, 0), {}), 2000, 0, 1, 0, 1, 4);
  }

  const REPORT := CompletionReport(0, 4, None)

  /** With automatic updates on, some story ends with a refresh recorded as having
      installed artifact 0, the update, by a job that put artifact 1 on the device. */
  lemma RecordedIsNotInstalled() returns (story: Story)
    ensures Possible(START, story, PARTY) && ClaimsAreAnswers(START, story, PARTY) && InOrder(story)
    ensures var end := After(START, story, PARTY);
            && 0 in end.db.jobs && end.db.jobs[0].jobType == Refresh && end.db.jobs[0].state == Completed
            && 0 in end.db.records && end.db.records[0].signed == Some(0) && end.db.records[0].installJob == Some(4)
            && 4 in end.installed && end.installed[4] == Named(1)
            && InstallOf(end.db, 0, 4, 1) && end.db.jobs[4].state == Completed
  {
    hide Possible, After, Updated, ClaimsAreAnswers;
    story := Chapter11();
    LastWrites(Late(RESUMED, Idle, {}).db);
    story := TellComplete(story, Late(RESUMED, Completing(0, 1, 0, 4, None), {}), 2000);
  }

  lemma LastWrites(db: Db)
    requires db == Late(RESUMED, Idle, {}).db
    ensures var after := Updated(db, SERVICE, 0, REPORT, 2000, CFG);
            && after.jobs == db.jobs[0 := Applied(RESUMED, REPORT, 2000, CFG)]
            && 0 in after.records && after.records[0].signed == Some(0) && after.records[0].installJob == Some(4)
  {
    UpdatedRows(db, SERVICE, 0, REPORT, 2000, CFG);
  }
}
