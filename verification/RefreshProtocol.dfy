/** The refresh workflow as a protocol over the queue: the scheduler, the signing
    worker, the reaper and every other agent run queue transactions in any order,
    while the same-host device service walks through `_run_refresh_ios`
    (`scripts/sidey-device.py`), any call of which may fail, go unanswered or be
    cut short by a crash. */
module RefreshProtocol {
  import opened Prelude
  import opened JobRows
  import opened JobRuns
  import opened DeviceRefresh

  /** Where the orchestrator is, and what it remembers. It handles one refresh at
      a time; a crash forgets everything. */
  datatype Orchestrator =
    | Idle
    | Starting(r: JobId)
    | Requesting(r: JobId, fallback: bool)
    | Awaiting(r: JobId, sign: JobId, mayFallBack: bool)
    | Signed(r: JobId, sign: JobId, g: SignedId)
    | Claiming(r: JobId, sign: JobId, g: SignedId, install: JobId)
    | Installing(r: JobId, sign: JobId, g: SignedId, install: JobId)
    | Completing(r: JobId, sign: JobId, g: SignedId, install: JobId, expiry: Option<Time>)
    | Failing(r: JobId, category: Option<Category>)

  /** The artifact the run that completed an install job had put on the device:
      the one the job names, when the poll loop or another agent ran it, or the one
      an orchestrator had awaited, which it downloads when it runs the job itself. */
  datatype Put = Named(signed: SignedId) | Awaited(signed: SignedId)

  /** `handed`: refreshes the last claim of the poll loop returned and that it has
      not run yet; a crash forgets them. `installed`: by install job, what its
      completed run put on the device. */
  datatype System = System(
    db: Db,
    signed: set<SignedId>,
    nextSigned: SignedId,
    orch: Orchestrator,
    handed: set<JobId>,
    installed: map<JobId, Put>)

  /** The device service's agent id, and the deployments whose operator allowed
      automatic updates. */
  datatype Party = Party(cfg: Config, service: AgentId, autoUpdate: set<DeploymentId>)

  datatype Action =
    | Queue(event: Event)                    // anyone's queue transaction
    | Upload(job: JobId, device: DeviceId)   // a signed-artifact upload for a refresh's sign job
    | Prune(gone: set<SignedId>)             // retention drops signed_artifacts rows
    | Pick(refresh: JobId)
    | Begin(answered: bool)
    | RequestSign(env: Env, answered: bool)
    | Poll
    | SignDeadline
    | EnsureInstall(env: Env)                // the call's insert
    | ClaimInstall(answered: bool)           // its ClaimSpecific, and the answer
    | Report(ok: bool, why: Category, expiry: Option<Time>, answered: bool)
    | CompleteRefresh
    | FailRefresh
    | Heartbeat
    | Trouble(why: Category)                 // any exception on the way
    | Crash

  datatype Timed = AtTime(now: Time, action: Action)

  predicate WorkflowKey(k: Key) { k.RefreshSignKey? || k.RefreshInstallKey? }

  /** What the others may do: only the two workflow endpoints and the upload make
      workflow rows, only the device service claims refreshes and only its
      orchestrator reports on them (though its heartbeats may come late, on a
      refresh it has long given up, and so may the claim of an ensure-install call
      it no longer waits for), and nobody deletes workflow rows. */
  predicate Permitted(db: Db, e: Event, p: Party) {
    match e
    case Creates(row) => Newborn(row) && !WorkflowKey(row.key) && !(row.jobType == Sign && row.parent.Some?)
    case Claims(agent, ids) =>
      agent != p.service ==> forall id :: id in ids && id in db.jobs ==> db.jobs[id].jobType != Refresh
    case ClaimsOne(agent, id) => agent == p.service && id in db.jobs && db.jobs[id].key.RefreshInstallKey?
    case Updates(agent, id, req) => agent == p.service ==> id in db.jobs ==>
        db.jobs[id].jobType != Refresh || req == Working()
    case Reaps(_) => true
    case Deletes(key) => !WorkflowKey(key)
    case Purges(key) => key.ExportKey?
  }

  predicate EnvFits(env: Env, p: Party) { env.updates.Keys <= p.autoUpdate }

  predicate CanHappen(sys: System, t: Timed, p: Party) {
    match t.action
    case Queue(e) => Enabled(sys.db, At(t.now, e)) && Permitted(sys.db, e, p)
    case Upload(job, _) =>
      job in sys.db.jobs && sys.db.jobs[job].jobType == Sign
      && sys.db.jobs[job].parent.Some? && sys.db.jobs[job].params.refreshJob.Some?
    case Prune(_) => true
    case Pick(r) => sys.orch.Idle? && r in sys.handed
    case Begin(_) => sys.orch.Starting?
    case RequestSign(env, _) => sys.orch.Requesting? && EnvFits(env, p)
    case Poll => sys.orch.Awaiting?
    case SignDeadline => sys.orch.Awaiting?
    case EnsureInstall(env) => sys.orch.Signed? && EnvFits(env, p)
    case ClaimInstall(_) => sys.orch.Claiming?
    case Report(_, _, _, _) => sys.orch.Installing?
    case CompleteRefresh => sys.orch.Completing?
    case FailRefresh => sys.orch.Failing?
    case Heartbeat => !sys.orch.Idle?
    case Trouble(_) => !sys.orch.Idle? && !sys.orch.Starting?
    case Crash => true
  }

  function Working(): UpdateRequest { UpdateRequest(Known(InProgress), None, false, NoResult) }

  function FailureReport(category: Option<Category>): UpdateRequest {
    UpdateRequest(Known(Failed), category, true, Reported(None, None, None))
  }

  function InstallReport(ok: bool, why: Category, expiry: Option<Time>): UpdateRequest {
    if ok then UpdateRequest(Known(Completed), None, false, Reported(expiry, None, None))
    else UpdateRequest(Known(Failed), Some(why), true, NoResult)
  }

  function CompletionReport(g: SignedId, install: JobId, expiry: Option<Time>): UpdateRequest {
    UpdateRequest(Known(Completed), None, false, Reported(expiry, Some(g), Some(install)))
  }

  /** The install child an ensure-install call inserts, or finds under its key. */
  function EnsuredRow(sys: System, env: Env): Job
    requires sys.orch.Signed? && ResolveSigned(sys.db, sys.orch.r, env, sys.signed).Ok?
  {
    var (rc, g) := ResolveSigned(sys.db, sys.orch.r, env, sys.signed).value;
    InstallRow(sys.orch.r, rc.device, rc.deployment, g, DEFAULT_MAX_ATTEMPTS)
  }

  /** The queue transactions an action runs, in order. */
  function Transactions(sys: System, t: Timed, p: Party): seq<Event> {
    match t.action
    case Queue(e) => [e]
    case Upload(job, device) =>
      var s := if job in sys.db.jobs then sys.db.jobs[job]
          else NewRow(Sign, None, Params(None, None, None, None), PlainKey(""), None, 0, None);
      if s.params.refreshJob.Some? then
        [Creates(InstallRow(s.params.refreshJob.value, device, s.params.deployment, sys.nextSigned,
            3).(parent := s.parent))]
      else []
    case Begin(_) => if sys.orch.Starting? then [Updates(p.service, sys.orch.r, Working())] else []
    case RequestSign(env, _) =>
      if sys.orch.Requesting? && LoadContext(sys.db, sys.orch.r, env).Ok?
      then [Creates(SignRow(sys.orch.r, LoadContext(sys.db, sys.orch.r, env).value, sys.orch.fallback))] else []
    case EnsureInstall(env) =>
      if sys.orch.Signed? && ResolveSigned(sys.db, sys.orch.r, env, sys.signed).Ok?
      then [Creates(EnsuredRow(sys, env))] else []
    case ClaimInstall(_) => if sys.orch.Claiming? then [ClaimsOne(p.service, sys.orch.install)] else []
    case Report(ok, why, expiry, _) =>
      if sys.orch.Installing? then [Updates(p.service, sys.orch.install, InstallReport(ok, why, expiry))] else []
    case CompleteRefresh =>
      if sys.orch.Completing?
      then [Updates(p.service, sys.orch.r, CompletionReport(sys.orch.g, sys.orch.install, sys.orch.expiry))] else []
    case FailRefresh => if sys.orch.Failing? then [Updates(p.service, sys.orch.r, FailureReport(sys.orch.category))]
        else []
    case Heartbeat => if sys.orch.Idle? then [] else [Updates(p.service, sys.orch.r, Working())]
    case _ => []
  }

  function Apply(db: Db, now: Time, events: seq<Event>, cfg: Config): Db
    decreases |events|
  {
    if events == [] then db else Apply(Step(db, At(now, events[0]), cfg), now, events[1..], cfg)
  }

  /** What the orchestrator makes of the answer. */
  function NextOrch(sys: System, t: Timed, p: Party): Orchestrator {
    var o := sys.orch;
    var other := Some(OtherCategory("other"));
    match t.action
    case Pick(r) => Starting(r)
    case Begin(answered) =>
      if !o.Starting? then o
      else if Refusal(sys.db, p.service, o.r, Working()).Some? || !answered then Idle
      else if o.r in sys.db.jobs && sys.db.jobs[o.r].params.source.None? then Failing(o.r, other)
      else Requesting(o.r, false)
    case RequestSign(env, answered) =>
      if !o.Requesting? then o
      else
        var reply := SignChild(sys.db, o.r, env, o.fallback).1;
        if reply.Err? || !answered then Failing(o.r, other)
        else Awaiting(o.r, reply.value.signJob, !o.fallback && reply.value.updateAttempted)
    case Poll =>
      if !o.Awaiting? || o.sign !in sys.db.jobs then o
      else
        var s := sys.db.jobs[o.sign];
        if s.state == Completed then
          if s.result.Reported? && s.result.signedArtifact.Some? then Signed(o.r, o.sign, s.result.signedArtifact.value)
          else if o.mayFallBack then Requesting(o.r, true) else Failing(o.r, other)
        else if s.state == Failed || s.state == Dead then
          if o.mayFallBack then Requesting(o.r, true)
          else Failing(o.r, if s.category.Some? then s.category else Some(OtherCategory("sign_failed")))
        else o
    case SignDeadline =>
      if !o.Awaiting? then o else if o.mayFallBack then Requesting(o.r, true) else Failing(o.r, other)
    case EnsureInstall(env) =>
      if !o.Signed? then o
      else if ResolveSigned(sys.db, o.r, env, sys.signed).Err? then Failing(o.r, other)
      else Claiming(o.r, o.sign, o.g, Insert(sys.db, EnsuredRow(sys, env)).1)
    case ClaimInstall(answered) =>
      if !o.Claiming? then o
      else
        var reply := ClaimOne(sys.db, p.service, o.install, t.now, p.cfg).1;
        if reply.Err? || !answered then Failing(o.r, other)
        else if reply.value.state == Completed
        then Completing(o.r, o.sign, o.g, o.install,
                        if reply.value.result.Reported? then reply.value.result.profileExpiry else None)
        else Installing(o.r, o.sign, o.g, o.install)
    case Report(ok, why, expiry, answered) =>
      if !o.Installing? then o
      else if Refusal(sys.db, p.service, o.install, InstallReport(ok, why, expiry)).Some?
          || !answered then Failing(o.r, other)
      else if ok then Completing(o.r, o.sign, o.g, o.install, expiry)
      else Failing(o.r, Some(why))
    case CompleteRefresh => Idle
    case FailRefresh => Idle
    case Trouble(why) => if o.Idle? then o else Failing(o.r, Some(why))
    case Crash => Idle
    case _ => o
  }

  /** What the poll loop has in hand: a claim it waited for replaces the batch. */
  function NextHanded(sys: System, t: Timed, p: Party): set<JobId> {
    match t.action
    case Queue(Claims(agent, ids)) =>
      if agent == p.service && sys.orch.Idle?
      then set id | id in ids && id in sys.db.jobs && sys.db.jobs[id].jobType == Refresh else sys.handed
    case Pick(r) => sys.handed - {r}
    case Crash => {}
    case _ => sys.handed
  }

  /** What an accepted completion of an install job says was put on the device. */
  function NextInstalled(sys: System, t: Timed, p: Party): map<JobId, Put> {
    match t.action
    case Queue(Updates(agent, id, req)) =>
      if id in sys.db.jobs && sys.db.jobs[id].jobType == Install && sys.db.jobs[id].params.signedArtifact.Some?
         && req.state == Known(Completed) && Refusal(sys.db, agent, id, req).None?
      then sys.installed[id := Named(sys.db.jobs[id].params.signedArtifact.value)] else sys.installed
    case Report(ok, why, expiry, _) =>
      if sys.orch.Installing? && ok && Refusal(sys.db, p.service, sys.orch.install,
          InstallReport(ok, why, expiry)).None?
      then sys.installed[sys.orch.install := Awaited(sys.orch.g)] else sys.installed
    case _ => sys.installed
  }

  function Next(sys: System, t: Timed, p: Party): System {
    System(Apply(sys.db, t.now, Transactions(sys, t, p), p.cfg),
           match t.action
           case Upload(_, _) => sys.signed + {sys.nextSigned}
           case Prune(gone) => sys.signed - gone
           case _ => sys.signed,
           if t.action.Upload? then sys.nextSigned + 1 else sys.nextSigned,
           NextOrch(sys, t, p), NextHanded(sys, t, p), NextInstalled(sys, t, p))
  }

  type Story = seq<Timed>

  function After(sys: System, story: Story, p: Party): System {
    if story == [] then sys else Next(After(sys, story[..|story| - 1], p), story[|story| - 1], p)
  }

  predicate Possible(sys: System, story: Story, p: Party) {
    story == []
    || (Possible(sys, story[..|story| - 1], p) && CanHappen(After(sys, story[..|story| - 1], p), story[|story| - 1], p))
  }

  // ---------------------------------------------------------- what is kept

  /** A sign job with a parent is a refresh's sign child: keyed by the refresh and
      its source, which is the refresh's own source unless updates are allowed. */
  predicate ProperSign(db: Db, id: JobId, p: Party)
    requires id in db.jobs
  {
    var j := db.jobs[id];
    j.jobType == Sign && j.parent.Some? ==>
      var r := j.parent.value;
      && j.params.refreshJob == Some(r) && j.params.source.Some?
      && j.key == RefreshSignKey(r, j.params.source.value.head)
      && r in db.jobs && db.jobs[r].jobType == Refresh
      && (NoUpdates(db, r, p) ==> j.params.source == db.jobs[r].params.source)
  }

  predicate NoUpdates(db: Db, r: JobId, p: Party)
    requires r in db.jobs
  {
    db.jobs[r].params.deployment.Some? ==> db.jobs[r].params.deployment.value !in p.autoUpdate
  }

  /** A row under a workflow key is the row that key is for. */
  predicate ProperKey(db: Db, id: JobId)
    requires id in db.jobs
  {
    match db.jobs[id].key
    case RefreshSignKey(r, _) => db.jobs[id].jobType == Sign && r < db.nextId
        && (r in db.jobs ==> db.jobs[id].parent == Some(r))
    case RefreshInstallKey(r, g) => db.jobs[id].jobType == Install && db.jobs[id].params.signedArtifact == Some(g)
    case _ => true
  }

  predicate ProperHolder(db: Db, id: JobId, p: Party)
    requires id in db.jobs
  {
    db.jobs[id].jobType == Refresh && db.jobs[id].claimedBy.Some? ==> db.jobs[id].claimedBy == Some(p.service)
  }

  ghost predicate Proper(db: Db, p: Party) {
    && WellFormed(db)
    && forall id :: id in db.jobs ==> ProperSign(db, id, p) && ProperKey(db, id) && ProperHolder(db, id, p)
  }

  /** A transaction that keeps the tables proper, whoever runs it. */
  predicate Sound(db: Db, e: Event, p: Party) {
    match e
    case Creates(row) =>
      && Newborn(row)
      && (row.jobType == Sign && row.parent.Some? ==>
            && row.params.refreshJob == row.parent && row.params.source.Some?
            && row.key == RefreshSignKey(row.parent.value, row.params.source.value.head)
            && row.parent.value in db.jobs && db.jobs[row.parent.value].jobType == Refresh
            && (NoUpdates(db, row.parent.value, p) ==> row.params.source == db.jobs[row.parent.value].params.source))
      && (row.key.RefreshSignKey? ==> row.jobType == Sign && row.parent == Some(row.key.refresh))
      && (row.key.RefreshInstallKey? ==> row.jobType == Install && row.params.signedArtifact == Some(row.key.signed))
    case Claims(agent, ids) =>
      agent != p.service ==> forall id :: id in ids && id in db.jobs ==> db.jobs[id].jobType != Refresh
    case ClaimsOne(agent, id) => agent != p.service ==> id in db.jobs ==> db.jobs[id].jobType != Refresh
    case Deletes(key) => !WorkflowKey(key)
    case Purges(key) => key.ExportKey?
    case _ => true
  }

  /** Type, parameters and key never change; a parent link is at most cleared. */
  lemma RowKeeps(db: Db, s: Stamped, cfg: Config, id: JobId)
    requires WellFormed(db) && id in db.jobs && id in Step(db, s, cfg).jobs
    ensures var j, after := db.jobs[id], Step(db, s, cfg).jobs[id];
            && after.jobType == j.jobType && after.params == j.params && after.key == j.key
            && (after.parent == j.parent || (Removes(s) && after.parent.None?))
            && (after.claimedBy == j.claimedBy || after.claimedBy.None?
                || (s.event.Claims? && id in s.event.ids && after.claimedBy == Some(s.event.agent))
                || (s.event.ClaimsOne? && id == s.event.id && after.claimedBy == Some(s.event.agent)))
  {
    hide Step;
    RowStep(db, s, cfg, id);
  }

  lemma ReleasedParents(db: Db, key: Key, id: JobId)
    requires WellFormed(db) && id in db.jobs && db.jobs[id].parent.Some? && db.jobs[id].parent.value in db.jobs
    ensures var after := Released(db, key).jobs;
            id in after ==> after[id].parent == if db.jobs[id].parent.value in after then db.jobs[id].parent else None
  {
  }

  lemma PurgedParents(db: Db, key: Key, id: JobId)
    requires WellFormed(db) && id in db.jobs && db.jobs[id].parent.Some? && db.jobs[id].parent.value in db.jobs
    ensures var after := Purged(db, key).jobs;
            id in after ==> after[id].parent == if db.jobs[id].parent.value in after then db.jobs[id].parent else None
  {
  }

  /** Deleting a row clears its children's links; nothing else deletes. */
  lemma ParentsStay(db: Db, s: Stamped, cfg: Config, id: JobId)
    requires WellFormed(db) && id in Step(db, s, cfg).jobs && id in db.jobs && db.jobs[id].parent.Some?
    requires db.jobs[id].parent.value in db.jobs
    ensures var after := Step(db, s, cfg).jobs;
            after[id].parent == if db.jobs[id].parent.value in after then db.jobs[id].parent else None
  {
    hide RowAfter, Released, Purged, Insert, GrantAll, ClaimOne, Updated, ReapAll, WellFormed, Shaped;
    if s.event.Deletes? {
      ReleasedParents(db, s.event.key, id);
    } else if s.event.Purges? {
      PurgedParents(db, s.event.key, id);
    } else {
      RowKeeps(db, s, cfg, id);
      NoDeletes(db, s, cfg, db.jobs[id].parent.value);
    }
  }

  lemma NoDeletes(db: Db, s: Stamped, cfg: Config, id: JobId)
    requires WellFormed(db) && id in db.jobs && !Removes(s)
    ensures id in Step(db, s, cfg).jobs
  {
    hide Step;
    RowStep(db, s, cfg, id);
  }

  lemma ProperStep(db: Db, s: Stamped, p: Party)
    requires Proper(db, p) && Enabled(db, s) && Sound(db, s.event, p)
    ensures Proper(Step(db, s, p.cfg), p)
  {
    hide Step, WellFormed;
    var after := Step(db, s, p.cfg);
    StepWellFormed(db, s, p.cfg);
    StepKeepsSequence(db, s, p.cfg);
    forall id | id in after.jobs
      ensures ProperSign(after, id, p) && ProperKey(after, id) && ProperHolder(after, id, p)
    {
      if id in db.jobs {
        OldRowStaysProper(db, s, p, id);
      } else {
        NewRowIsProper(db, s, p, id);
      }
    }
  }

  lemma OldRowStaysProper(db: Db, s: Stamped, p: Party, id: JobId)
    requires Proper(db, p) && Sound(db, s.event, p)
    requires id in db.jobs && id in Step(db, s, p.cfg).jobs
    ensures var after := Step(db, s, p.cfg);
            ProperSign(after, id, p) && ProperKey(after, id) && ProperHolder(after, id, p)
  {
    hide Step, WellFormed;
    var after := Step(db, s, p.cfg);
    RowKeeps(db, s, p.cfg, id);
    StepKeepsSequence(db, s, p.cfg);
    assert ProperSign(db, id, p) && ProperKey(db, id) && ProperHolder(db, id, p);
    if db.jobs[id].parent.Some? && db.jobs[id].parent.value in db.jobs {
      ParentsStay(db, s, p.cfg, id);
      if db.jobs[id].parent.value in after.jobs { RowKeeps(db, s, p.cfg, db.jobs[id].parent.value); }
    }
    if db.jobs[id].key.RefreshSignKey? && db.jobs[id].key.refresh !in db.jobs {
      NeverReturns(db, s, p.cfg, db.jobs[id].key.refresh);
    }
  }

  lemma NeverReturns(db: Db, s: Stamped, cfg: Config, id: JobId)
    requires WellFormed(db) && id !in db.jobs && id < db.nextId
    ensures id !in Step(db, s, cfg).jobs
  {
    hide Step;
    NewRowStep(db, s, cfg, id);
  }

  lemma NewRowIsProper(db: Db, s: Stamped, p: Party, id: JobId)
    requires Proper(db, p) && Sound(db, s.event, p)
    requires id !in db.jobs && id in Step(db, s, p.cfg).jobs
    ensures var after := Step(db, s, p.cfg);
            ProperSign(after, id, p) && ProperKey(after, id) && ProperHolder(after, id, p)
  {
    hide Step, WellFormed;
    NewRowStep(db, s, p.cfg, id);
    var row := s.event.row;
    if row.parent.Some? && row.parent.value in db.jobs {
      NoDeletes(db, s, p.cfg, row.parent.value);
      RowKeeps(db, s, p.cfg, row.parent.value);
      RowBelow(db, row.parent.value);
    }
  }

  lemma RowBelow(db: Db, id: JobId)
    requires WellFormed(db) && id in db.jobs
    ensures id < db.nextId
  {
  }
}
