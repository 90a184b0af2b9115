/** What every story of the refresh protocol keeps. */
module RefreshSafety {
  import opened Prelude
  import opened JobRows
  import opened JobRuns
  import opened DeviceRefresh
  import opened RefreshProtocol

  predicate SignKeyed(db: Db, r: JobId, s: JobId) {
    s in db.jobs && db.jobs[s].jobType == Sign && db.jobs[s].key.RefreshSignKey? && db.jobs[s].key.refresh == r
  }

  /** s is a sign child of refresh r that completed with signed artifact g. */
  predicate SignedBy(db: Db, r: JobId, s: JobId, g: SignedId) {
    && SignKeyed(db, r, s) && db.jobs[s].state == Completed
    && db.jobs[s].result.Reported? && db.jobs[s].result.signedArtifact == Some(g)
  }

  /** i is refresh r's install child for signed artifact g. */
  predicate InstallOf(db: Db, r: JobId, i: JobId, g: SignedId) {
    i in db.jobs && db.jobs[i].jobType == Install && db.jobs[i].key == RefreshInstallKey(r, g)
    && db.jobs[i].params.signedArtifact == Some(g)
  }

  /** i is an install child of r for some completed sign child's artifact. */
  ghost predicate InstallChosen(db: Db, r: JobId, i: JobId) {
    exists s, g :: SignedBy(db, r, s, g) && InstallOf(db, r, i, g)
  }

  /** What the orchestrator remembers is true of the tables. */
  ghost predicate Knows(db: Db, o: Orchestrator) {
    match o
    case Awaiting(r, s, _) => SignKeyed(db, r, s)
    case Signed(r, s, g) => SignedBy(db, r, s, g)
    case Claiming(r, s, g, i) => SignedBy(db, r, s, g) && InstallChosen(db, r, i)
    case Installing(r, s, g, i) => SignedBy(db, r, s, g) && InstallChosen(db, r, i)
    case Completing(r, s, g, i, _) => SignedBy(db, r, s, g) && InstallChosen(db, r, i) && db.jobs[i].state == Completed
    case _ => true
  }

  /** Refresh r was completed on the strength of a completed sign child, whose
      artifact it reports, and a completed install child, which it reports. */
  ghost predicate Earned(db: Db, r: JobId)
    requires r in db.jobs
  {
    exists s, g, i :: EarnedBy(db, r, s, g, i)
  }

  ghost predicate EarnedBy(db: Db, r: JobId, s: JobId, g: SignedId, i: JobId)
    requires r in db.jobs
  {
    && SignedBy(db, r, s, g) && InstallChosen(db, r, i) && db.jobs[i].state == Completed
    && db.jobs[r].result.Reported?
    && db.jobs[r].result.signedArtifact == Some(g) && db.jobs[r].result.installJob == Some(i)
  }

  ghost predicate AllEarned(db: Db) {
    forall r :: r in db.jobs && db.jobs[r].jobType == Refresh && db.jobs[r].state == Completed ==> Earned(db, r)
  }

  ghost predicate Inv(sys: System, p: Party) {
    Proper(sys.db, p) && AllEarned(sys.db) && Knows(sys.db, sys.orch)
  }

  // ------------------------------------------------------------ persistence

  /** No row changes type, key or parameters, and no id is used twice; workflow
      rows stay, and completed ones keep state and result. */
  ghost predicate Persists(db: Db, after: Db) {
    && db.nextId <= after.nextId
    && (forall id :: id in db.jobs ==> id < after.nextId)
    && (forall id :: id in after.jobs && id < db.nextId ==> id in db.jobs)
    && (forall id :: id in after.jobs && id in db.jobs ==> SameOrder(db.jobs[id], after.jobs[id]))
    && (forall id :: id in db.jobs && WorkflowKey(db.jobs[id].key) ==>
        id in after.jobs && StaysDone(db.jobs[id], after.jobs[id]))
  }

  predicate SameOrder(j: Job, after: Job) {
    after.jobType == j.jobType && after.key == j.key && after.params == j.params
  }

  predicate StaysDone(j: Job, after: Job) {
    j.state == Completed ==> after.state == Completed && after.result == j.result
  }

  lemma WorkflowRowStays(db: Db, s: Stamped, p: Party, id: JobId)
    requires Proper(db, p) && Sound(db, s.event, p)
    requires s.event.Claims? && id in s.event.ids && id in db.jobs ==> db.jobs[id].state == Pending
    requires id in db.jobs && WorkflowKey(db.jobs[id].key)
    ensures id in Step(db, s, p.cfg).jobs && StaysDone(db.jobs[id], Step(db, s, p.cfg).jobs[id])
  {
    hide Step, WellFormed;
    RowStep(db, s, p.cfg, id);
  }

  lemma PersistsStep(db: Db, s: Stamped, p: Party)
    requires Proper(db, p) && Enabled(db, s) && Sound(db, s.event, p)
    ensures Persists(db, Step(db, s, p.cfg))
  {
    hide Step, WellFormed, Sound, ProperSign, ProperKey, ProperHolder, StaysDone;
    var after := Step(db, s, p.cfg);
    StepKeepsSequence(db, s, p.cfg);
    forall id | id in db.jobs ensures id < after.nextId { RowBelow(db, id); }
    forall id | id in after.jobs && id < db.nextId ensures id in db.jobs {
      if id !in db.jobs { NeverReturns(db, s, p.cfg, id); }
    }
    forall id | id in after.jobs && id in db.jobs
      ensures SameOrder(db.jobs[id], after.jobs[id])
    {
      RowKeeps(db, s, p.cfg, id);
    }
    forall id | id in db.jobs && WorkflowKey(db.jobs[id].key)
      ensures id in after.jobs && StaysDone(db.jobs[id], after.jobs[id])
    {
      WorkflowRowStays(db, s, p, id);
    }
  }

  lemma PersistentFacts(db: Db, after: Db, r: JobId)
    requires Persists(db, after)
    ensures forall s :: SignKeyed(db, r, s) ==> SignKeyed(after, r, s)
    ensures forall s, g :: SignedBy(db, r, s, g) ==> SignedBy(after, r, s, g)
    ensures forall i, g :: InstallOf(db, r, i, g) ==> InstallOf(after, r, i, g)
  {
  }

  lemma Choose(db: Db, r: JobId, s: JobId, g: SignedId, i: JobId)
    requires SignedBy(db, r, s, g) && InstallOf(db, r, i, g)
    ensures InstallChosen(db, r, i)
  {
  }

  lemma ChosenPersists(db: Db, after: Db, r: JobId, i: JobId)
    requires Persists(db, after) && InstallChosen(db, r, i)
    ensures InstallChosen(after, r, i)
    ensures db.jobs[i].state == Completed ==> after.jobs[i].state == Completed
  {
    hide Persists, SignKeyed, SignedBy, InstallOf;
    PersistentFacts(db, after, r);
    var s, g :| SignedBy(db, r, s, g) && InstallOf(db, r, i, g);
    assert SignedBy(after, r, s, g) && InstallOf(after, r, i, g);
    InstallStays(db, after, r, i, g);
  }

  lemma InstallStays(db: Db, after: Db, r: JobId, i: JobId, g: SignedId)
    requires Persists(db, after) && InstallOf(db, r, i, g)
    ensures i in db.jobs && i in after.jobs
    ensures db.jobs[i].state == Completed ==> after.jobs[i].state == Completed
  {
  }

  lemma KnowledgePersists(db: Db, after: Db, o: Orchestrator)
    requires Persists(db, after) && Knows(db, o)
    ensures Knows(after, o)
  {
    hide Persists, InstallChosen;
    match o
    case Awaiting(r, _, _) => PersistentFacts(db, after, r);
    case Signed(r, _, _) => PersistentFacts(db, after, r);
    case Claiming(r, _, _, i) => PersistentFacts(db, after, r); ChosenPersists(db, after, r, i);
    case Installing(r, _, _, i) => PersistentFacts(db, after, r); ChosenPersists(db, after, r, i);
    case Completing(r, _, _, i, _) => PersistentFacts(db, after, r); ChosenPersists(db, after, r, i);
    case _ =>
  }

  lemma EarnedPersists(db: Db, after: Db, r: JobId)
    requires Persists(db, after) && r in db.jobs && r in after.jobs && Earned(db, r)
    requires after.jobs[r].result == db.jobs[r].result
    ensures Earned(after, r)
  {
    hide Persists, InstallChosen;
    var s, g, i :| EarnedBy(db, r, s, g, i);
    PersistentFacts(db, after, r);
    ChosenPersists(db, after, r, i);
    assert EarnedBy(after, r, s, g, i);
  }

  // --------------------------------------------------------- one transaction

  /** The transaction completes no refresh. */
  predicate Quiet(db: Db, e: Event, p: Party) {
    e.Updates? && e.agent == p.service && e.req.state == Known(Completed) ==>
      e.id in db.jobs ==> db.jobs[e.id].jobType != Refresh
  }

  /** A refresh becomes completed only by its holder's accepted report, whose
      result it keeps. */
  lemma HowRefreshesComplete(db: Db, s: Stamped, p: Party, r: JobId)
    requires Proper(db, p) && Enabled(db, s) && Sound(db, s.event, p)
    requires r in Step(db, s, p.cfg).jobs
    requires var j := Step(db, s, p.cfg).jobs[r]; j.jobType == Refresh && j.state == Completed
    ensures r in db.jobs && db.jobs[r].jobType == Refresh
    ensures var after := Step(db, s, p.cfg).jobs[r];
            if db.jobs[r].state == Completed then after.result == db.jobs[r].result
            else
              && s.event.Updates? && s.event.id == r && s.event.agent == p.service
                  && s.event.req.state == Known(Completed)
              && (s.event.req.result != NoResult ==> after.result == s.event.req.result)
  {
    hide Step, WellFormed;
    if r in db.jobs {
      RowStep(db, s, p.cfg, r);
      assert ProperHolder(db, r, p);
    } else {
      NewRowStep(db, s, p.cfg, r);
    }
  }

  /** No refresh is completed that was not completed before. */
  ghost predicate Uneventful(db: Db, after: Db) {
    forall r :: r in after.jobs && after.jobs[r].jobType == Refresh && after.jobs[r].state == Completed ==>
      r in db.jobs && db.jobs[r].jobType == Refresh && db.jobs[r].state == Completed
  }

  lemma QuietStep(db: Db, s: Stamped, p: Party)
    requires Proper(db, p) && AllEarned(db)
    requires Enabled(db, s) && Sound(db, s.event, p) && Quiet(db, s.event, p)
    ensures var after := Step(db, s, p.cfg);
            Proper(after, p) && AllEarned(after) && Persists(db, after) && Uneventful(db, after)
  {
    hide Step, WellFormed, Proper, Persists, Enabled, Sound, Earned;
    var after := Step(db, s, p.cfg);
    ProperStep(db, s, p);
    PersistsStep(db, s, p);
    forall r | r in after.jobs && after.jobs[r].jobType == Refresh && after.jobs[r].state == Completed
      ensures r in db.jobs && db.jobs[r].jobType == Refresh && db.jobs[r].state == Completed
      ensures Earned(after, r)
    {
      HowRefreshesComplete(db, s, p, r);
      EarnedPersists(db, after, r);
    }
  }

  // ------------------------------------------------------------- one action

  lemma InsertedRow(db: Db, row: Job, now: Time, cfg: Config)
    requires WellFormed(db)
    ensures var (after, id) := Insert(db, row);
            && after == Step(db, At(now, Creates(row)), cfg)
            && id in after.jobs && after.jobs[id].key == row.key
  {
  }

  lemma LoadedContext(db: Db, r: JobId, env: Env)
    ensures LoadContext(db, r, env).Ok? ==>
      var rc := LoadContext(db, r, env).value;
      && r in db.jobs && db.jobs[r].jobType == Refresh && db.jobs[r].params.source.Some?
      && (rc.updateFrom.Some? ==>
            && rc.updateFrom == db.jobs[r].params.source
            && db.jobs[r].params.deployment.Some? && db.jobs[r].params.deployment.value in env.updates)
      && (rc.updateFrom.None? ==> Some(rc.source) == db.jobs[r].params.source)
  {
  }

  /** The rows the workflow inserts are the ones their keys are for. */
  lemma WorkflowInsertsAreSound(sys: System, t: Timed, p: Party)
    requires Proper(sys.db, p) && CanHappen(sys, t, p)
    requires t.action.Upload? || t.action.RequestSign? || t.action.EnsureInstall?
    ensures forall e :: e in Transactions(sys, t, p) ==> e.Creates? && Sound(sys.db, e, p)
  {
    hide WellFormed;
    match t.action
    case Upload(job, device) =>
      assert ProperSign(sys.db, job, p);
    case RequestSign(env, _) => LoadedContext(sys.db, sys.orch.r, env);
    case EnsureInstall(env) =>
  }

  lemma ApplyOne(db: Db, now: Time, e: Event, p: Party)
    requires Proper(db, p) && AllEarned(db)
    requires Enabled(db, At(now, e)) && Sound(db, e, p) && Quiet(db, e, p)
    ensures Apply(db, now, [e], p.cfg) == Step(db, At(now, e), p.cfg)
    ensures var after := Apply(db, now, [e], p.cfg);
            Proper(after, p) && AllEarned(after) && Persists(db, after) && Uneventful(db, after)
  {
    hide Uneventful, Step, WellFormed, Proper, AllEarned, Persists, Enabled, Sound;
    QuietStep(db, At(now, e), p);
    assert [e][1..] == [];
    var after := Step(db, At(now, e), p.cfg);
    assert Apply(after, now, [], p.cfg) == after;
  }

  lemma PersistsChain(a: Db, b: Db, c: Db)
    requires Persists(a, b) && Persists(b, c)
    ensures Persists(a, c)
    ensures Uneventful(a, b) && Uneventful(b, c) ==> Uneventful(a, c)
  {
  }

  /** Every action but the completion itself keeps the tables proper, earns
      nothing undeserved and loses no workflow row. */
  lemma TablesKept(sys: System, t: Timed, p: Party)
    requires Inv(sys, p) && CanHappen(sys, t, p) && !t.action.CompleteRefresh?
    ensures var after := Next(sys, t, p).db;
            Proper(after, p) && AllEarned(after) && Persists(sys.db, after) && Uneventful(sys.db, after)
  {
    hide Uneventful, WellFormed, Proper, AllEarned, Persists, InstallChosen, LoadContext, ResolveSigned, Insert, Step;
    var events := Transactions(sys, t, p);
    match t.action {
      case Queue(e) =>
        ApplyOne(sys.db, t.now, e, p);
      case Upload(job, device) =>
        WorkflowInsertsAreSound(sys, t, p);
        ApplyOne(sys.db, t.now, events[0], p);
      case RequestSign(env, _) =>
        WorkflowInsertsAreSound(sys, t, p);
        if events != [] { ApplyOne(sys.db, t.now, events[0], p); } else { NothingHappens(sys.db, p); }
      case EnsureInstall(env) =>
        WorkflowInsertsAreSound(sys, t, p);
        if events != [] { ApplyOne(sys.db, t.now, events[0], p); } else { NothingHappens(sys.db, p); }
      case ClaimInstall(_) =>
        ApplyOne(sys.db, t.now, events[0], p);
      case Report(ok, why, expiry, _) =>
        InstallIsNoRefresh(sys.db, sys.orch.r, sys.orch.install);
        ApplyOne(sys.db, t.now, events[0], p);
      case Begin(_) =>
        ApplyOne(sys.db, t.now, events[0], p);
      case FailRefresh =>
        ApplyOne(sys.db, t.now, events[0], p);
      case Heartbeat =>
        ApplyOne(sys.db, t.now, events[0], p);
      case _ =>
        NothingHappens(sys.db, p);
    }
  }

  lemma NothingHappens(db: Db, p: Party)
    requires Proper(db, p)
    ensures Persists(db, db) && Uneventful(db, db)
  {
  }

  lemma InstallIsNoRefresh(db: Db, r: JobId, i: JobId)
    requires InstallChosen(db, r, i)
    ensures i in db.jobs && db.jobs[i].jobType == Install
  {
  }

  lemma NewestIsSigned(db: Db, r: JobId, env: Env, signed: set<SignedId>, p: Party)
    requires Proper(db, p) && ResolveSigned(db, r, env, signed).Ok?
    ensures SignChildren(db, r) != {} && SignedBy(db, r, NewestSign(db, r), ResolveSigned(db, r, env, signed).value.1)
  {
    hide WellFormed, LoadContext;
    assert ProperSign(db, NewestSign(db, r), p);
  }

  lemma StepIsInsert(db: Db, s: Stamped, cfg: Config)
    requires s.event.Creates?
    ensures Step(db, s, cfg) == Insert(db, s.event.row).0
  {
  }

  lemma StepIsClaimOne(db: Db, s: Stamped, cfg: Config)
    requires s.event.ClaimsOne?
    ensures Step(db, s, cfg) == ClaimOne(db, s.event.agent, s.event.id, s.now, cfg).0
  {
  }

  lemma ClaimedRow(db: Db, agent: AgentId, id: JobId, now: Time, cfg: Config)
    ensures var (after, reply) := ClaimOne(db, agent, id, now, cfg);
            reply.Ok? ==> id in after.jobs && after.jobs[id] == reply.value
  {
  }

  /** The insert of an ensure-install call leaves, or finds, an install child for
      the newest sign child's artifact. */
  lemma EnsuredInstall(sys: System, t: Timed, p: Party)
    requires Inv(sys, p) && CanHappen(sys, t, p) && t.action.EnsureInstall? && NextOrch(sys, t, p).Claiming?
    ensures ResolveSigned(sys.db, sys.orch.r, t.action.env, sys.signed).Ok?
    ensures var i, after := NextOrch(sys, t, p).install, Next(sys, t, p).db;
            && InstallChosen(after, sys.orch.r, i)
            && InstallOf(after, sys.orch.r, i, ResolveSigned(sys.db, sys.orch.r, t.action.env, sys.signed).value.1)
  {
    hide LoadContext, AllEarned, ResolveSigned, Proper, Persists, InstallChosen, Insert, SignedBy, Sound;
    var env, r := t.action.env, sys.orch.r;
    var (rc, g) := ResolveSigned(sys.db, r, env, sys.signed).value;
    var row := EnsuredRow(sys, env);
    var after := Next(sys, t, p).db;
    NewestIsSigned(sys.db, r, env, sys.signed, p);
    TablesKept(sys, t, p);
    assert Transactions(sys, t, p) == [Creates(row)];
    ApplyIsStep(sys.db, t.now, Creates(row), p.cfg);
    StepIsInsert(sys.db, At(t.now, Creates(row)), p.cfg);
    InsertedInstall(sys.db, after, row, t.now, r, g, p);
    PersistentFacts(sys.db, after, r);
    Choose(after, r, NewestSign(sys.db, r), g, Insert(sys.db, row).1);
  }

  /** Its claim leaves the child's order as it was, and hands it back. */
  lemma ClaimedInstall(sys: System, t: Timed, p: Party)
    requires Inv(sys, p) && CanHappen(sys, t, p) && t.action.ClaimInstall?
    ensures NextOrch(sys, t, p).Completing? ==>
      sys.orch.install in Next(sys, t, p).db.jobs && Next(sys, t, p).db.jobs[sys.orch.install].state == Completed
  {
    hide Inv, Step, ClaimOne;
    ApplyIsStep(sys.db, t.now, ClaimsOne(p.service, sys.orch.install), p.cfg);
    StepIsClaimOne(sys.db, At(t.now, ClaimsOne(p.service, sys.orch.install)), p.cfg);
    ClaimedRow(sys.db, p.service, sys.orch.install, t.now, p.cfg);
  }

  lemma InsertedInstall(db: Db, mid: Db, row: Job, now: Time, r: JobId, g: SignedId, p: Party)
    requires Proper(db, p) && mid == Insert(db, row).0 && Proper(mid, p)
    requires row.key == RefreshInstallKey(r, g)
    ensures InstallOf(mid, r, Insert(db, row).1, g)
  {
    InsertedRow(db, row, now, p.cfg);
    assert ProperKey(mid, Insert(db, row).1);
  }

  lemma RequestedSign(sys: System, t: Timed, p: Party)
    requires Inv(sys, p) && CanHappen(sys, t, p) && t.action.RequestSign? && NextOrch(sys, t, p).Awaiting?
    ensures SignKeyed(Next(sys, t, p).db, sys.orch.r, NextOrch(sys, t, p).sign)
  {
    hide AllEarned, Persists, LoadContext;
    var row := SignRow(sys.orch.r, LoadContext(sys.db, sys.orch.r, t.action.env).value, sys.orch.fallback);
    var after := Next(sys, t, p).db;
    InsertedRow(sys.db, row, t.now, p.cfg);
    TablesKept(sys, t, p);
    assert Transactions(sys, t, p) == [Creates(row)];
    ApplyIsStep(sys.db, t.now, Creates(row), p.cfg);
    assert ProperKey(after, Insert(sys.db, row).1);
  }

  lemma ApplyIsStep(db: Db, now: Time, e: Event, cfg: Config)
    ensures Apply(db, now, [e], cfg) == Step(db, At(now, e), cfg)
  {
    hide Step;
    assert [e][1..] == [];
    var after := Step(db, At(now, e), cfg);
    assert Apply(after, now, [], cfg) == after;
  }

  lemma ReportedInstall(sys: System, t: Timed, p: Party)
    requires Inv(sys, p) && CanHappen(sys, t, p) && t.action.Report? && NextOrch(sys, t, p).Completing?
    ensures var after := Next(sys, t, p).db;
            sys.orch.install in after.jobs && after.jobs[sys.orch.install].state == Completed
  {
    hide Step, AllEarned, Persists, InstallChosen;
    var req := InstallReport(t.action.ok, t.action.why, t.action.expiry);
    ApplyIsStep(sys.db, t.now, Updates(p.service, sys.orch.install, req), p.cfg);
    InstallIsNoRefresh(sys.db, sys.orch.r, sys.orch.install);
    RowStep(sys.db, At(t.now, Updates(p.service, sys.orch.install, req)), p.cfg, sys.orch.install);
  }

  lemma KnowledgeKept(sys: System, t: Timed, p: Party)
    requires Inv(sys, p) && CanHappen(sys, t, p) && !t.action.CompleteRefresh?
    ensures Knows(Next(sys, t, p).db, NextOrch(sys, t, p))
  {
    hide Proper, AllEarned, Persists, InstallChosen, Transactions, Apply, LoadContext, ResolveSigned, SignChild, Insert,
      ClaimOne, Refusal;
    TablesKept(sys, t, p);
    var after := Next(sys, t, p).db;
    KnowledgePersists(sys.db, after, sys.orch);
    match t.action {
      case RequestSign(env, _) => if NextOrch(sys, t, p).Awaiting? { RequestedSign(sys, t, p); }
      case Poll => KnowledgePersists(sys.db, after, NextOrch(sys, t, p));
      case EnsureInstall(env) => if NextOrch(sys, t, p).Claiming? { EnsuredInstall(sys, t, p); }
      case ClaimInstall(_) => ClaimedInstall(sys, t, p);
      case Report(_, _, _, _) => if NextOrch(sys, t, p).Completing? { ReportedInstall(sys, t, p); }
      case _ =>
    }
  }

  /** If the queue accepts the orchestrator's completion report, the refresh has earned it. */
  ghost predicate AcceptedIsEarned(before: System, after: Db, p: Party)
    requires before.orch.Completing?
  {
    var o := before.orch;
    Refusal(before.db, p.service, o.r, CompletionReport(o.g, o.install, o.expiry)).None? ==>
      o.r in after.jobs && EarnedBy(after, o.r, o.sign, o.g, o.install)
  }

  /** An accepted completion and everything its transaction writes. */
  lemma CompletionStep(sys: System, t: Timed, p: Party)
    requires sys.orch.Completing?
    requires Inv(sys, p) && CanHappen(sys, t, p) && t.action.CompleteRefresh?
    ensures var after := Next(sys, t, p).db; Proper(after, p) && AllEarned(after) && Persists(sys.db, after)
    ensures AcceptedIsEarned(sys, Next(sys, t, p).db, p)
  {
    hide Step, WellFormed, Proper, Persists, InstallChosen, Sound, Enabled, Earned, RowRefusal;
    var r, req := sys.orch.r, CompletionReport(sys.orch.g, sys.orch.install, sys.orch.expiry);
    var s := At(t.now, Updates(p.service, r, req));
    assert Sound(sys.db, s.event, p) && Enabled(sys.db, s) by { UpdatesAreSound(sys.db, s, p); }
    ApplyIsStep(sys.db, t.now, s.event, p.cfg);
    var after := Step(sys.db, s, p.cfg);
    ProperStep(sys.db, s, p);
    PersistsStep(sys.db, s, p);
    KnowledgePersists(sys.db, after, sys.orch);
    if Refusal(sys.db, p.service, r, req).None? { ReportIsKept(sys.db, s, p, r); }
    forall x | x in after.jobs && after.jobs[x].jobType == Refresh && after.jobs[x].state == Completed
      ensures Earned(after, x)
    {
      HowRefreshesComplete(sys.db, s, p, x);
      if sys.db.jobs[x].state == Completed {
        EarnedPersists(sys.db, after, x);
      } else {
        EarnedNow(after, x, sys.orch.sign, sys.orch.g, sys.orch.install);
      }
    }
  }

  lemma UpdatesAreSound(db: Db, s: Stamped, p: Party)
    requires s.event.Updates?
    ensures Sound(db, s.event, p) && Enabled(db, s)
  {
  }

  lemma ReportIsKept(db: Db, s: Stamped, p: Party, r: JobId)
    requires Proper(db, p) && s.event.Updates? && s.event.id == r && s.event.req.result != NoResult
    requires Refusal(db, s.event.agent, r, s.event.req).None?
    ensures r in Step(db, s, p.cfg).jobs && Step(db, s, p.cfg).jobs[r].result == s.event.req.result
    ensures Step(db, s, p.cfg).jobs[r].state == s.event.req.state.state
  {
    hide Step;
    RowStep(db, s, p.cfg, r);
  }

  lemma EarnedNow(db: Db, r: JobId, s: JobId, g: SignedId, i: JobId)
    requires r in db.jobs && EarnedBy(db, r, s, g, i)
    ensures Earned(db, r)
  {
  }

  lemma {:induction false} StoryKeepsInv(sys: System, story: Story, p: Party)
    requires Inv(sys, p) && Possible(sys, story, p)
    ensures Inv(After(sys, story, p), p)
  {
    hide Inv, CanHappen, Next;
    if story != [] {
      var front, last := story[..|story| - 1], story[|story| - 1];
      StoryKeepsInv(sys, front, p);
      NextKeepsInv(After(sys, front, p), last, p);
    }
  }

  /** Persistence over a whole story. */
  lemma {:induction false} StoryPersists(sys: System, story: Story, p: Party)
    requires Inv(sys, p) && Possible(sys, story, p)
    ensures Persists(sys.db, After(sys, story, p).db)
  {
    hide Inv, CanHappen, Next, Persists, Uneventful;
    if story == [] {
      assert Persists(sys.db, sys.db) by { InvIsProper(sys, p); NothingHappens(sys.db, p); }
    } else {
      var front, last := story[..|story| - 1], story[|story| - 1];
      StoryPersists(sys, front, p);
      StoryKeepsInv(sys, front, p);
      NextKeepsInv(After(sys, front, p), last, p);
      PersistsChain(sys.db, After(sys, front, p).db, After(sys, story, p).db);
    }
  }

  lemma InvIsProper(sys: System, p: Party)
    requires Inv(sys, p)
    ensures Proper(sys.db, p)
  {
  }

  lemma NextKeepsInv(sys: System, t: Timed, p: Party)
    requires Inv(sys, p) && CanHappen(sys, t, p)
    ensures Inv(Next(sys, t, p), p)
    ensures Persists(sys.db, Next(sys, t, p).db)
  {
    hide Proper, AllEarned, Persists, Knows, Transactions, Apply;
    if t.action.CompleteRefresh? {
      CompletionStep(sys, t, p);
      assert Knows(Next(sys, t, p).db, Idle) by { IdleKnowsNothing(Next(sys, t, p).db); }
    } else {
      TablesKept(sys, t, p);
      KnowledgeKept(sys, t, p);
    }
  }

  lemma IdleKnowsNothing(db: Db)
    ensures Knows(db, Idle)
  {
  }
}
