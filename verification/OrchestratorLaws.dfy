/** How the orchestrator of `scripts/sidey-device.py` moves through a refresh: always
    forward, with at most one fallback, passing on the sign child's own category. */
module OrchestratorLaws {
  import opened Prelude
  import opened JobRows
  import opened JobRuns
  import opened DeviceRefresh
  import opened RefreshProtocol
  import opened RowLaws

  /** How far a refresh has come. */
  function Stage(o: Orchestrator): nat {
    match o
    case Starting(_) => 1
    case Requesting(_, false) => 2
    case Awaiting(_, _, true) => 3
    case Requesting(_, true) => 4
    case Awaiting(_, _, false) => 5
    case Signed(_, _, _) => 6
    case Claiming(_, _, _, _) => 7
    case Installing(_, _, _, _) => 8
    case Completing(_, _, _, _, _) => 9
    case Failing(_, _) => 10
    case Idle => 11
  }

  /** Other than by picking up a refresh that was handed to it, and by a new failure
      replacing one not yet reported, the orchestrator only ever moves forward, and
      stays with the refresh it is at until it is idle again. */
  lemma MovesForward(sys: System, t: Timed, p: Party)
    requires CanHappen(sys, t, p)
    ensures var before, after := sys.orch, Next(sys, t, p).orch;
            || (t.action.Pick? && before.Idle? && after == Starting(t.action.refresh) && after.r in sys.handed)
            || (t.action.Trouble? && before.Failing? && after == Failing(before.r, Some(t.action.why)))
            || after == before
            || (Stage(after) > Stage(before) && (after.Idle? || after.r == before.r))
  {
  }

  /** The sign requests made along a story. */
  function Requests(sys: System, story: Story, p: Party): nat {
    if story == [] then 0
    else
      var front, t := story[..|story| - 1], story[|story| - 1];
      Requests(sys, front, p) + if t.action.RequestSign? && After(sys, front, p).orch.Requesting? then 1 else 0
  }

  /** How many are still to come before the next refresh is picked up. */
  function RequestsLeft(o: Orchestrator): nat {
    if o.Starting? || (o.Requesting? && !o.fallback) then 2
    else if o.Requesting? || (o.Awaiting? && o.mayFallBack) then 1 else 0
  }

  ghost predicate PicksNothing(story: Story) { forall k :: 0 <= k < |story| ==> !story[k].action.Pick? }

  lemma {:induction false} RequestsSpent(sys: System, story: Story, p: Party)
    requires Possible(sys, story, p) && PicksNothing(story)
    ensures Requests(sys, story, p) + RequestsLeft(After(sys, story, p).orch) <= RequestsLeft(sys.orch)
  {
    hide CanHappen, Apply, Transactions, NextHanded, NextInstalled, SignChild, ResolveSigned, ClaimOne, Refusal;
    if story != [] {
      var front, t := story[..|story| - 1], story[|story| - 1];
      assert PicksNothing(front) by { assert forall k :: 0 <= k < |front| ==> front[k] == story[k]; }
      RequestsSpent(sys, front, p);
      assert !t.action.Pick?;
    }
  }

  /** For one refresh it asks for a signature at most twice, and a second time only
      if the first answer said that an update was attempted. */
  lemma OneFallback(sys: System, story: Story, p: Party)
    requires Possible(sys, story, p) && PicksNothing(story)
    ensures sys.orch.Starting? ==> Requests(sys, story, p) <= 2
    ensures sys.orch.Awaiting? && !sys.orch.mayFallBack ==> Requests(sys, story, p) == 0
  {
    RequestsSpent(sys, story, p);
  }

  /** It may fall back exactly when this was the first request and an update is
      being tried. */
  lemma MayFallBackMeans(sys: System, now: Time, env: Env, p: Party, r: JobId, fallback: bool)
    requires sys.orch == Requesting(r, fallback)
    ensures var after := Next(sys, AtTime(now, RequestSign(env, true)), p).orch;
            if MayProceed(sys.db, r, env)
            then after.Awaiting? && after.r == r
                 && (after.mayFallBack <==> !fallback && UpdateFor(sys.db.jobs[r], env).Some?)
            else after == Failing(r, Some(OtherCategory("other")))
  {
    SignRequestMeans(sys.db, r, env, fallback);
  }

  /** What a poll of the sign job leads to. */
  lemma PollMeans(sys: System, now: Time, p: Party, r: JobId, sign: JobId, mayFallBack: bool)
    requires sys.orch == Awaiting(r, sign, mayFallBack) && sign in sys.db.jobs
    ensures var j, after := sys.db.jobs[sign], Next(sys, AtTime(now, Poll), p);
            && after.db == sys.db
            && after.orch ==
                 if j.state in {Pending, Claimed, InProgress} then sys.orch
                 else if j.state == Completed && j.result.Reported? && j.result.signedArtifact.Some?
                 then Signed(r, sign, j.result.signedArtifact.value)
                 else if mayFallBack then Requesting(r, true)
                 else if j.state == Completed then Failing(r, Some(OtherCategory("other")))
                 else if j.category == None then Failing(r, Some(OtherCategory("sign_failed")))
                 else Failing(r, j.category)
  {
  }

  /** What running out of patience with the sign job leads to. */
  lemma DeadlineMeans(sys: System, now: Time, p: Party, r: JobId, sign: JobId, mayFallBack: bool)
    requires sys.orch == Awaiting(r, sign, mayFallBack)
    ensures var after := Next(sys, AtTime(now, SignDeadline), p);
            && after.db == sys.db
            && after.orch == if mayFallBack then Requesting(r, true) else Failing(r, Some(OtherCategory("other")))
  {
  }

  /** The first report decides whether the refresh is started at all, and a refresh
      without a source is failed at once. */
  lemma BeginMeans(sys: System, now: Time, p: Party, r: JobId, answered: bool)
    requires sys.orch == Starting(r)
    ensures Next(sys, AtTime(now, Begin(answered)), p).orch ==
              if !answered || !Accepts(sys.db, p.service, r, UpdateRequest(Known(InProgress), None, false, NoResult))
              then Idle
              else if sys.db.jobs[r].params.source == None then Failing(r, Some(OtherCategory("other")))
              else Requesting(r, false)
  {
    RefusalMeans(sys.db, p.service, r, Working());
  }

  /** Ensure-install goes on to the claim of its install job, under the key of refresh
      and newest signed artifact, exactly if there is such an artifact. */
  lemma EnsureMeans(sys: System, now: Time, env: Env, p: Party, r: JobId, sign: JobId, g: SignedId)
    requires WellFormed(sys.db) && sys.orch == Signed(r, sign, g)
    ensures var after := Next(sys, AtTime(now, EnsureInstall(env)), p);
            if MayProceed(sys.db, r, env) && exists s, h :: Delivers(sys.db, r, s, h, sys.signed)
            then
              && after.orch.Claiming? && after.orch == Claiming(r, sign, g, after.orch.install)
              && (exists s, h :: Delivers(sys.db, r, s, h, sys.signed)
                     && RefreshInstallKey(r, h) in after.db.keys
                     && after.db.keys[RefreshInstallKey(r, h)] == after.orch.install)
            else after.orch == Failing(r, Some(OtherCategory("other"))) && after.db == sys.db
  {
    hide WellFormed, ResolveSigned, Delivers, MayProceed;
    ResolveMeans(sys.db, r, env, sys.signed);
    if ResolveSigned(sys.db, r, env, sys.signed).Ok? {
      var (rc, h) := ResolveSigned(sys.db, r, env, sys.signed).value;
      var s :| Delivers(sys.db, r, s, h, sys.signed);
      var e := Creates(EnsuredRow(sys, env));
      assert [e][1..] == [];
      assert Apply(sys.db, now, [e], p.cfg) == Apply(Step(sys.db, At(now, e), p.cfg), now, [], p.cfg);
    }
  }

  /** What the answer to its claim leads to, by the install job as it stood. */
  lemma ClaimAnswerMeans(sys: System, now: Time, p: Party, r: JobId, sign: JobId, g: SignedId, install: JobId)
    requires sys.orch == Claiming(r, sign, g, install) && install in sys.db.jobs
    ensures Next(sys, AtTime(now, ClaimInstall(false)), p).orch == Failing(r, Some(OtherCategory("other")))
    ensures var j, after := sys.db.jobs[install], Next(sys, AtTime(now, ClaimInstall(true)), p).orch;
            after ==
              if j.state == Completed
              then Completing(r, sign, g, install, if j.result.Reported? then j.result.profileExpiry else None)
              else if j.state in {Claimed, InProgress} && j.claimedBy != Some(p.service)
              then Failing(r, Some(OtherCategory("other")))
              else Installing(r, sign, g, install)
  {
  }

  /** The install's report, if accepted, makes the refresh complete with the same
      expiry or fail for the same reason. */
  lemma ReportMeans(sys: System, now: Time, p: Party, r: JobId, sign: JobId, g: SignedId, install: JobId, ok: bool,
                    why: Category, expiry: Option<Time>, answered: bool)
    requires sys.orch == Installing(r, sign, g, install)
    ensures var report := if ok then UpdateRequest(Known(Completed), None, false, Reported(expiry, None, None))
                          else UpdateRequest(Known(Failed), Some(why), true, NoResult);
            Next(sys, AtTime(now, Report(ok, why, expiry, answered)), p).orch ==
              if !answered || !Accepts(sys.db, p.service, install, report) then Failing(r, Some(OtherCategory("other")))
              else if ok then Completing(r, sign, g, install, expiry) else Failing(r, Some(why))
  {
    RefusalMeans(sys.db, p.service, install, InstallReport(ok, why, expiry));
  }

  /** Its last word on a refresh: completed with the artifact it awaited and the
      install job, or failed with the reason; after it, or a crash, it is idle. */
  lemma LastWord(sys: System, now: Time, p: Party)
    ensures forall r, sign, g, install, expiry :: sys.orch == Completing(r, sign, g, install, expiry) ==>
              Transactions(sys, AtTime(now, CompleteRefresh), p) ==
                [Updates(p.service, r, UpdateRequest(Known(Completed), None, false,
                                                     Reported(expiry, Some(g), Some(install))))]
    ensures forall r, c :: sys.orch == Failing(r, c) ==>
              Transactions(sys, AtTime(now, FailRefresh), p) ==
                [Updates(p.service, r, UpdateRequest(Known(Failed), c, true, Reported(None, None, None)))]
    ensures Next(sys, AtTime(now, CompleteRefresh), p).orch == Next(sys, AtTime(now, FailRefresh), p).orch
            == Next(sys, AtTime(now, Crash), p).orch == Idle
    ensures Next(sys, AtTime(now, Crash), p).handed == {}
  {
  }

  /** An upload for a refresh's sign job queues the install child, with three attempts,
      under the key ensure-install looks for. */
  lemma UploadMeans(sys: System, now: Time, p: Party, sign: JobId, device: DeviceId)
    requires sign in sys.db.jobs && sys.db.jobs[sign].params.refreshJob.Some?
    ensures var s, t := sys.db.jobs[sign], AtTime(now, Upload(sign, device));
            && Transactions(sys, t, p) ==
                 [Creates(Job(Install, Some(device), Pending, 0, 3, None, None, None, None, None, false,
                              Params(s.params.deployment, None, s.params.refreshJob, Some(sys.nextSigned)), NoResult,
                              RefreshInstallKey(s.params.refreshJob.value, sys.nextSigned), s.parent))]
            && Next(sys, t, p).signed == sys.signed + {sys.nextSigned}
            && Next(sys, t, p).nextSigned == sys.nextSigned + 1
  {
  }

  /** A signing failure for good ends the refresh for good: once the orchestrator has
      polled the failed sign job and reported, the next reap that can lock the
      refresh leaves it dead with the sign job's own category, and no fallback and no
      further attempt comes between. */
  lemma SignFailureKillsRefresh(sys: System, p: Party, r: JobId, sign: JobId, c: Category, polled: Time,
                                reported: Time, run: Run, locked: set<JobId>, later: Time)
    requires WellFormed(sys.db) && sys.orch == Awaiting(r, sign, false)
    requires sign in sys.db.jobs && sys.db.jobs[sign].state in {Failed, Dead} && sys.db.jobs[sign].category == Some(c)
    requires c in {Auth, Certificate, Provisioning, Entitlement, UnsupportedJobType}
    requires Accepts(sys.db, p.service, r, FailureReport(Some(c))) && sys.db.jobs[r].jobType == Refresh
    requires var end := Next(Next(sys, AtTime(polled, Poll), p), AtTime(reported, FailRefresh), p);
             Legal(end.db, run, p.cfg) && LeftFailed(run, r, sys.db.jobs[r].key) && r !in locked
    ensures var end := Next(Next(sys, AtTime(polled, Poll), p), AtTime(reported, FailRefresh), p);
            var after := ReapAll(Exec(end.db, run, p.cfg), locked, later).jobs;
            && end.orch == Idle
            && r in after && after[r].state == Dead && after[r].deadReason == Some(TerminalError(c))
            && after[r].requiresAttention && after[r].claimedBy == None
  {
    hide Updated, ReapAll, Legal, Exec, WellFormed, Step, Accepts, LeftFailed;
    PollMeans(sys, polled, p, r, sign, false);
    var mid := Next(sys, AtTime(polled, Poll), p);
    assert mid.orch == Failing(r, Some(c)) && mid.db == sys.db;
    Reports(mid, p, r, c, reported);
    FailureKills(sys.db, p.service, r, FailureReport(Some(c)), reported, run, locked, later, p.cfg);
  }

  lemma Reports(sys: System, p: Party, r: JobId, c: Category, now: Time)
    requires sys.orch == Failing(r, Some(c))
    ensures var end := Next(sys, AtTime(now, FailRefresh), p);
            end.orch == Idle && end.db == Updated(sys.db, p.service, r, FailureReport(Some(c)), now, p.cfg)
  {
    hide Updated, Step;
    var e := Updates(p.service, r, FailureReport(Some(c)));
    StepIsUpdate(sys.db, At(now, e), p.cfg);
    assert [e][1..] == [];
    assert Apply(sys.db, now, [e], p.cfg) == Apply(Step(sys.db, At(now, e), p.cfg), now, [], p.cfg);
  }
}
