/** What a crash cannot undo: once its sign child is completed, every later
    attempt of a refresh settles on the same sign job, artifact and install job. */
module RefreshRecovery {
  import opened Prelude
  import opened JobRows
  import opened JobRuns
  import opened DeviceRefresh
  import opened RefreshProtocol
  import opened RefreshSafety
  import opened RefreshTheorems

  /** Refresh r, not subject to automatic updates, has its signed artifact g from
      sign child s, and the install child i the upload queued for it. */
  predicate Settled(db: Db, r: JobId, s: JobId, g: SignedId, i: JobId, p: Party) {
    && r in db.jobs && db.jobs[r].jobType == Refresh && NoUpdates(db, r, p)
    && SignedBy(db, r, s, g) && InstallOf(db, r, i, g)
  }

  /** Those are the refresh's only workflow rows for that artifact. */
  ghost predicate Resolved(db: Db, r: JobId, s: JobId, g: SignedId, i: JobId) {
    && SignChildren(db, r) == {s}
    && (forall x :: SignKeyed(db, r, x) ==> x == s)
    && (forall x :: x in db.jobs && db.jobs[x].key == RefreshInstallKey(r, g) ==> x == i)
    && RefreshInstallKey(r, g) in db.keys && db.keys[RefreshInstallKey(r, g)] == i
  }

  /** An orchestrator working on r remembers nothing else. */
  predicate Remembers(o: Orchestrator, r: JobId, s: JobId, g: SignedId, i: JobId) {
    match o
    case Awaiting(x, sign, _) => x == r ==> sign == s
    case Signed(x, sign, art) => x == r ==> sign == s && art == g
    case Claiming(x, sign, art, install) => x == r ==> sign == s && art == g && install == i
    case Installing(x, sign, art, install) => x == r ==> sign == s && art == g && install == i
    case Completing(x, sign, art, install, _) => x == r ==> sign == s && art == g && install == i
    case _ => true
  }

  lemma SettledIsResolved(db: Db, r: JobId, s: JobId, g: SignedId, i: JobId, p: Party)
    requires Proper(db, p) && Settled(db, r, s, g, i, p)
    ensures Resolved(db, r, s, g, i)
  {
    SoleSignChild(db, r, s, s, p);
    forall x | SignKeyed(db, r, x) ensures x == s { SoleSignChild(db, r, s, x, p); }
    forall x | x in SignChildren(db, r) ensures x == s {
      ChildIsKeyed(db, r, x, p);
      SoleSignChild(db, r, s, x, p);
    }
  }

  lemma SettledIsRemembered(sys: System, r: JobId, s: JobId, g: SignedId, i: JobId, p: Party)
    requires Inv(sys, p) && Settled(sys.db, r, s, g, i, p)
    ensures Remembers(sys.orch, r, s, g, i)
  {
    hide Proper, AllEarned;
    SettledIsResolved(sys.db, r, s, g, i, p);
    var o := sys.orch;
    if (o.Claiming? || o.Installing? || o.Completing?) && o.r == r {
      var s', g' :| SignedBy(sys.db, r, s', g') && InstallOf(sys.db, r, o.install, g');
    }
  }

  lemma SettledPersists(db: Db, after: Db, r: JobId, s: JobId, g: SignedId, i: JobId, p: Party)
    requires Persists(db, after) && Settled(db, r, s, g, i, p) && r in after.jobs
    ensures Settled(after, r, s, g, i, p)
    ensures db.jobs[i].state == Completed ==>
        after.jobs[i].state == Completed && after.jobs[i].result == db.jobs[i].result
  {
    PersistentFacts(db, after, r);
  }

  /** Whatever crashes, lease expiries, requeues and other agents do afterwards:
      as long as the refresh is there, its sign id, artifact and install id stay
      what they were, no further sign row or install row for that artifact
      appears, and a completed install child stays completed. */
  lemma RestartRecovery(sys: System, story: Story, p: Party, r: JobId, s: JobId, g: SignedId, i: JobId)
    requires Inv(sys, p) && Settled(sys.db, r, s, g, i, p) && Possible(sys, story, p)
    requires r in After(sys, story, p).db.jobs
    ensures var end := After(sys, story, p);
            && Settled(end.db, r, s, g, i, p) && Resolved(end.db, r, s, g, i) && Remembers(end.orch, r, s, g, i)
            && (sys.db.jobs[i].state == Completed ==>
                  end.db.jobs[i].state == Completed && end.db.jobs[i].result == sys.db.jobs[i].result)
  {
    hide Proper, Persists, Settled, Resolved, Remembers, Possible, After;
    StoryKeepsInv(sys, story, p);
    StoryPersists(sys, story, p);
    var end := After(sys, story, p);
    SettledPersists(sys.db, end.db, r, s, g, i, p);
    SettledIsResolved(end.db, r, s, g, i, p);
    SettledIsRemembered(end, r, s, g, i, p);
  }

  /** The transactions of the two calls are the endpoints' own: those of the sign
      request, and the insert and the claim of ensure-install when nothing comes
      between them. */
  lemma CallsAreEndpoints(sys: System, t: Timed, u: Timed, p: Party)
    requires CanHappen(sys, t, p) && u.action.ClaimInstall?
    ensures t.action.RequestSign? ==>
      Next(sys, t, p).db == SignChild(sys.db, sys.orch.r, t.action.env, sys.orch.fallback).0
    ensures t.action.EnsureInstall? ==>
      var (after, reply) := InstallChild(sys.db, sys.orch.r, t.action.env, sys.signed, p.service, u.now, p.cfg);
      if Next(sys, t, p).orch.Claiming?
      then
        && Next(Next(sys, t, p), u, p).db == after
        && (reply.Ok? <==> ClaimOne(Next(sys, t, p).db, p.service, Next(sys, t, p).orch.install, u.now, p.cfg).1.Ok?)
        && (reply.Ok? ==> reply.value.0 == Next(sys, t, p).orch.install)
      else Next(sys, t, p).db == after && reply.Err?
  {
    hide LoadContext, ResolveSigned, Insert, ClaimOne, Step;
    if t.action.RequestSign? && LoadContext(sys.db, sys.orch.r, t.action.env).Ok? {
      var row := SignRow(sys.orch.r, LoadContext(sys.db, sys.orch.r, t.action.env).value, sys.orch.fallback);
      ApplyIsStep(sys.db, t.now, Creates(row), p.cfg);
      StepIsInsert(sys.db, At(t.now, Creates(row)), p.cfg);
    } else if t.action.EnsureInstall? && ResolveSigned(sys.db, sys.orch.r, t.action.env, sys.signed).Ok? {
      var row := EnsuredRow(sys, t.action.env);
      var (mid, i) := Insert(sys.db, row);
      ApplyIsStep(sys.db, t.now, Creates(row), p.cfg);
      StepIsInsert(sys.db, At(t.now, Creates(row)), p.cfg);
      ApplyIsStep(mid, u.now, ClaimsOne(p.service, i), p.cfg);
      StepIsClaimOne(mid, At(u.now, ClaimsOne(p.service, i)), p.cfg);
    }
  }

  lemma KeyFinds(db: Db, id: JobId)
    requires WellFormed(db) && id in db.jobs
    ensures db.jobs[id].key in db.keys && db.keys[db.jobs[id].key] == id
  {
  }

  /** A later attempt's sign request finds the old sign job and changes nothing. */
  lemma LaterSignRequest(db: Db, p: Party, r: JobId, s: JobId, g: SignedId, i: JobId, env: Env, fallback: bool)
    requires Proper(db, p) && EnvFits(env, p) && Settled(db, r, s, g, i, p)
    ensures SignChild(db, r, env, fallback).0 == db
    ensures LoadContext(db, r, env).Ok? ==> SignChild(db, r, env, fallback).1 == Ok(SignReply(s, false))
  {
    hide WellFormed, LoadContext;
    LoadedContext(db, r, env);
    assert ProperKey(db, s) && ProperSign(db, s, p);
    KeyFinds(db, s);
  }

  /** A later attempt's ensure-install call finds the old install job, adds no row,
      touches no other, and leaves that job alone if it is completed. */
  lemma LaterEnsureInstall(db: Db, p: Party, r: JobId, s: JobId, g: SignedId, i: JobId, env: Env,
                           signed: set<SignedId>, now: Time)
    requires Proper(db, p) && Settled(db, r, s, g, i, p)
    ensures var (after, reply) := InstallChild(db, r, env, signed, p.service, now, p.cfg);
            && i in after.jobs && after == db.(jobs := db.jobs[i := after.jobs[i]])
            && (db.jobs[i].state == Completed ==> after == db)
            && (reply.Ok? ==> reply.value == (i, after.jobs[i]))
    ensures LoadContext(db, r, env).Ok? && g in signed && db.jobs[i].state == Completed ==>
      InstallChild(db, r, env, signed, p.service, now, p.cfg).1 == Ok((i, db.jobs[i]))
  {
    hide WellFormed, LoadContext;
    SettledIsResolved(db, r, s, g, i, p);
    assert NewestSign(db, r) == s;
    assert db.jobs[i := db.jobs[i]] == db.jobs;
  }

  // ------------------------------------------------------- the next attempt

  /** The calls of an attempt in which everything is answered and nothing is left to do. */
  function Attempt(r: JobId, env: Env, at: seq<Time>): Story
    requires |at| == 7
  {
    [AtTime(at[0], Pick(r)), AtTime(at[1], Begin(true)), AtTime(at[2], RequestSign(env, true)), AtTime(at[3], Poll),
     AtTime(at[4], EnsureInstall(env)), AtTime(at[5], ClaimInstall(true)), AtTime(at[6], CompleteRefresh)]
  }

  lemma Extend(sys: System, story: Story, t: Timed, p: Party)
    requires Possible(sys, story, p) && CanHappen(After(sys, story, p), t, p)
    ensures Possible(sys, story + [t], p) && After(sys, story + [t], p) == Next(After(sys, story, p), t, p)
  {
    hide CanHappen, Next;
    assert (story + [t])[..|story|] == story;
  }

  /** Refresh r is running in the service's hands, settled, installed, and its
      context still loads. */
  predicate Ready(sys: System, r: JobId, s: JobId, g: SignedId, i: JobId, env: Env, p: Party) {
    && Settled(sys.db, r, s, g, i, p) && sys.db.jobs[i].state == Completed && g in sys.signed
    && Active(sys.db.jobs[r]) && sys.db.jobs[r].claimedBy == Some(p.service) && sys.db.jobs[r].params.deployment.Some?
    && EnvFits(env, p) && LoadContext(sys.db, r, env).Ok?
  }

  function Begun(db: Db, r: JobId, now: Time, p: Party): Db
    requires r in db.jobs
  {
    db.(jobs := db.jobs[r := Applied(db.jobs[r], Working(), now, p.cfg)])
  }

  lemma BeginStep(sys: System, now: Time, p: Party, r: JobId, s: JobId, g: SignedId, i: JobId, env: Env)
    requires Ready(sys, r, s, g, i, env, p) && sys.orch == Starting(r)
    ensures Next(sys, AtTime(now, Begin(true)), p) == sys.(db := Begun(sys.db, r, now, p), orch := Requesting(r, false))
    ensures Ready(Next(sys, AtTime(now, Begin(true)), p), r, s, g, i, env, p)
  {
    ApplyIsStep(sys.db, now, Updates(p.service, r, Working()), p.cfg);
  }

  /** What the four calls in the middle make of a ready refresh: nothing but knowledge. */
  predicate Learns(o: Orchestrator, a: Action, next: Orchestrator, r: JobId, s: JobId, g: SignedId, i: JobId,
                   env: Env) {
    || (o == Requesting(r, false) && a == RequestSign(env, true) && next == Awaiting(r, s, false))
    || (o == Awaiting(r, s, false) && a == Poll && next == Signed(r, s, g))
    || (o == Signed(r, s, g) && a == EnsureInstall(env) && next == Claiming(r, s, g, i))
    || (o == Claiming(r, s, g, i) && a == ClaimInstall(true) && next.Completing?
        && next == Completing(r, s, g, i, next.expiry))
  }

  lemma CallStep(sys: System, t: Timed, next: Orchestrator, p: Party, r: JobId, s: JobId, g: SignedId, i: JobId,
                 env: Env)
    requires Inv(sys, p) && Ready(sys, r, s, g, i, env, p) && next == NextOrch(sys, t, p)
    requires || (sys.orch == Requesting(r, false) && t.action == RequestSign(env, true))
             || (sys.orch == Awaiting(r, s, false) && t.action == Poll)
             || (sys.orch == Signed(r, s, g) && t.action == EnsureInstall(env))
             || (sys.orch == Claiming(r, s, g, i) && t.action == ClaimInstall(true))
    ensures Next(sys, t, p) == sys.(orch := next) && Learns(sys.orch, t.action, next, r, s, g, i, env)
  {
    hide AllEarned, WellFormed, LoadContext, SignChild, Insert, ProperSign, ProperKey, ProperHolder, Step;
    match t.action {
      case RequestSign(_, _) =>
        CallsAreEndpoints(sys, t, AtTime(t.now, ClaimInstall(true)), p);
        LaterSignRequest(sys.db, p, r, s, g, i, env, false);
      case EnsureInstall(_) => FindsTheChild(sys, t, p, r, s, g, i, env);
      case ClaimInstall(_) =>
        ApplyIsStep(sys.db, t.now, ClaimsOne(p.service, i), p.cfg);
        StepIsClaimOne(sys.db, At(t.now, ClaimsOne(p.service, i)), p.cfg);
      case _ =>
    }
  }

  lemma FindsTheChild(sys: System, t: Timed, p: Party, r: JobId, s: JobId, g: SignedId, i: JobId, env: Env)
    requires Inv(sys, p) && Ready(sys, r, s, g, i, env, p) && sys.orch == Signed(r, s, g)
        && t.action == EnsureInstall(env)
    ensures Next(sys, t, p) == sys.(orch := Claiming(r, s, g, i))
  {
    hide AllEarned, WellFormed, LoadContext, Step;
    SettledIsResolved(sys.db, r, s, g, i, p);
    assert NewestSign(sys.db, r) == s;
    var row := EnsuredRow(sys, env);
    ApplyIsStep(sys.db, t.now, Creates(row), p.cfg);
    StepIsInsert(sys.db, At(t.now, Creates(row)), p.cfg);
  }

  lemma CompleteStep(sys: System, now: Time, p: Party, r: JobId, s: JobId, g: SignedId, i: JobId, env: Env)
    requires Ready(sys, r, s, g, i, env, p) && sys.orch.Completing?
        && sys.orch == Completing(r, s, g, i, sys.orch.expiry)
    ensures var after := Next(sys, AtTime(now, CompleteRefresh), p);
            && after.orch == Idle && after.db.keys == sys.db.keys
            && after.db.jobs == sys.db.jobs[r := Applied(sys.db.jobs[r], CompletionReport(g, i, sys.orch.expiry),
                now, p.cfg)]
  {
    var req := CompletionReport(g, i, sys.orch.expiry);
    ApplyIsStep(sys.db, now, Updates(p.service, r, req), p.cfg);
    UpdatedRows(sys.db, p.service, r, req, now, p.cfg);
  }

  lemma ReadyIgnoresOrch(sys: System, r: JobId, s: JobId, g: SignedId, i: JobId, env: Env, p: Party)
    requires Ready(sys, r, s, g, i, env, p)
    ensures forall o, h :: Ready(sys.(orch := o, handed := h), r, s, g, i, env, p)
  {
  }

  lemma FitsReady(sys: System, r: JobId, s: JobId, g: SignedId, i: JobId, env: Env, p: Party)
    requires Ready(sys, r, s, g, i, env, p)
    ensures EnvFits(env, p) && r in sys.db.jobs
  {
  }

  lemma EmptyStory(sys: System, p: Party)
    ensures Possible(sys, [], p) && After(sys, [], p) == sys
  {
  }

  /** Picking the refresh up and reporting it in progress. */
  lemma OpeningSteps(sys: System, p: Party, r: JobId, s: JobId, g: SignedId, i: JobId, env: Env, at: seq<Time>)
    requires sys.orch == Idle && r in sys.handed && Ready(sys, r, s, g, i, env, p) && |at| == 7
    ensures var story := Attempt(r, env, at)[..2];
            var begun := sys.(db := Begun(sys.db, r, at[1], p), orch := Requesting(r, false),
                handed := sys.handed - {r});
            && Possible(sys, story, p) && After(sys, story, p) == begun && Ready(begun, r, s, g, i, env, p)
  {
    hide Ready, Possible, After, Begun;
    var story := Attempt(r, env, at);
    var picked := sys.(orch := Starting(r), handed := sys.handed - {r});
    EmptyStory(sys, p);
    FitsReady(sys, r, s, g, i, env, p);
    assert Next(sys, story[0], p) == picked;
    Extend(sys, [], story[0], p);
    assert [] + [story[0]] == story[..1];
    ReadyIgnoresOrch(sys, r, s, g, i, env, p);
    BeginStep(picked, at[1], p, r, s, g, i, env);
    Extend(sys, story[..1], story[1], p);
    assert story[..1] + [story[1]] == story[..2];
  }

  /** One of the four calls. */
  lemma MiddleStep(sys: System, here: System, k: nat, p: Party, r: JobId, s: JobId, g: SignedId, i: JobId, env: Env,
                   at: seq<Time>)
    returns (next: System)
    requires |at| == 7 && 2 <= k <= 5 && EnvFits(env, p) && Inv(sys, p)
    requires Possible(sys, Attempt(r, env, at)[..k], p) && After(sys, Attempt(r, env, at)[..k], p) == here
    requires Ready(here, r, s, g, i, env, p)
    requires here.orch == if k == 2 then Requesting(r, false) else if k == 3 then Awaiting(r, s, false)
                          else if k == 4 then Signed(r, s, g) else Claiming(r, s, g, i)
    ensures next == here.(orch := next.orch)
        && Learns(here.orch, Attempt(r, env, at)[k].action, next.orch, r, s, g, i, env)
    ensures Possible(sys, Attempt(r, env, at)[..k + 1], p) && After(sys, Attempt(r, env, at)[..k + 1], p) == next
    ensures Ready(next, r, s, g, i, env, p)
  {
    hide Inv, Ready, Next, After, Possible, EnvFits;
    var story := Attempt(r, env, at);
    StoryKeepsInv(sys, story[..k], p);
    next := Next(here, story[k], p);
    assert next.orch == NextOrch(here, story[k], p) by { NextOrchIs(here, story[k], p); }
    CallStep(here, story[k], next.orch, p, r, s, g, i, env);
    Extend(sys, story[..k], story[k], p);
    assert story[..k] + [story[k]] == story[..k + 1];
    ReadyIgnoresOrch(here, r, s, g, i, env, p);
  }

  lemma NextOrchIs(sys: System, t: Timed, p: Party)
    ensures Next(sys, t, p).orch == NextOrch(sys, t, p)
  {
  }

  lemma MiddleSteps(sys: System, p: Party, r: JobId, s: JobId, g: SignedId, i: JobId, env: Env, at: seq<Time>)
    requires Inv(sys, p) && sys.orch == Idle && r in sys.handed && Ready(sys, r, s, g, i, env, p) && |at| == 7
    ensures var story := Attempt(r, env, at)[..6];
            && Possible(sys, story, p) && r in sys.db.jobs
            && var end := After(sys, story, p);
               && end.db == Begun(sys.db, r, at[1], p) && Ready(end, r, s, g, i, env, p)
               && end.orch.Completing? && end.orch == Completing(r, s, g, i, end.orch.expiry)
  {
    hide Inv, Ready, After, Possible, Begun, EnvFits;
    OpeningSteps(sys, p, r, s, g, i, env, at);
    FitsReady(sys, r, s, g, i, env, p);
    var here := After(sys, Attempt(r, env, at)[..2], p);
    here := MiddleStep(sys, here, 2, p, r, s, g, i, env, at);
    here := MiddleStep(sys, here, 3, p, r, s, g, i, env, at);
    here := MiddleStep(sys, here, 4, p, r, s, g, i, env, at);
    here := MiddleStep(sys, here, 5, p, r, s, g, i, env, at);
  }

  lemma RunsThrough(sys: System, p: Party, r: JobId, s: JobId, g: SignedId, i: JobId, env: Env, at: seq<Time>)
    requires Inv(sys, p) && sys.orch == Idle && r in sys.handed && Ready(sys, r, s, g, i, env, p) && |at| == 7
    ensures Possible(sys, Attempt(r, env, at), p)
    ensures CompletedAlone(sys.db, After(sys, Attempt(r, env, at), p), r, g, i)
  {
    hide Inv, Ready, Next, After, Possible;
    var story := Attempt(r, env, at);
    MiddleSteps(sys, p, r, s, g, i, env, at);
    FitsReady(sys, r, s, g, i, env, p);
    CompleteStep(After(sys, story[..6], p), at[6], p, r, s, g, i, env);
    Extend(sys, story[..6], story[6], p);
    assert story[..6] + [story[6]] == story;
  }

  /** Refresh r ended completed with artifact g and install job i, and no other row
      changed, came or went. */
  predicate CompletedAlone(db: Db, end: System, r: JobId, g: SignedId, i: JobId)
    requires r in db.jobs
  {
    && end.orch == Idle && end.db.keys == db.keys
    && r in end.db.jobs && end.db.jobs == db.jobs[r := end.db.jobs[r]]
    && end.db.jobs[r].state == Completed && end.db.jobs[r].attempt == db.jobs[r].attempt
    && end.db.jobs[r].result.Reported?
    && end.db.jobs[r].result.signedArtifact == Some(g) && end.db.jobs[r].result.installJob == Some(i)
  }

  // ------------------------------------------------ from the requeued row on

  function HandedOver(db: Db, r: JobId, now: Time, p: Party): Db
    requires r in db.jobs
  {
    db.(jobs := db.jobs[r := Grant(db.jobs[r], p.service, now, p.cfg)])
  }

  /** Refresh r waits in the queue, settled and installed, and its context will load. */
  predicate Waiting(sys: System, r: JobId, s: JobId, g: SignedId, i: JobId, env: Env, now: Time, p: Party) {
    && Settled(sys.db, r, s, g, i, p) && sys.db.jobs[i].state == Completed && g in sys.signed
    && sys.db.jobs[r].state == Pending && Due(sys.db.jobs[r], now) && sys.db.jobs[r].params.deployment.Some?
    && EnvFits(env, p) && LoadContext(HandedOver(sys.db, r, now, p), r, env).Ok?
  }

  lemma ClaimMakesReady(sys: System, p: Party, r: JobId, s: JobId, g: SignedId, i: JobId, env: Env, now: Time)
    requires sys.orch == Idle && Waiting(sys, r, s, g, i, env, now, p)
    ensures var t := AtTime(now, Queue(Claims(p.service, {r})));
            && CanHappen(sys, t, p) && Next(sys, t, p) == sys.(db := HandedOver(sys.db, r, now, p), handed := {r})
            && Ready(Next(sys, t, p), r, s, g, i, env, p)
  {
    hide LoadContext;
    ApplyIsStep(sys.db, now, Claims(p.service, {r}), p.cfg);
    assert GrantAll(sys.db, {r}, p.service, now, p.cfg) == HandedOver(sys.db, r, now, p);
  }

  lemma {:induction false} Prefixed(sys: System, t: Timed, story: Story, p: Party)
    requires CanHappen(sys, t, p) && Possible(Next(sys, t, p), story, p)
    ensures Possible(sys, [t] + story, p) && After(sys, [t] + story, p) == After(Next(sys, t, p), story, p)
  {
    hide CanHappen, Next;
    if story == [] {
      EmptyStory(sys, p);
      EmptyStory(Next(sys, t, p), p);
      Extend(sys, [], t, p);
      assert [] + [t] == [t] + story;
    } else {
      var front, last := story[..|story| - 1], story[|story| - 1];
      Prefixed(sys, t, front, p);
      Extend(sys, [t] + front, last, p);
      assert ([t] + front) + [last] == [t] + story;
    }
  }

  /** If the install child is already completed, the next attempt runs straight
      through, from the claim that hands the refresh out again on: it inserts
      nothing, claims nothing else, touches no row but the refresh's own, and
      completes it with the same artifact and install job. */
  lemma RecoveryAttempt(sys: System, p: Party, r: JobId, s: JobId, g: SignedId, i: JobId, env: Env, now: Time,
                        at: seq<Time>)
    requires Inv(sys, p) && sys.orch == Idle && |at| == 7 && Waiting(sys, r, s, g, i, env, now, p)
    ensures var story := [AtTime(now, Queue(Claims(p.service, {r})))] + Attempt(r, env, at);
            Possible(sys, story, p) && CompletedAlone(HandedOver(sys.db, r, now, p), After(sys, story, p), r, g, i)
  {
    hide Inv, Waiting, Next, After, Possible, Ready, CanHappen, CompletedAlone;
    var t := AtTime(now, Queue(Claims(p.service, {r})));
    ClaimMakesReady(sys, p, r, s, g, i, env, now);
    NextKeepsInv(sys, t, p);
    RunsThrough(Next(sys, t, p), p, r, s, g, i, env, at);
    Prefixed(sys, t, Attempt(r, env, at), p);
  }
}
