/** Conflicting jobs: when two agents can be at work on one device at a time, and
    when two jobs can. The refresh workflow keeps two jobs of one device in one
    agent's hands: a refresh and its install child. */
module Conflicts {
  import opened Prelude
  import opened JobRows
  import opened JobQueue
  import opened JobRuns
  import opened JobHistory

  // ------------------------------------------------------------ jobs and agents

  predicate SameDevice(a: Job, b: Job) { a.device.Some? && a.device == b.device }

  /** No two active rows share a device. */
  ghost predicate Exclusive(db: Db) {
    forall a, b :: a in db.jobs && b in db.jobs && a != b && SameDevice(db.jobs[a], db.jobs[b]) ==>
      !(Active(db.jobs[a]) && Active(db.jobs[b]))
  }

  /** No row the step grants shares its device with an active row, or with another
      row it grants. */
  ghost predicate Clean(db: Db, s: Stamped) {
    forall g, x ::
      g in db.jobs && x in db.jobs && g != x && SameDevice(db.jobs[g], db.jobs[x]) && GrantsAnyone(db, s, g) ==>
        !Active(db.jobs[x]) && !GrantsAnyone(db, s, x)
  }

  /** A row is active after a step only if it was before, in the same hands, or the
      step granted it; and a granting step leaves every active row as it is held. */
  lemma ActiveAfter(db: Db, s: Stamped, cfg: Config, id: JobId)
    requires WellFormed(db) && Enabled(db, s)
    ensures var after := Step(db, s, cfg).jobs;
            && (id in after && Active(after[id]) ==>
                  && id in db.jobs && after[id].device == db.jobs[id].device
                  && (if GrantsAnyone(db, s, id) then after[id].claimedBy == Some(s.event.agent)
                      else Active(db.jobs[id]) && after[id].claimedBy == db.jobs[id].claimedBy))
            && (id in db.jobs && GrantsAnyone(db, s, id) ==>
                  && id in after && Active(after[id]) && after[id].device == db.jobs[id].device
                  && after[id].claimedBy == Some(s.event.agent))
            && (id in db.jobs && Active(db.jobs[id]) && (s.event.Claims? || s.event.ClaimsOne?) ==>
                  && id in after && Active(after[id]) && after[id].device == db.jobs[id].device
                  && after[id].claimedBy == db.jobs[id].claimedBy)
  {
    hide Step, WellFormed;
    if id in db.jobs {
      RowStep(db, s, cfg, id);
    } else {
      NewRowStep(db, s, cfg, id);
    }
  }

  lemma CleanKeepsExclusive(db: Db, s: Stamped, cfg: Config)
    requires WellFormed(db) && Enabled(db, s) && Exclusive(db) && Clean(db, s)
    ensures Exclusive(Step(db, s, cfg))
  {
    hide Step, WellFormed, Enabled, GrantsAnyone, Active;
    var after := Step(db, s, cfg).jobs;
    forall a, b | a in after && b in after && a != b && SameDevice(after[a], after[b])
      ensures !(Active(after[a]) && Active(after[b]))
    {
      ActiveAfter(db, s, cfg, a);
      ActiveAfter(db, s, cfg, b);
    }
  }

  lemma UncleanBreaksExclusive(db: Db, s: Stamped, cfg: Config)
    requires WellFormed(db) && Enabled(db, s) && !Clean(db, s)
    ensures !Exclusive(Step(db, s, cfg))
  {
    hide Step, WellFormed, Enabled, Active;
    var g, x :| g in db.jobs && x in db.jobs && g != x && SameDevice(db.jobs[g], db.jobs[x]) && GrantsAnyone(db, s, g)
      && (Active(db.jobs[x]) || GrantsAnyone(db, s, x));
    ActiveAfter(db, s, cfg, g);
    ActiveAfter(db, s, cfg, x);
    var after := Step(db, s, cfg).jobs;
    assert SameDevice(after[g], after[x]);
  }

  /** One step keeps each device at one active job if and only if what it grants
      shares a device with nothing. */
  lemma ExclusiveStep(db: Db, s: Stamped, cfg: Config)
    requires WellFormed(db) && Enabled(db, s) && Exclusive(db)
    ensures Exclusive(Step(db, s, cfg)) <==> Clean(db, s)
  {
    hide Step, WellFormed, Enabled, Clean, Exclusive;
    if Clean(db, s) { CleanKeepsExclusive(db, s, cfg); } else { UncleanBreaksExclusive(db, s, cfg); }
  }

  ghost predicate AlwaysExclusive(db: Db, run: Run, cfg: Config) {
    forall k :: 0 <= k <= |run| ==> Exclusive(Before(db, run, cfg, k))
  }

  ghost predicate AlwaysClean(db: Db, run: Run, cfg: Config) {
    forall k :: 0 <= k < |run| ==> Clean(Before(db, run, cfg, k), run[k])
  }

  lemma AlwaysFront(db: Db, run: Run, cfg: Config)
    requires run != []
    ensures var front, last := run[..|run| - 1], run[|run| - 1];
            && (AlwaysExclusive(db, run, cfg) <==> AlwaysExclusive(db, front, cfg) && Exclusive(Exec(db, run, cfg)))
            && (AlwaysClean(db, run, cfg) <==> AlwaysClean(db, front, cfg) && Clean(Exec(db, front, cfg), last))
  {
    hide Exec, Exclusive, Clean;
    var n := |run| - 1;
    assert run[..n][..n] == run[..n] && run[..n + 1] == run;
    forall k | 0 <= k <= n
      ensures Before(db, run[..n], cfg, k) == Before(db, run, cfg, k)
    {
      assert run[..n][..k] == run[..k];
    }
    assert Before(db, run, cfg, n + 1) == Exec(db, run, cfg) && Before(db, run, cfg, n) == Exec(db, run[..n], cfg);
  }

  /** No two jobs of one device are ever active together, over a whole run, if and
      only if every step of it is clean. */
  lemma {:induction false} ExclusiveRun(db: Db, run: Run, cfg: Config)
    requires WellFormed(db) && Legal(db, run, cfg) && Exclusive(db)
    ensures AlwaysExclusive(db, run, cfg) <==> AlwaysClean(db, run, cfg)
  {
    hide Step, WellFormed, Enabled, Clean, Exclusive, AlwaysExclusive, AlwaysClean;
    if run == [] {
      assert AlwaysExclusive(db, run, cfg) && AlwaysClean(db, run, cfg) by { NothingRun(db, cfg); }
    } else {
      var front, last := run[..|run| - 1], run[|run| - 1];
      ExclusiveRun(db, front, cfg);
      AlwaysFront(db, run, cfg);
      RunWellFormed(db, front, cfg);
      if AlwaysExclusive(db, front, cfg) {
        AtTheEnd(db, front, cfg);
        ExclusiveStep(Exec(db, front, cfg), last, cfg);
      }
    }
  }

  lemma NothingRun(db: Db, cfg: Config)
    requires Exclusive(db)
    ensures AlwaysExclusive(db, [], cfg) && AlwaysClean(db, [], cfg)
  {
  }

  lemma AtTheEnd(db: Db, run: Run, cfg: Config)
    requires AlwaysExclusive(db, run, cfg)
    ensures Exclusive(Exec(db, run, cfg))
  {
    assert run[..|run|] == run;
    assert Exclusive(Before(db, run, cfg, |run|));
  }

  // ------------------------------------------------------- two agents, one device

  /** No two agents are at work on one device. */
  ghost predicate Apart(db: Db) {
    forall a, b :: a in db.jobs && b in db.jobs && SameDevice(db.jobs[a], db.jobs[b])
                   && Active(db.jobs[a]) && Active(db.jobs[b]) ==>
      db.jobs[a].claimedBy == db.jobs[b].claimedBy
  }

  /** No row the step grants is for a device another agent is at work on. */
  ghost predicate Polite(db: Db, s: Stamped) {
    forall g, x :: g in db.jobs && x in db.jobs && SameDevice(db.jobs[g], db.jobs[x])
                   && GrantsAnyone(db, s, g) && Active(db.jobs[x]) ==>
      db.jobs[x].claimedBy == Some(s.event.agent)
  }

  lemma PoliteKeepsApart(db: Db, s: Stamped, cfg: Config)
    requires WellFormed(db) && Enabled(db, s) && Apart(db) && Polite(db, s)
    ensures Apart(Step(db, s, cfg))
  {
    hide Step, WellFormed, Enabled, Active;
    var after := Step(db, s, cfg).jobs;
    forall a, b | a in after && b in after && SameDevice(after[a], after[b]) && Active(after[a]) && Active(after[b])
      ensures after[a].claimedBy == after[b].claimedBy
    {
      ActiveAfter(db, s, cfg, a);
      ActiveAfter(db, s, cfg, b);
      assert SameDevice(db.jobs[a], db.jobs[b]) && SameDevice(db.jobs[b], db.jobs[a]);
    }
  }

  lemma GrantedIsIdle(db: Db, s: Stamped, id: JobId)
    requires Enabled(db, s) && id in db.jobs && GrantsAnyone(db, s, id)
    ensures !Active(db.jobs[id]) && (s.event.Claims? || s.event.ClaimsOne?)
  {
  }

  lemma ImpoliteBreaksApart(db: Db, s: Stamped, cfg: Config)
    requires WellFormed(db) && Enabled(db, s) && !Polite(db, s)
    ensures !Apart(Step(db, s, cfg))
  {
    hide Step, WellFormed, Enabled, Active;
    var g, x :| g in db.jobs && x in db.jobs && SameDevice(db.jobs[g], db.jobs[x])
      && GrantsAnyone(db, s, g) && Active(db.jobs[x]) && db.jobs[x].claimedBy != Some(s.event.agent);
    GrantedIsIdle(db, s, g);
    ActiveAfter(db, s, cfg, g);
    ActiveAfter(db, s, cfg, x);
    var after := Step(db, s, cfg).jobs;
    assert SameDevice(after[g], after[x]);
  }

  /** One step keeps two agents from one device if and only if it grants no job of
      a device that another agent is at work on. */
  lemma ApartStep(db: Db, s: Stamped, cfg: Config)
    requires WellFormed(db) && Enabled(db, s) && Apart(db)
    ensures Apart(Step(db, s, cfg)) <==> Polite(db, s)
  {
    hide Step, WellFormed, Enabled, Polite, Apart;
    if Polite(db, s) { PoliteKeepsApart(db, s, cfg); } else { ImpoliteBreaksApart(db, s, cfg); }
  }

  ghost predicate AlwaysApart(db: Db, run: Run, cfg: Config) {
    forall k :: 0 <= k <= |run| ==> Apart(Before(db, run, cfg, k))
  }

  ghost predicate AlwaysPolite(db: Db, run: Run, cfg: Config) {
    forall k :: 0 <= k < |run| ==> Polite(Before(db, run, cfg, k), run[k])
  }

  lemma ApartFront(db: Db, run: Run, cfg: Config)
    requires run != []
    ensures var front, last := run[..|run| - 1], run[|run| - 1];
            && (AlwaysApart(db, run, cfg) <==> AlwaysApart(db, front, cfg) && Apart(Exec(db, run, cfg)))
            && (AlwaysPolite(db, run, cfg) <==> AlwaysPolite(db, front, cfg) && Polite(Exec(db, front, cfg), last))
            && (AlwaysApart(db, front, cfg) ==> Apart(Exec(db, front, cfg)))
  {
    hide Exec, Apart, Polite;
    var n := |run| - 1;
    assert run[..n][..n] == run[..n] && run[..n + 1] == run;
    forall k | 0 <= k <= n
      ensures Before(db, run[..n], cfg, k) == Before(db, run, cfg, k)
    {
      assert run[..n][..k] == run[..k];
    }
    assert Before(db, run, cfg, n + 1) == Exec(db, run, cfg) && Before(db, run, cfg, n) == Exec(db, run[..n], cfg);
  }

  /** No two agents are ever at work on one device, over a whole run, if and only
      if no step of it grants a job of a device another agent is at work on. */
  lemma {:induction false} ApartRun(db: Db, run: Run, cfg: Config)
    requires WellFormed(db) && Legal(db, run, cfg) && Apart(db)
    ensures AlwaysApart(db, run, cfg) <==> AlwaysPolite(db, run, cfg)
  {
    hide Step, WellFormed, Enabled, Polite, Apart, AlwaysApart, AlwaysPolite;
    if run == [] {
      assert AlwaysApart(db, run, cfg) && AlwaysPolite(db, run, cfg) by { NobodyMet(db, cfg); }
    } else {
      var front, last := run[..|run| - 1], run[|run| - 1];
      ApartRun(db, front, cfg);
      ApartFront(db, run, cfg);
      RunWellFormed(db, front, cfg);
      if AlwaysApart(db, front, cfg) { ApartStep(Exec(db, front, cfg), last, cfg); }
    }
  }

  lemma NobodyMet(db: Db, cfg: Config)
    requires Apart(db)
    ensures AlwaysApart(db, [], cfg) && AlwaysPolite(db, [], cfg)
  {
  }

  // ------------------------------------------------------------ one Claim call

  /** An agent other than this one is at work on the device. */
  ghost predicate BusyForOthers(db: Db, device: Option<DeviceId>, agent: AgentId) {
    exists x :: x in db.jobs && Active(db.jobs[x]) && db.jobs[x].claimedBy != Some(agent)
                && db.jobs[x].device.Some? && db.jobs[x].device == device
  }

  /** One Claim keeps two agents from one device if and only if no other agent is at
      work on the device of any job it hands out: the lock on the device row does
      not see to that. */
  lemma ClaimKeepsApart(db: Db, fleet: Fleet, agent: AgentId, req: ClaimRequest, locked: set<JobId>, now: Time,
                        claimed: seq<JobId>, cfg: Config)
    requires WellFormed(db) && Apart(db) && ClaimAnswers(db.jobs, fleet, agent, req, locked, now, claimed)
    ensures Apart(GrantAll(db, Elements(claimed), agent, now, cfg))
            <==> forall id :: id in claimed ==> id in db.jobs && !BusyForOthers(db, db.jobs[id].device, agent)
  {
    hide WellFormed, Apart, Polite, Enabled, ClaimAnswers, BusyForOthers, Step;
    var s := At(now, Claims(agent, Elements(claimed)));
    ClaimedArePending(db.jobs, fleet, agent, req, locked, now, claimed);
    assert Enabled(db, s) by { PendingIsEnabled(db, agent, claimed, now); }
    assert Step(db, s, cfg) == GrantAll(db, Elements(claimed), agent, now, cfg) by { ClaimStep(db, s, cfg); }
    ApartStep(db, s, cfg);
    ClaimIsPolite(db, agent, claimed, now);
  }

  lemma ClaimIsPolite(db: Db, agent: AgentId, claimed: seq<JobId>, now: Time)
    requires forall id :: id in claimed ==> id in db.jobs && db.jobs[id].state == Pending
    ensures Polite(db, At(now, Claims(agent, Elements(claimed))))
            <==> forall id :: id in claimed ==> !BusyForOthers(db, db.jobs[id].device, agent)
  {
    var s := At(now, Claims(agent, Elements(claimed)));
    if !Polite(db, s) {
      var g, x :| g in db.jobs && x in db.jobs && SameDevice(db.jobs[g], db.jobs[x])
        && GrantsAnyone(db, s, g) && Active(db.jobs[x]) && db.jobs[x].claimedBy != Some(agent);
      assert g in claimed && BusyForOthers(db, db.jobs[g].device, agent);
    }
  }

  /** Someone is at work on the device. */
  ghost predicate Busy(db: Db, device: Option<DeviceId>) {
    exists x :: x in db.jobs && Active(db.jobs[x]) && db.jobs[x].device.Some? && db.jobs[x].device == device
  }

  /** Claim hands out at most one job a device, so all that can bring two jobs of a
      device together is a device that has one active already. */
  lemma ClaimKeepsExclusive(db: Db, fleet: Fleet, agent: AgentId, req: ClaimRequest, locked: set<JobId>, now: Time,
                            claimed: seq<JobId>, cfg: Config)
    requires WellFormed(db) && Exclusive(db) && ClaimAnswers(db.jobs, fleet, agent, req, locked, now, claimed)
    ensures Exclusive(GrantAll(db, Elements(claimed), agent, now, cfg))
            <==> forall id :: id in claimed ==> id in db.jobs && !Busy(db, db.jobs[id].device)
  {
    hide WellFormed, Exclusive, Clean, Enabled, ClaimAnswers, Busy, Step;
    var s := At(now, Claims(agent, Elements(claimed)));
    ClaimedArePending(db.jobs, fleet, agent, req, locked, now, claimed);
    assert Enabled(db, s) by { PendingIsEnabled(db, agent, claimed, now); }
    assert Step(db, s, cfg) == GrantAll(db, Elements(claimed), agent, now, cfg) by { ClaimStep(db, s, cfg); }
    ExclusiveStep(db, s, cfg);
    ClaimIsClean(db, agent, claimed, now);
  }

  lemma ClaimedArePending(jobs: map<JobId, Job>, fleet: Fleet, agent: AgentId, req: ClaimRequest, locked: set<JobId>,
                          now: Time, claimed: seq<JobId>)
    requires ClaimAnswers(jobs, fleet, agent, req, locked, now, claimed)
    ensures forall id :: id in claimed ==> id in jobs && jobs[id].state == Pending && Due(jobs[id], now)
    ensures DevicesAscend(jobs, claimed)
  {
    forall id | id in claimed ensures id in jobs && jobs[id].state == Pending && Due(jobs[id], now) {
      assert JobQueue.Proper(jobs, fleet, agent, req, locked, now, id);
    }
  }

  lemma PendingIsEnabled(db: Db, agent: AgentId, claimed: seq<JobId>, now: Time)
    requires forall id :: id in claimed ==> id in db.jobs && db.jobs[id].state == Pending && Due(db.jobs[id], now)
    ensures Enabled(db, At(now, Claims(agent, Elements(claimed))))
  {
  }

  lemma ClaimStep(db: Db, s: Stamped, cfg: Config)
    requires s.event.Claims?
    ensures Step(db, s, cfg) == GrantAll(db, s.event.ids, s.event.agent, s.now, cfg)
  {
  }

  lemma ClaimIsClean(db: Db, agent: AgentId, claimed: seq<JobId>, now: Time)
    requires forall id :: id in claimed ==> id in db.jobs && db.jobs[id].state == Pending
    requires DevicesAscend(db.jobs, claimed)
    ensures Clean(db, At(now, Claims(agent, Elements(claimed))))
            <==> forall id :: id in claimed ==> !Busy(db, db.jobs[id].device)
  {
    hide DevicesAscend;
    var s := At(now, Claims(agent, Elements(claimed)));
    forall g, x | g in claimed && x in claimed && g != x ensures !SameDevice(db.jobs[g], db.jobs[x]) {
      DifferentDevices(db.jobs, claimed, g, x);
    }
    if !Clean(db, s) {
      var g, x :| g in db.jobs && x in db.jobs && g != x && SameDevice(db.jobs[g], db.jobs[x]) && GrantsAnyone(db, s, g)
        && (Active(db.jobs[x]) || GrantsAnyone(db, s, x));
      assert g in claimed && Busy(db, db.jobs[g].device);
    }
  }

  lemma DifferentDevices(jobs: map<JobId, Job>, claimed: seq<JobId>, g: JobId, x: JobId)
    requires forall id :: id in claimed ==> id in jobs
    requires DevicesAscend(jobs, claimed) && g in claimed && x in claimed && g != x
    ensures !SameDevice(jobs[g], jobs[x])
  {
    var i :| 0 <= i < |claimed| && claimed[i] == g;
    var j :| 0 <= j < |claimed| && claimed[j] == x;
    assert i < j || j < i;
  }

  // -------------------------------------------------------- a run that conflicts

  const CFG := Config(120, 172800)
  const FIRST := NewRow(Install, Some(0), Params(None, None, None, None), PlainKey("a"), None, 5, None)
  const SECOND := NewRow(Uninstall, Some(0), Params(None, None, None, None), PlainKey("b"), None, 5, None)
  const FLEET := Fleet(map[1 := AgentRow(DeviceService, false), 2 := AgentRow(DeviceService, false)], map[0 := Some(1)])
  const ANYTHING := ClaimRequest({}, {Install, Uninstall}, 10)
  const EMPTY := Db(map[], map[], 0, map[], map[])
  const QUEUED := Db(map[0 := FIRST, 1 := SECOND], map[PlainKey("a") := 0, PlainKey("b") := 1], 2, map[], map[])
  const ONE_TAKEN := QUEUED.(jobs := map[0 := Grant(FIRST, 1, 0, CFG), 1 := SECOND])
  const BOTH_TAKEN := QUEUED.(jobs := map[0 := Grant(FIRST, 1, 0, CFG), 1 := Grant(SECOND, 2, 0, CFG)])

  /** The answers are Claim's own: to the first agent the earlier job, and to the
      second the next one of the same device. */
  lemma BothClaimsAnswer()
    ensures ClaimAnswers(QUEUED.jobs, FLEET, 1, ANYTHING, {}, 0, [0])
    ensures ClaimAnswers(ONE_TAKEN.jobs, FLEET, 2, ANYTHING, {}, 0, [1])
  {
    assert 0 in [0] && 1 in [1];
    assert Served(QUEUED.jobs, [0], Some(0)) && Served(ONE_TAKEN.jobs, [1], Some(0));
  }

  lemma RunOne(db: Db, run: Run, s: Stamped, cfg: Config)
    requires Legal(db, run, cfg) && Enabled(Exec(db, run, cfg), s)
    ensures Legal(db, run + [s], cfg) && Exec(db, run + [s], cfg) == Step(Exec(db, run, cfg), s, cfg)
  {
    hide Step, Enabled;
    assert (run + [s])[..|run|] == run;
  }

  lemma QueueTwo() returns (run: Run)
    ensures Legal(EMPTY, run, CFG) && Exec(EMPTY, run, CFG) == QUEUED
    ensures run == [At(0, Creates(FIRST)), At(0, Creates(SECOND))]
  {
    hide Exec, Legal;
    assert Legal(EMPTY, [], CFG) && Exec(EMPTY, [], CFG) == EMPTY by { NothingYet(); }
    RunOne(EMPTY, [], At(0, Creates(FIRST)), CFG);
    run := [] + [At(0, Creates(FIRST))];
    RunOne(EMPTY, run, At(0, Creates(SECOND)), CFG);
    run := run + [At(0, Creates(SECOND))];
  }

  lemma NothingYet()
    ensures Legal(EMPTY, [], CFG) && Exec(EMPTY, [], CFG) == EMPTY
  {
  }

  /** From an empty queue, two ordinary claims by two agents leave both of them at
      work on one device. */
  lemma TwoAgentsOneDevice() returns (run: Run)
    ensures run == [At(0, Creates(FIRST)), At(0, Creates(SECOND)), At(0, Claims(1, {0})), At(0, Claims(2, {1}))]
    ensures Legal(EMPTY, run, CFG) && WellFormed(EMPTY) && Apart(EMPTY) && Exclusive(EMPTY)
    ensures var end := Exec(EMPTY, run, CFG);
            && 0 in end.jobs && 1 in end.jobs && SameDevice(end.jobs[0], end.jobs[1])
            && Active(end.jobs[0]) && end.jobs[0].claimedBy == Some(1)
            && Active(end.jobs[1]) && end.jobs[1].claimedBy == Some(2)
            && !Apart(end) && !Exclusive(end)
  {
    hide Exec, Legal;
    run := QueueTwo();
    var s, t := At(0, Claims(1, {0})), At(0, Claims(2, {1}));
    assert Step(QUEUED, s, CFG) == ONE_TAKEN && Step(ONE_TAKEN, t, CFG) == BOTH_TAKEN;
    RunOne(EMPTY, run, s, CFG);
    run := run + [s];
    RunOne(EMPTY, run, t, CFG);
    run := run + [t];
  }

  const BOTH_MINE := QUEUED.(jobs := map[0 := Grant(FIRST, 1, 0, CFG), 1 := Grant(SECOND, 1, 0, CFG)])

  lemma MyClaimsAnswer()
    ensures ClaimAnswers(QUEUED.jobs, FLEET, 1, ANYTHING, {}, 0, [0])
    ensures ClaimAnswers(ONE_TAKEN.jobs, FLEET, 1, ANYTHING, {}, 0, [1])
  {
    assert 0 in [0] && 1 in [1];
    assert Served(QUEUED.jobs, [0], Some(0)) && Served(ONE_TAKEN.jobs, [1], Some(0));
  }

  lemma BothMineLooks()
    ensures Apart(BOTH_MINE) && !Exclusive(BOTH_MINE)
  {
    assert SameDevice(BOTH_MINE.jobs[0], BOTH_MINE.jobs[1]);
  }

  /** One agent may come to hold two jobs of a device, through Claim's own answers:
      then no two agents meet, though two jobs are active. */
  lemma OneAgentTwoJobs() returns (run: Run)
    ensures ClaimAnswers(QUEUED.jobs, FLEET, 1, ANYTHING, {}, 0, [0])
    ensures ClaimAnswers(ONE_TAKEN.jobs, FLEET, 1, ANYTHING, {}, 0, [1])
    ensures run == [At(0, Creates(FIRST)), At(0, Creates(SECOND)), At(0, Claims(1, {0})), At(0, Claims(1, {1}))]
    ensures Legal(EMPTY, run, CFG) && Apart(Exec(EMPTY, run, CFG)) && !Exclusive(Exec(EMPTY, run, CFG))
  {
    hide Exec, Legal, ClaimAnswers, Apart, Exclusive;
    MyClaimsAnswer();
    BothMineLooks();
    run := QueueTwo();
    var s, t := At(0, Claims(1, {0})), At(0, Claims(1, {1}));
    assert Step(QUEUED, s, CFG) == ONE_TAKEN && Step(ONE_TAKEN, t, CFG) == BOTH_MINE;
    RunOne(EMPTY, run, s, CFG);
    run := run + [s];
    RunOne(EMPTY, run, t, CFG);
    run := run + [t];
  }
}
