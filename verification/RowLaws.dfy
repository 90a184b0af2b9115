/** What each queue transaction writes, column by column, and what follows over
    several of them. */
module RowLaws {
  import opened Prelude
  import opened JobRows
  import opened JobQueue
  import opened JobRuns
  import opened JobHistory
  import opened Leases
  import Backoff

  // ------------------------------------------------------------------ inserts

  /** A job put in the queue waits there, unclaimed and on no attempt; an insert
      under a key that is taken changes nothing and finds the row that holds it. */
  lemma InsertMeans(db: Db, jobType: JobType, device: Option<DeviceId>, params: Params, key: Key, retryAt: Option<Time>,
                    maxAttempts: int, parent: Option<JobId>)
    ensures var (after, id) := Insert(db, NewRow(jobType, device, params, key, retryAt, maxAttempts, parent));
            if key in db.keys then after == db && id == db.keys[key]
            else
              && id == db.nextId && after.nextId == db.nextId + 1
              && after.keys == db.keys[key := id] && after.jobs.Keys == db.jobs.Keys + {id}
              && (forall x :: x in db.jobs && x != id ==> after.jobs[x] == db.jobs[x])
              && after.deployments == db.deployments && after.records == db.records
              && after.jobs[id] == Job(jobType, device, Pending, 0, maxAttempts, None, None, retryAt, None, None, false,
                                       params, NoResult, key, parent)
  {
  }

  // ------------------------------------------------------------------- grants

  /** Step s hands row id to the agent: a Claim that lists it, or a ClaimSpecific of
      a row that is neither completed nor in anyone's hands. */
  predicate HandsTo(db: Db, s: Stamped, id: JobId, agent: AgentId)
    requires id in db.jobs
  {
    match s.event
    case Claims(a, ids) => a == agent && id in ids
    case ClaimsOne(a, i) => a == agent && i == id && db.jobs[id].state in {Pending, Failed, Dead}
    case _ => false
  }

  /** Being handed a job starts an attempt and a lease, and touches nothing else of the row. */
  lemma GrantMeans(db: Db, s: Stamped, cfg: Config, id: JobId, agent: AgentId)
    requires WellFormed(db) && id in db.jobs && HandsTo(db, s, id, agent)
    ensures var after := Step(db, s, cfg).jobs;
            && id in after && after[id].state == Claimed && after[id].claimedBy == Some(agent)
            && after[id].attempt == db.jobs[id].attempt + 1
            && after[id].lease == Some(s.now + cfg.lease) && after[id].retryAt == None
            && after[id] == db.jobs[id].(state := Claimed, claimedBy := Some(agent), attempt := after[id].attempt,
                                         lease := after[id].lease, retryAt := None)
  {
    RowStep(db, s, cfg, id);
  }

  /** A lease starts with the grant: the agent has the job from then on, if and only
      if every later reap comes within a lease of its latest heartbeat, the grant
      counting as the first, and nobody purges the job's key. */
  lemma LeaseFromGrant(db: Db, s: Stamped, run: Run, cfg: Config, id: JobId, agent: AgentId)
    requires WellFormed(db) && Enabled(db, s) && id in db.jobs && HandsTo(db, s, id, agent)
    requires Legal(Step(db, s, cfg), run, cfg)
    requires StillWorking(run, Hold(id, db.jobs[id].key, agent, db.jobs[id].attempt + 1))
    ensures var h, start := Hold(id, db.jobs[id].key, agent, db.jobs[id].attempt + 1), Step(db, s, cfg);
            && Keeps(start, h, s.now, cfg)
            && start.jobs[id].lease == Some(s.now + cfg.lease)
            && (Keeps(Exec(start, run, cfg), h, LastBeat(run, h, s.now), cfg) <==> NeverEnds(run, h, s.now, cfg))
  {
    hide Step, WellFormed, Legal, Exec;
    StepWellFormed(db, s, cfg);
    GrantMeans(db, s, cfg, id, agent);
    LeaseKeeping(Step(db, s, cfg), run, cfg, Hold(id, db.jobs[id].key, agent, db.jobs[id].attempt + 1), s.now);
  }

  /** What ClaimSpecific answers: the row as it is if it is completed or already the
      caller's, an error if it is another's, and else the row as granted. */
  lemma ClaimSpecificMeans(db: Db, agent: AgentId, id: JobId, now: Time, cfg: Config)
    ensures var (after, reply) := ClaimOne(db, agent, id, now, cfg);
            if id !in db.jobs then after == db && reply == Err(NotFound)
            else
              var j := db.jobs[id];
              if j.state == Completed || ((j.state == Claimed || j.state == InProgress) && j.claimedBy == Some(agent))
              then after == db && reply == Ok(j)
              else if j.state == Claimed || j.state == InProgress then after == db && reply == Err(AlreadyActive)
              else
                && id in after.jobs && reply == Ok(after.jobs[id])
                && after == db.(jobs := db.jobs[id := after.jobs[id]])
                && after.jobs[id] == j.(state := Claimed, claimedBy := Some(agent), attempt := j.attempt + 1,
                                        lease := Some(now + cfg.lease), retryAt := None)
  {
  }

  // ------------------------------------------------------------------- claims

  /** The caller may take jobs of any device. */
  predicate AnyDevice(fleet: Fleet, agent: AgentId, types: set<JobType>) {
    || agent == 0
    || (agent in fleet.agents && fleet.agents[agent].role in {DeviceService, SigningWorker})
    || (types != {} && types <= {Sign, ExportP12, AppIDs})
  }

  /** The row is one this caller may be handed now. */
  predicate Offered(jobs: map<JobId, Job>, fleet: Fleet, agent: AgentId, req: ClaimRequest, locked: set<JobId>,
                    now: Time,
                    id: JobId)
  {
    && id in jobs && id !in locked && jobs[id].state == Pending
    && (jobs[id].retryAt == None || jobs[id].retryAt.value <= now)
    && (if req.types == {} then jobs[id].jobType != Sign else jobs[id].jobType in req.types)
    && match jobs[id].device
       case None => req.types != {} && req.devices == {} && AnyDevice(fleet, agent, req.types)
       case Some(d) =>
         && d in fleet.owners && (req.devices == {} || d in req.devices)
         && (AnyDevice(fleet, agent, req.types) || fleet.owners[d] == Some(agent))
  }

  /** Claim hands out only jobs on offer, of each device the earliest. */
  lemma ClaimHandsOut(jobs: map<JobId, Job>, fleet: Fleet, agent: AgentId, req: ClaimRequest, locked: set<JobId>,
                      now: Time, claimed: seq<JobId>)
    requires ClaimAnswers(jobs, fleet, agent, req, locked, now, claimed)
    ensures forall id :: id in claimed ==> Offered(jobs, fleet, agent, req, locked, now, id)
    ensures forall id, other ::
      id in claimed && Offered(jobs, fleet, agent, req, locked, now, other) && jobs[other].device == jobs[id].device ==>
        id <= other
  {
    hide DevicesAscend, CutOff, Served;
    forall id | id in claimed ensures Offered(jobs, fleet, agent, req, locked, now, id) {
      assert JobQueue.Proper(jobs, fleet, agent, req, locked, now, id);
    }
    forall id, other | id in claimed && Offered(jobs, fleet, agent, req, locked, now, other)
                       && jobs[other].device == jobs[id].device
      ensures id <= other
    {
      assert JobQueue.Proper(jobs, fleet, agent, req, locked, now, id);
      assert Takable(jobs, locked, other, req.types, now);
    }
  }

  /** The one job has no device, or an earlier one than the other job. */
  predicate InDeviceOrder(jobs: map<JobId, Job>, id: JobId, other: JobId) {
    && id in jobs && other in jobs && jobs[other].device.Some?
    && (jobs[id].device == None || jobs[id].device.value < jobs[other].device.value)
  }

  /** At most as many as asked for, if that is 1 to 100, else at most ten; a job
      without a device first, and then by device, so never two of one. */
  lemma ClaimIsBounded(jobs: map<JobId, Job>, fleet: Fleet, agent: AgentId, req: ClaimRequest, locked: set<JobId>,
                       now: Time, claimed: seq<JobId>)
    requires ClaimAnswers(jobs, fleet, agent, req, locked, now, claimed)
    ensures |claimed| <= if 1 <= req.limit <= 100 then req.limit else 10
    ensures forall i, j :: 0 <= i < j < |claimed| ==> InDeviceOrder(jobs, claimed[i], claimed[j])
  {
    hide JobQueue.Proper, CutOff, Served, Takable;
    forall i, j | 0 <= i < j < |claimed| ensures InDeviceOrder(jobs, claimed[i], claimed[j]) {
      assert claimed[i] in claimed && claimed[j] in claimed;
      InTable(jobs, fleet, agent, req, locked, now, claimed[i]);
      InTable(jobs, fleet, agent, req, locked, now, claimed[j]);
    }
  }

  /** With less than that, something of every device that has a job on offer. */
  lemma ClaimMissesNothing(jobs: map<JobId, Job>, fleet: Fleet, agent: AgentId, req: ClaimRequest, locked: set<JobId>,
                           now: Time, claimed: seq<JobId>, other: JobId)
    requires ClaimAnswers(jobs, fleet, agent, req, locked, now, claimed)
    requires |claimed| < if 1 <= req.limit <= 100 then req.limit else 10
    requires Offered(jobs, fleet, agent, req, locked, now, other)
    ensures exists id :: id in claimed && id in jobs && jobs[id].device == jobs[other].device
  {
    hide DevicesAscend, CutOff, JobQueue.Proper;
    forall id | id in claimed ensures id in jobs { InTable(jobs, fleet, agent, req, locked, now, id); }
    assert Takable(jobs, locked, other, req.types, now);
    if jobs[other].device.Some? { NotCutOff(jobs, claimed, NormalLimit(req.limit), jobs[other].device.value); }
    assert Served(jobs, claimed, jobs[other].device);
  }

  lemma NotCutOff(jobs: map<JobId, Job>, claimed: seq<JobId>, limit: nat, d: DeviceId)
    requires (forall id :: id in claimed ==> id in jobs) && |claimed| < limit
    ensures !CutOff(jobs, claimed, limit, d)
  {
  }

  // ------------------------------------------------------------------ updates

  predicate AtWork(j: Job) { j.state == Claimed || j.state == InProgress }

  /** The update is accepted. */
  predicate Accepts(db: Db, agent: AgentId, id: JobId, req: UpdateRequest) {
    && id in db.jobs && db.jobs[id].claimedBy == Some(agent) && AtWork(db.jobs[id])
    && req.state in {Known(InProgress), Known(Completed), Known(Failed)}
    && (req.state == Known(Completed) ==> req.category == None && !req.hasDetails)
    && (db.jobs[id].jobType == Refresh && req.state != Known(InProgress) ==>
          db.jobs[id].params.deployment.Some? && (req.state == Known(Completed) ==> req.result != Malformed))
  }

  /** Each refusal, and the first check that fails to give it. */
  lemma RefusalMeans(db: Db, agent: AgentId, id: JobId, req: UpdateRequest)
    ensures Refusal(db, agent, id, req).None? <==> Accepts(db, agent, id, req)
    ensures Refusal(db, agent, id, req) == Some(NotFound) <==> id !in db.jobs
    ensures Refusal(db, agent, id, req) == Some(NotClaimed) <==> id in db.jobs && db.jobs[id].claimedBy != Some(agent)
    ensures Refusal(db, agent, id, req) == Some(InvalidTransition) <==>
      && id in db.jobs && db.jobs[id].claimedBy == Some(agent)
      && !(AtWork(db.jobs[id]) && req.state in {Known(InProgress), Known(Completed), Known(Failed)})
    ensures Refusal(db, agent, id, req) == Some(DuplicateColumn) <==>
      && id in db.jobs && db.jobs[id].claimedBy == Some(agent) && AtWork(db.jobs[id])
      && req.state == Known(Completed) && (req.category != None || req.hasDetails)
    ensures Refusal(db, agent, id, req) == Some(InvalidResult) ==> req.result == Malformed
  {
  }

  /** What an accepted update leaves in the row: a fresh lease while work goes on and
      none after it; no category on completion, else the reported one, else the one
      there was; the reported result, else the one there was. Nothing else changes. */
  lemma UpdateMeans(db: Db, agent: AgentId, id: JobId, req: UpdateRequest, now: Time, cfg: Config)
    requires Accepts(db, agent, id, req)
    ensures var j, after := db.jobs[id], Updated(db, agent, id, req, now, cfg);
            && after.keys == db.keys && after.nextId == db.nextId && id in after.jobs
            && after.jobs == db.jobs[id := after.jobs[id]]
            && Known(after.jobs[id].state) == req.state
            && after.jobs[id].lease == (if req.state == Known(InProgress) then Some(now + cfg.lease) else None)
            && (req.state == Known(Completed) ==> after.jobs[id].category == None)
            && (req.state != Known(Completed) && req.category.Some? ==> after.jobs[id].category == req.category)
            && (req.state != Known(Completed) && req.category.None? ==> after.jobs[id].category == j.category)
            && after.jobs[id].result == (if req.result == NoResult then j.result else req.result)
            && after.jobs[id] == j.(state := after.jobs[id].state, lease := after.jobs[id].lease,
                                    category := after.jobs[id].category, result := after.jobs[id].result)
  {
    RefusalMeans(db, agent, id, req);
    UpdatedRows(db, agent, id, req, now, cfg);
  }

  lemma RefusedMeansNothing(db: Db, agent: AgentId, id: JobId, req: UpdateRequest, now: Time, cfg: Config)
    requires !Accepts(db, agent, id, req)
    ensures Updated(db, agent, id, req, now, cfg) == db
  {
    RefusalMeans(db, agent, id, req);
  }

  /** The expiry a completed refresh records: the reported one, or a week from now. */
  function NewExpiry(req: UpdateRequest, now: Time): Time {
    if req.result.Reported? && req.result.profileExpiry.Some? then req.result.profileExpiry.value else now + 604800
  }

  /** What an accepted update writes besides the row: nothing, unless it ends a
      refresh; a failed one marks its deployment failed; a completed one dates the
      next refresh a lead before the expiry and records expiry, artifact and install
      job, keeping the previous artifact for rollback if it was another. */
  lemma OutcomeMeans(db: Db, agent: AgentId, id: JobId, req: UpdateRequest, now: Time, cfg: Config)
    requires Accepts(db, agent, id, req)
    ensures var j, after := db.jobs[id], Updated(db, agent, id, req, now, cfg);
            if j.jobType != Refresh || req.state == Known(InProgress)
            then after.deployments == db.deployments && after.records == db.records
            else
              var d := j.params.deployment.value;
              && after.deployments.Keys == db.deployments.Keys && after.records.Keys == db.records.Keys
              && (forall x :: x in db.deployments && x != d ==> after.deployments[x] == db.deployments[x])
              && (forall x :: x in db.records && x != d ==> after.records[x] == db.records[x])
              && (req.state == Known(Failed) ==>
                    && after.records == db.records
                    && (d in db.deployments ==> after.deployments[d] == db.deployments[d].(outcome := RefreshFailed)))
              && (req.state == Known(Completed) ==>
                    var signed := if req.result.Reported? then req.result.signedArtifact else None;
                    && (d in db.records ==>
                          after.records[d] == if signed.Some?
                                              then Installation(Some(NewExpiry(req, now)), signed,
                                                  req.result.installJob)
                                              else db.records[d].(expiry := Some(NewExpiry(req, now))))
                    && (d in db.deployments ==>
                          && after.deployments[d].device == db.deployments[d].device
                          && after.deployments[d].nextDue == Some(NewExpiry(req, now) - cfg.refreshLead)
                          && after.deployments[d].outcome == RefreshOk
                          && after.deployments[d].rollback ==
                               if d in db.records && db.records[d].signed.Some? && signed.Some?
                                   && db.records[d].signed != signed
                               then db.records[d].signed else db.deployments[d].rollback))
  {
    RefusalMeans(db, agent, id, req);
  }

  // -------------------------------------------------------------------- reaps

  /** The reaper may take the row: its lease has lapsed, or it is a refresh or a sign
      job that failed. */
  predicate Overdue(j: Job, now: Time) {
    || ((j.state == Claimed || j.state == InProgress) && j.lease.Some? && j.lease.value < now)
    || (j.state == Failed && (j.jobType == Refresh || j.jobType == Sign))
  }

  /** How many attempts a job has. */
  function Budget(j: Job): int { if j.maxAttempts <= 0 then 5 else j.maxAttempts }

  predicate FailedForGood(j: Job) {
    j.state == Failed && j.category.Some?
    && j.category.value in {Auth, Certificate, Provisioning, Entitlement, UnsupportedJobType}
  }

  /** What a reap makes of each row. Locked rows and rows that are not overdue stay as
      they are. Of the others, one that failed for good is dead with that category;
      else one that has used up its budget is dead for that; else it is back in the
      queue. */
  lemma ReapMeans(db: Db, locked: set<JobId>, now: Time, id: JobId)
    requires id in db.jobs
    ensures var j, after := db.jobs[id], ReapAll(db, locked, now);
            && after == db.(jobs := after.jobs) && after.jobs.Keys == db.jobs.Keys
            && (id in locked || !Overdue(j, now) ==> after.jobs[id] == j)
            && (id !in locked && Overdue(j, now) ==>
                  && (after.jobs[id].state == Dead <==> FailedForGood(j) || j.attempt >= Budget(j))
                  && (after.jobs[id].state != Dead <==>
                        after.jobs[id] == j.(state := Pending, claimedBy := None, lease := None,
                                             retryAt := after.jobs[id].retryAt))
                  && (FailedForGood(j) ==> after.jobs[id].deadReason == Some(TerminalError(j.category.value)))
                  && (!FailedForGood(j) && j.attempt >= Budget(j) ==> after.jobs[id].deadReason == Some(MaxAttempts))
                  && (after.jobs[id].state == Dead ==>
                        after.jobs[id] == j.(state := Dead, claimedBy := None, lease := None, retryAt := None,
                                             requiresAttention := true, deadReason := after.jobs[id].deadReason)))
  {
  }

  /** How long a requeued row waits. */
  lemma RetryAfter(db: Db, locked: set<JobId>, now: Time, id: JobId)
    requires id in db.jobs && id !in locked && Overdue(db.jobs[id], now) && db.jobs[id].attempt <= 59
    requires !FailedForGood(db.jobs[id]) && db.jobs[id].attempt < Budget(db.jobs[id])
    ensures var n := db.jobs[id].attempt;
            ReapAll(db, locked, now).jobs[id].retryAt
            == Some(now + if n <= 1 then 30 else if n == 2 then 60 else if n == 3 then 120 else if n == 4 then 240
                else 300)
  {
    Delays(db.jobs[id].attempt);
  }

  lemma Delays(n: nat)
    requires n <= 59
    ensures RetryDelay(n) == if n <= 1 then 30 else if n == 2 then 60 else if n == 3 then 120 else if n == 4 then 240
        else 300
  {
    if n > 1 {
      Backoff.ShiftValue(n - 1);
      FirstPowers();
      if n >= 5 { Backoff.Pow2Grows(4, n - 1); }
    }
  }

  lemma FirstPowers()
    ensures Backoff.Pow2(1) == 2 && Backoff.Pow2(2) == 4 && Backoff.Pow2(3) == 8 && Backoff.Pow2(4) == 16
  {
    assert Backoff.Pow2(0) == 1;
    assert Backoff.Pow2(1) == 2 && Backoff.Pow2(2) == 4;
  }

  // ----------------------------------------------------------------- removals

  /** Deleting under a key: the row goes if it is dead, or whatever its state when it
      is purged, with its key and its children's links; everything else stays. */
  lemma RemovalMeans(db: Db, key: Key, purge: bool)
    requires WellFormed(db)
    ensures var after := if purge then Purged(db, key) else Released(db, key);
            if key in db.keys && (purge || db.jobs[db.keys[key]].state == Dead) then
              var gone := db.keys[key];
              && after.keys == db.keys - {key} && after.jobs.Keys == db.jobs.Keys - {gone}
              && after.nextId == db.nextId && after.deployments == db.deployments && after.records == db.records
              && forall id :: id in after.jobs ==>
                   after.jobs[id] == if db.jobs[id].parent == Some(gone) then db.jobs[id].(parent := None)
                       else db.jobs[id]
            else after == db
  {
  }

  // ------------------------------------------------------ a failure's whole way

  /** Nothing in the run takes the failed row away from the reaper. */
  ghost predicate LeftFailed(run: Run, id: JobId, key: Key) {
    forall k :: 0 <= k < |run| ==>
      && !(run[k].event.Reaps? && id !in run[k].event.locked)
      && !(run[k].event.ClaimsOne? && run[k].event.id == id)
      && run[k].event != Purges(key)
  }

  lemma {:induction false} StaysFailed(db: Db, run: Run, cfg: Config, id: JobId)
    requires WellFormed(db) && Legal(db, run, cfg) && id in db.jobs && db.jobs[id].state == Failed
    requires LeftFailed(run, id, db.jobs[id].key)
    ensures var end := Exec(db, run, cfg).jobs; id in end && end[id] == db.jobs[id].(parent := end[id].parent)
  {
    hide Step, WellFormed;
    if run != [] {
      var front := run[..|run| - 1];
      assert LeftFailed(front, id, db.jobs[id].key) by { assert forall k :: 0 <= k < |front| ==> front[k] == run[k]; }
      StaysFailed(db, front, cfg, id);
      RunWellFormed(db, front, cfg);
      RowStep(Exec(db, front, cfg), run[|run| - 1], cfg, id);
    }
  }

  /** A sign or refresh job whose holder reports it failed for good is dead with
      exactly that category after the next reap that can lock it, whatever happens
      in between short of a purge or a ClaimSpecific of it. */
  lemma FailureKills(db: Db, agent: AgentId, id: JobId, req: UpdateRequest, now: Time, run: Run, locked: set<JobId>,
                     later: Time, cfg: Config)
    requires WellFormed(db) && Accepts(db, agent, id, req) && db.jobs[id].jobType in {Sign, Refresh}
    requires req.state == Known(Failed) && req.category.Some?
    requires req.category.value in {Auth, Certificate, Provisioning, Entitlement, UnsupportedJobType}
    requires Legal(Updated(db, agent, id, req, now, cfg), run, cfg) && LeftFailed(run, id, db.jobs[id].key)
        && id !in locked
    ensures var end := ReapAll(Exec(Updated(db, agent, id, req, now, cfg), run, cfg), locked, later).jobs;
            && id in end && end[id].state == Dead && end[id].deadReason == Some(TerminalError(req.category.value))
            && end[id].requiresAttention && end[id].claimedBy == None
  {
    hide Updated, ReapAll, Legal, Exec, WellFormed, Step;
    var s := At(now, Updates(agent, id, req));
    assert Step(db, s, cfg) == Updated(db, agent, id, req, now, cfg) by { StepIsUpdate(db, s, cfg); }
    assert Enabled(db, s);
    StepWellFormed(db, s, cfg);
    UpdateMeans(db, agent, id, req, now, cfg);
    var failed := Updated(db, agent, id, req, now, cfg);
    StaysFailed(failed, run, cfg, id);
    ReapMeans(Exec(failed, run, cfg), locked, later, id);
  }

  lemma StepIsUpdate(db: Db, s: Stamped, cfg: Config)
    requires s.event.Updates?
    ensures Step(db, s, cfg) == Updated(db, s.event.agent, s.event.id, s.event.req, s.now, cfg)
  {
  }
}
