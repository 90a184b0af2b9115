/** What the scheduler's queries find and what its passes write, read off the tables. */
module SchedulerLaws {
  import opened Prelude
  import opened JobRows
  import opened Scheduler

  /** The deployment is watched: its device has an agent and an expiry is recorded. */
  predicate HasExpiry(db: Db, w: World, d: DeploymentId) {
    && d in db.deployments && db.deployments[d].device in w.agents
    && d in db.records && db.records[d].expiry.Some?
  }

  /** Its installation is linked to a signed artifact whose Apple account exists. */
  predicate HasAccount(db: Db, w: World, d: DeploymentId) {
    && d in db.records && db.records[d].signed.Some? && db.records[d].signed.value in w.derivatives
    && w.derivatives[db.records[d].signed.value].account
  }

  /** When its next refresh is due: as recorded, else a lead before the expiry. */
  function DueTime(db: Db, cfg: Config, d: DeploymentId): Time
    requires d in db.deployments && d in db.records && db.records[d].expiry.Some?
  {
    match db.deployments[d].nextDue
    case Some(t) => t
    case None => db.records[d].expiry.value - cfg.refreshLead
  }

  /** The due query returns exactly the watched deployments with an account whose due
      time has come, with their device, that time, the expiry and the original their
      installation was made from. */
  lemma DueRowsMean(db: Db, w: World, cfg: Config, now: Time, e: DueRow)
    ensures e in DueRows(db, w, cfg, now) <==>
      && HasExpiry(db, w, e.id) && HasAccount(db, w, e.id) && DueTime(db, cfg, e.id) <= now
      && e.device == db.deployments[e.id].device && e.dueAt == DueTime(db, cfg, e.id)
      && e.expiryAt == db.records[e.id].expiry.value && e.source == w.derivatives[db.records[e.id].signed.value].source
  {
  }

  /** A refresh for the device is waiting or under way. */
  predicate Busy(db: Db, device: DeviceId) {
    exists id :: id in db.jobs && db.jobs[id].jobType == Refresh && db.jobs[id].device == Some(device)
                 && db.jobs[id].state in {Pending, Claimed, InProgress}
  }

  /** The guard's query returns exactly the watched deployments with an account that
      expire within a day, are not flagged, and have no refresh waiting or under way. */
  lemma GuardRowsMean(db: Db, w: World, now: Time, e: DueRow)
    ensures e in GuardRows(db, w, now) <==>
      && HasExpiry(db, w, e.id) && HasAccount(db, w, e.id)
      && db.records[e.id].expiry.value <= now + 86400 && db.deployments[e.id].outcome != Attention
      && !Busy(db, db.deployments[e.id].device)
      && e.device == db.deployments[e.id].device && e.dueAt == 0
      && e.expiryAt == db.records[e.id].expiry.value && e.source == w.derivatives[db.records[e.id].signed.value].source
  {
    if HasExpiry(db, w, e.id) { BusyIsUnderWay(db, db.deployments[e.id].device); }
  }

  lemma BusyIsUnderWay(db: Db, device: DeviceId)
    ensures Busy(db, device) <==> RefreshUnderWay(db, device)
  {
    if Busy(db, device) {
      var id :| id in db.jobs && db.jobs[id].jobType == Refresh && db.jobs[id].device == Some(device)
                && db.jobs[id].state in {Pending, Claimed, InProgress};
      assert db.jobs[id].device == Some(device);
    }
    if RefreshUnderWay(db, device) {
      var id :| id in db.jobs && db.jobs[id].device == Some(device) && db.jobs[id].jobType == Refresh
                && (db.jobs[id].state == Pending || Active(db.jobs[id]));
      assert db.jobs[id].state in {Pending, Claimed, InProgress};
    }
  }

  /** The refresh queued for a deployment: waiting, with fifteen attempts, for its
      device and from its original. */
  function Queued(d: DueRow, key: Key): Job {
    Job(Refresh, Some(d.device), Pending, 0, 15, None, None, None, None, None, false,
        Params(Some(d.id), Some(d.source), None, None), NoResult, key, None)
  }

  /** One due deployment. Its cycle's key names the days it is due and expires. If no
      row has the key, a refresh is queued under it; if a live row has, nothing
      changes; if a row that died of a terminal error has, the deployment is flagged
      and nothing else changes; any other dead row makes way for a new refresh. */
  lemma ScheduledMeans(db: Db, d: DueRow)
    requires WellFormed(db)
    ensures var key := CycleKey(d.id, d.dueAt / 86400, d.expiryAt / 86400);
            var (after, n) := Scheduled(db, d);
            if key !in db.keys then
              && n == 1
              && after == db.(jobs := db.jobs[db.nextId := Queued(d, key)], keys := db.keys[key := db.nextId],
                  nextId := db.nextId + 1)
            else
              var held := db.keys[key];
              if db.jobs[held].state != Dead then n == 1 && after == db
              else if db.jobs[held].deadReason.Some? && db.jobs[held].deadReason.value.TerminalError? then
                && n == 0 && after == db.(deployments := after.deployments)
                && after.deployments.Keys == db.deployments.Keys
                && forall x :: x in db.deployments ==>
                     after.deployments[x] == if x == d.id then db.deployments[x].(outcome := Attention)
                         else db.deployments[x]
              else
                && n == 1 && after.nextId == db.nextId + 1 && after.keys == db.keys[key := db.nextId]
                && after.deployments == db.deployments && after.records == db.records
                && after.jobs.Keys == db.jobs.Keys - {held} + {db.nextId} && after.jobs[db.nextId] == Queued(d, key)
                && forall x :: x in db.jobs && x != held ==>
                     after.jobs[x] == if db.jobs[x].parent == Some(held) then db.jobs[x].(parent := None)
                         else db.jobs[x]
  {
  }

  /** One deployment the guard forces: a refresh under a key of its expiry day, unless
      a row has that key already. */
  lemma ForcedMeans(db: Db, d: DueRow)
    ensures var key := GuardKey(d.id, d.expiryAt / 86400);
            GuardedAll(db, [d]) ==
              if key in db.keys then db
              else db.(jobs := db.jobs[db.nextId := Queued(d, key)], keys := db.keys[key := db.nextId],
                  nextId := db.nextId + 1)
  {
    assert [d][..0] == [];
  }

  /** Exactly the due deployments without an account are flagged. */
  lemma MarkedMeans(db: Db, w: World, cfg: Config, now: Time)
    ensures var after := Marked(db, w, cfg, now);
            && after == db.(deployments := after.deployments) && after.deployments.Keys == db.deployments.Keys
            && forall d :: d in db.deployments ==>
                 after.deployments[d] ==
                   if HasExpiry(db, w, d) && DueTime(db, cfg, d) <= now && !HasAccount(db, w, d)
                   then db.deployments[d].(outcome := Attention) else db.deployments[d]
  {
  }
}
