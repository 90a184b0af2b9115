/** One scheduling pass (`internal/scheduler/scheduler.go`) over the queue and the
    deployment tables. */
module Scheduler {
  import opened Prelude
  import opened JobRows
  import opened JobRuns
  import Jobs = JobQueue

  const SECONDS_PER_DAY := 86400
  const GUARD_LEAD := 24 * 3600
  const REFRESH_MAX_ATTEMPTS := 15

  /** A signed_artifacts row: the original it was made from, and whether its
      Apple account still exists. */
  datatype Derivative = Derivative(source: ArtifactId, account: bool)

  /** The tables only the scheduler's queries join: devices with an agent, and
      signed artifacts. */
  datatype World = World(agents: set<DeviceId>, derivatives: map<SignedId, Derivative>)

  /** A row of one of the two queries. */
  datatype DueRow = DueRow(id: DeploymentId, device: DeviceId, dueAt: Time, expiryAt: Time, source: ArtifactId)

  /** The clock at each of a tick's three queries. */
  datatype Moments = Moments(mark: Time, due: Time, guard: Time)

  function Day(t: Time): int { t / SECONDS_PER_DAY }

  // -------------------------------------------------------------- the queries

  /** The join with installation_records and devices. */
  predicate Watched(db: Db, w: World, d: DeploymentId) {
    && d in db.deployments && d in db.records
    && db.deployments[d].device in w.agents && db.records[d].expiry.Some?
  }

  /** The join with signed_artifacts and apple_accounts. */
  predicate Linked(db: Db, w: World, d: DeploymentId) {
    && d in db.records && db.records[d].signed.Some? && db.records[d].signed.value in w.derivatives
    && w.derivatives[db.records[d].signed.value].account
  }

  function DueAt(db: Db, w: World, cfg: Config, d: DeploymentId): Time
    requires Watched(db, w, d)
  {
    if db.deployments[d].nextDue.Some? then db.deployments[d].nextDue.value
    else db.records[d].expiry.value - cfg.refreshLead
  }

  predicate IsDue(db: Db, w: World, cfg: Config, d: DeploymentId, now: Time) {
    Watched(db, w, d) && DueAt(db, w, cfg, d) <= now
  }

  function RowFor(db: Db, w: World, cfg: Config, d: DeploymentId): DueRow
    requires Watched(db, w, d) && Linked(db, w, d)
  {
    DueRow(d, db.deployments[d].device, DueAt(db, w, cfg, d), db.records[d].expiry.value,
           w.derivatives[db.records[d].signed.value].source)
  }

  predicate RefreshUnderWay(db: Db, device: DeviceId) {
    exists id :: id in db.jobs && db.jobs[id].device == Some(device) && db.jobs[id].jobType == Refresh
                 && (db.jobs[id].state == Pending || Active(db.jobs[id]))
  }

  /** The expiry guard's WHERE clause. */
  predicate NeedsGuard(db: Db, w: World, d: DeploymentId, now: Time) {
    && Watched(db, w, d) && Linked(db, w, d)
    && db.records[d].expiry.value <= now + GUARD_LEAD
    && db.deployments[d].outcome != Attention
    && !RefreshUnderWay(db, db.deployments[d].device)
  }

  function GuardRow(db: Db, w: World, d: DeploymentId): DueRow
    requires Watched(db, w, d) && Linked(db, w, d)
  {
    DueRow(d, db.deployments[d].device, 0, db.records[d].expiry.value, w.derivatives[db.records[d].signed.value].source)
  }

  function DueRows(db: Db, w: World, cfg: Config, now: Time): set<DueRow> {
    set d | d in db.deployments && IsDue(db, w, cfg, d, now) && Linked(db, w, d) :: RowFor(db, w, cfg, d)
  }

  function GuardRows(db: Db, w: World, now: Time): set<DueRow> {
    set d | d in db.deployments && NeedsGuard(db, w, d, now) :: GuardRow(db, w, d)
  }

  ghost predicate Lists(rows: seq<DueRow>, all: set<DueRow>) {
    && (forall i, j :: 0 <= i < j < |rows| ==> rows[i] != rows[j])
    && (forall r :: r in rows <==> r in all)
  }

  /** ORDER BY due_at. */
  predicate ByDue(rows: seq<DueRow>) { forall i, j :: 0 <= i < j < |rows| ==> rows[i].dueAt <= rows[j].dueAt }

  // ---------------------------------------------------------------- the writes

  function Cycle(d: DueRow): Key { CycleKey(d.id, Day(d.dueAt), Day(d.expiryAt)) }

  function Guard(d: DueRow): Key { GuardKey(d.id, Day(d.expiryAt)) }

  function RefreshRow(d: DueRow, key: Key): Job {
    NewRow(Refresh, Some(d.device), Params(Some(d.id), Some(d.source), None, None), key, None, REFRESH_MAX_ATTEMPTS,
        None)
  }

  function Flagged(db: Db, d: DeploymentId): Db {
    if d in db.deployments then db.(deployments := db.deployments[d := db.deployments[d].(outcome := Attention)])
        else db
  }

  predicate DiedTerminally(j: Job) { j.state == Dead && j.deadReason.Some? && j.deadReason.value.TerminalError? }

  predicate HoldsDead(db: Db, key: Key) {
    key in db.keys && db.keys[key] in db.jobs && db.jobs[db.keys[key]].state == Dead
  }

  /** createRefreshJob, by what holds the cycle's key: nothing or a dead row that
      may be retried, a row that died terminally, or a live row. */
  function Scheduled(db: Db, d: DueRow): (Db, nat) {
    var key := Cycle(d);
    var row := RefreshRow(d, key);
    if !HoldsDead(db, key) then (Insert(db, row).0, 1)
    else if DiedTerminally(db.jobs[db.keys[key]]) then (Flagged(db, d.id), 0)
    else (Insert(Released(db, key), row).0, 1)
  }

  function ScheduledAll(db: Db, due: seq<DueRow>): (Db, nat) {
    if due == [] then (db, 0)
    else
      var (before, n) := ScheduledAll(db, due[..|due| - 1]);
      var (after, m) := Scheduled(before, due[|due| - 1]);
      (after, n + m)
  }

  function GuardedAll(db: Db, rows: seq<DueRow>): Db {
    if rows == [] then db
    else
      var d := rows[|rows| - 1];
      Insert(GuardedAll(db, rows[..|rows| - 1]), RefreshRow(d, Guard(d))).0
  }

  /** markUnrefreshable. */
  function Marked(db: Db, w: World, cfg: Config, now: Time): Db {
    db.(deployments := map d | d in db.deployments ::
          if IsDue(db, w, cfg, d, now) && !Linked(db, w, d) then db.deployments[d].(outcome := Attention)
              else db.deployments[d])
  }

  /** A tick that met these rows in its two queries. */
  ghost predicate TickMeets(db: Db, w: World, cfg: Config, at: Moments, due: seq<DueRow>, guarded: seq<DueRow>) {
    && Lists(due, DueRows(Marked(db, w, cfg, at.mark), w, cfg, at.due)) && ByDue(due)
    && Lists(guarded, GuardRows(ScheduledAll(Marked(db, w, cfg, at.mark), due).0, w, at.guard))
  }

  function Ticked(db: Db, w: World, cfg: Config, at: Moments, due: seq<DueRow>, guarded: seq<DueRow>): Db {
    GuardedAll(ScheduledAll(Marked(db, w, cfg, at.mark), due).0, guarded)
  }

  // ----------------------------------------------------------- the code itself

  lemma EarliestDue(s: set<DueRow>)
    requires s != {}
    ensures exists d :: d in s && NoLater(d, s)
  {
    var d :| d in s;
    var rest := s - {d};
    if rest == {} {
      assert s == {d};
      assert NoLater(d, s);
    } else {
      EarliestDue(rest);
      var m :| m in rest && NoLater(m, rest);
      var first := if d.dueAt <= m.dueAt then d else m;
      forall e | e in s ensures first.dueAt <= e.dueAt { assert e == d || e in rest; }
      assert NoLater(first, s);
    }
  }

  predicate NoLater(d: DueRow, s: set<DueRow>) { forall e :: e in s ==> d.dueAt <= e.dueAt }

  lemma InsertWellFormed(db: Db, row: Job)
    requires WellFormed(db) && Newborn(row)
    ensures WellFormed(Insert(db, row).0)
  {
    StepWellFormed(db, At(0, Creates(row)), Config(0, 0));
  }

  lemma ReleaseWellFormed(db: Db, key: Key)
    requires WellFormed(db)
    ensures WellFormed(Released(db, key))
  {
    StepWellFormed(db, At(0, Deletes(key)), Config(0, 0));
  }

  class Service {
    const queue: Jobs.Service

    constructor (queue: Jobs.Service)
      ensures this.queue == queue
    {
      this.queue := queue;
    }

    method MarkUnrefreshable(w: World, now: Time)
      modifies queue`deployments
      ensures queue.Db() == Marked(old(queue.Db()), w, queue.cfg, now)
    {
      ghost var before := queue.Db();
      var broken := set d | d in queue.deployments && IsDue(queue.Db(), w, queue.cfg, d, now)
          && !Linked(queue.Db(), w, d);
      var left := broken;
      while left != {}
        invariant left <= broken <= queue.deployments.Keys
        invariant queue.Db() == before.(deployments := queue.deployments)
        invariant queue.deployments == map d | d in before.deployments ::
          if d in broken - left then before.deployments[d].(outcome := Attention) else before.deployments[d]
        decreases |left|
      {
        var d :| d in left;
        queue.deployments := queue.deployments[d := queue.deployments[d].(outcome := Attention)];
        left := left - {d};
      }
    }

    method DueDeployments(w: World, now: Time) returns (due: seq<DueRow>)
      ensures Lists(due, DueRows(queue.Db(), w, queue.cfg, now)) && ByDue(due)
    {
      hide DueRows;
      due := [];
      var rows := DueRows(queue.Db(), w, queue.cfg, now);
      var left := rows;
      while left != {}
        invariant forall r :: r in rows <==> r in due || r in left
        invariant forall i, j :: 0 <= i < j < |due| ==> due[i].dueAt <= due[j].dueAt && due[i] != due[j]
        invariant forall r, l :: r in due && l in left ==> r.dueAt <= l.dueAt && r != l
        decreases |left|
      {
        EarliestDue(left);
        var r :| r in left && NoLater(r, left);
        due := due + [r];
        left := left - {r};
      }
    }

    method DeadCycleTerminal(key: Key) returns (terminal: bool)
      requires WellFormed(queue.Db())
      ensures terminal <==> key in queue.keys && DiedTerminally(queue.jobs[queue.keys[key]])
    {
      if key !in queue.keys || queue.jobs[queue.keys[key]].state != Dead { return false; }
      var j := queue.jobs[queue.keys[key]];
      return j.deadReason.Some? && j.deadReason.value.TerminalError?;
    }

    method FlagAttention(d: DeploymentId)
      modifies queue`deployments
      ensures queue.Db() == Flagged(old(queue.Db()), d)
    {
      if d in queue.deployments {
        queue.deployments := queue.deployments[d := queue.deployments[d].(outcome := Attention)];
      }
    }

    method CreateRefreshJob(d: DueRow) returns (created: nat)
      requires WellFormed(queue.Db())
      modifies queue`jobs, queue`keys, queue`nextId, queue`deployments
      ensures (queue.Db(), created) == Scheduled(old(queue.Db()), d)
      ensures WellFormed(queue.Db())
    {
      var key := Cycle(d);
      var params := Params(Some(d.id), Some(d.source), None, None);
      InsertWellFormed(queue.Db(), RefreshRow(d, key));
      var job := queue.CreateRefresh(Some(d.device), params, key, REFRESH_MAX_ATTEMPTS);
      if queue.jobs[job.value].state == Dead {
        var terminal := DeadCycleTerminal(key);
        if terminal {
          FlagAttention(d.id);
          return 0;
        }
        ReleaseWellFormed(queue.Db(), key);
        queue.DeleteDead(key);
        InsertWellFormed(queue.Db(), RefreshRow(d, key));
        job := queue.CreateRefresh(Some(d.device), params, key, REFRESH_MAX_ATTEMPTS);
        if queue.jobs[job.value].state == Dead { assert false; } // it was only just inserted
      }
      return 1;
    }

    method ExpiryGuard(w: World, now: Time) returns (created: nat, ghost rows: seq<DueRow>)
      requires WellFormed(queue.Db())
      modifies queue`jobs, queue`keys, queue`nextId
      ensures Lists(rows, GuardRows(old(queue.Db()), w, now))
      ensures queue.Db() == GuardedAll(old(queue.Db()), rows) && created == |rows|
      ensures WellFormed(queue.Db())
    {
      hide WellFormed, Insert;
      var atRisk := GuardRows(queue.Db(), w, now);
      var left := atRisk;
      rows, created := [], 0;
      while left != {}
        invariant forall r :: r in atRisk <==> r in rows || r in left
        invariant forall i, j :: 0 <= i < j < |rows| ==> rows[i] != rows[j]
        invariant forall r :: r in rows ==> r !in left
        invariant queue.Db() == GuardedAll(old(queue.Db()), rows) && created == |rows| && WellFormed(queue.Db())
        decreases |left|
      {
        var d :| d in left;
        InsertWellFormed(queue.Db(), RefreshRow(d, Guard(d)));
        var _ := queue.CreateRefresh(Some(d.device), Params(Some(d.id), Some(d.source), None, None), Guard(d),
            REFRESH_MAX_ATTEMPTS);
        created := created + 1;
        assert (rows + [d])[..|rows|] == rows;
        rows := rows + [d];
        left := left - {d};
      }
    }

    method Tick(w: World, at: Moments) returns (created: nat, ghost due: seq<DueRow>, ghost guarded: seq<DueRow>)
      requires WellFormed(queue.Db())
      modifies queue`jobs, queue`keys, queue`nextId, queue`deployments
      ensures TickMeets(old(queue.Db()), w, queue.cfg, at, due, guarded)
      ensures queue.Db() == Ticked(old(queue.Db()), w, queue.cfg, at, due, guarded)
      ensures created == ScheduledAll(Marked(old(queue.Db()), w, queue.cfg, at.mark), due).1 + |guarded|
      ensures WellFormed(queue.Db())
    {
      hide Scheduled;
      MarkUnrefreshable(w, at.mark);
      ghost var marked := queue.Db();
      var rows := DueDeployments(w, at.due);
      created := 0;
      var i := 0;
      assert rows[..0] == [];
      while i < |rows|
        invariant 0 <= i <= |rows|
        invariant (queue.Db(), created) == ScheduledAll(marked, rows[..i]) && WellFormed(queue.Db())
      {
        var n := CreateRefreshJob(rows[i]);
        assert rows[..i + 1][..i] == rows[..i];
        created := created + n;
        i := i + 1;
      }
      assert rows[..i] == rows;
      due := rows;
      var forced;
      forced, guarded := ExpiryGuard(w, at.guard);
      created := created + forced;
    }
  }
}
