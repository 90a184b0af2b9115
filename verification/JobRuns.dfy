/** Whole runs of the job queue: any interleaving of its transactions, each one
    atomic step stamped with the database clock. */
module JobRuns {
  import opened Prelude
  import opened JobRows

  datatype Event =
    | Creates(row: Job)
    | Claims(agent: AgentId, ids: set<JobId>)
    | ClaimsOne(agent: AgentId, id: JobId)
    | Updates(agent: AgentId, id: JobId, req: UpdateRequest)
    | Reaps(locked: set<JobId>)
    | Deletes(key: Key)
    | Purges(key: Key)

  datatype Stamped = At(now: Time, event: Event)

  type Run = seq<Stamped>

  /** The two transactions that delete a row. */
  predicate Removes(s: Stamped) { s.event.Deletes? || s.event.Purges? }

  /** A row as any INSERT of the code writes it. */
  predicate Newborn(j: Job) {
    && j.state == Pending && j.attempt == 0 && j.claimedBy.None? && j.lease.None?
    && j.category.None? && j.deadReason.None? && !j.requiresAttention && j.result == NoResult
  }

  /** What a step needs of the state it meets: a Claim hands out only pending,
      due rows (`JobQueue.ClaimAnswers`). */
  predicate Enabled(db: Db, s: Stamped) {
    match s.event
    case Creates(row) => Newborn(row)
    case Claims(_, ids) => forall id :: id in ids ==>
        id in db.jobs && db.jobs[id].state == Pending && Due(db.jobs[id], s.now)
    case _ => true
  }

  function Step(db: Db, s: Stamped, cfg: Config): Db {
    match s.event
    case Creates(row) => Insert(db, row).0
    case Claims(agent, ids) => GrantAll(db, ids, agent, s.now, cfg)
    case ClaimsOne(agent, id) => ClaimOne(db, agent, id, s.now, cfg).0
    case Updates(agent, id, req) => Updated(db, agent, id, req, s.now, cfg)
    case Reaps(locked) => ReapAll(db, locked, s.now)
    case Deletes(key) => Released(db, key)
    case Purges(key) => Purged(db, key)
  }

  /** The state after a run. */
  function Exec(db: Db, run: Run, cfg: Config): Db {
    if run == [] then db
    else Step(Exec(db, run[..|run| - 1], cfg), run[|run| - 1], cfg)
  }

  predicate Legal(db: Db, run: Run, cfg: Config) {
    run == []
    || (Legal(db, run[..|run| - 1], cfg) && Enabled(Exec(db, run[..|run| - 1], cfg), run[|run| - 1]))
  }

  // ------------------------------------------------------- table invariants

  lemma UpdatedRows(db: Db, agent: AgentId, id: JobId, req: UpdateRequest, now: Time, cfg: Config)
    ensures var after := Updated(db, agent, id, req, now, cfg);
            && after.keys == db.keys && after.nextId == db.nextId
            && after.jobs == if Refusal(db, agent, id, req).None?
                             then db.jobs[id := Applied(db.jobs[id], req, now, cfg)] else db.jobs
  {
  }

  /** What a step makes of one row; None once it is deleted. Deleting another
      row may also clear this one's parent link. */
  function RowAfter(j: Job, id: JobId, s: Stamped, cfg: Config): Option<Job> {
    match s.event
    case Creates(_) => Some(j)
    case Claims(agent, ids) => Some(if id in ids then Grant(j, agent, s.now, cfg) else j)
    case ClaimsOne(agent, i) =>
      Some(if i == id && j.state != Completed && !Active(j) then Grant(j, agent, s.now, cfg) else j)
    case Updates(agent, i, req) =>
      Some(if i == id && RowRefusal(j, agent, req).None? then Applied(j, req, s.now, cfg) else j)
    case Reaps(locked) =>
      Some(if id !in locked && Reapable(j, s.now) then Reaped(j, s.now) else j)
    case Deletes(key) => if key == j.key && j.state == Dead then None else Some(j)
    case Purges(key) => if key == j.key then None else Some(j)
  }

  /** Step and RowAfter agree on the row: what this step does to it depends on
      the row alone, up to a cleared parent link. */
  ghost predicate RowAgrees(db: Db, s: Stamped, cfg: Config, id: JobId)
    requires id in db.jobs
  {
    var after := Step(db, s, cfg).jobs;
    match RowAfter(db.jobs[id], id, s, cfg)
    case None => id !in after
    case Some(j) => id in after && after[id] == j.(parent := after[id].parent)
                    && (after[id].parent == j.parent || (Removes(s) && after[id].parent == None))
  }

  lemma RowStepClaims(db: Db, s: Stamped, cfg: Config, id: JobId)
    requires id in db.jobs && (s.event.Claims? || s.event.ClaimsOne?)
    ensures RowAgrees(db, s, cfg, id)
  {
  }

  lemma RowStepUpdates(db: Db, s: Stamped, cfg: Config, id: JobId)
    requires id in db.jobs && s.event.Updates?
    ensures RowAgrees(db, s, cfg, id)
  {
    UpdatedRows(db, s.event.agent, s.event.id, s.event.req, s.now, cfg);
  }

  lemma RowStepReaps(db: Db, s: Stamped, cfg: Config, id: JobId)
    requires id in db.jobs && s.event.Reaps?
    ensures RowAgrees(db, s, cfg, id)
  {
  }

  lemma RowStepCreates(db: Db, s: Stamped, cfg: Config, id: JobId)
    requires WellFormed(db) && id in db.jobs && s.event.Creates?
    ensures RowAgrees(db, s, cfg, id)
  {
  }

  lemma RowStepRemoves(db: Db, s: Stamped, cfg: Config, id: JobId)
    requires WellFormed(db) && id in db.jobs && Removes(s)
    ensures RowAgrees(db, s, cfg, id)
  {
    hide Shaped;
  }

  lemma RowStep(db: Db, s: Stamped, cfg: Config, id: JobId)
    requires WellFormed(db) && id in db.jobs
    ensures RowAgrees(db, s, cfg, id)
  {
    hide Step, RowAfter, RowAgrees;
    match s.event
    case Creates(_) => RowStepCreates(db, s, cfg, id);
    case Claims(_, _) => RowStepClaims(db, s, cfg, id);
    case ClaimsOne(_, _) => RowStepClaims(db, s, cfg, id);
    case Updates(_, _, _) => RowStepUpdates(db, s, cfg, id);
    case Reaps(_) => RowStepReaps(db, s, cfg, id);
    case Deletes(_) => RowStepRemoves(db, s, cfg, id);
    case Purges(_) => RowStepRemoves(db, s, cfg, id);
  }

  /** Ids come from the sequence and are never reused; only Creates adds a row. */
  lemma NewRowStep(db: Db, s: Stamped, cfg: Config, id: JobId)
    requires WellFormed(db) && id !in db.jobs
    ensures var after := Step(db, s, cfg);
            && db.nextId <= after.nextId
            && (id in after.jobs ==>
                  && id == db.nextId < after.nextId
                  && s.event.Creates? && after.jobs[id] == s.event.row && s.event.row.key !in db.keys)
  {
    if s.event.Claims? {
      assert Step(db, s, cfg).jobs.Keys == db.jobs.Keys;
    } else if s.event.Reaps? {
      assert Step(db, s, cfg).jobs.Keys == db.jobs.Keys;
    }
  }

  /** A key leaves the index only with its row, dead or purged, and enters it only with a new one. */
  lemma KeyStep(db: Db, s: Stamped, cfg: Config, k: Key)
    requires WellFormed(db)
    ensures var after := Step(db, s, cfg);
            if k in db.keys then
              if s.event == Purges(k) || (s.event == Deletes(k) && db.jobs[db.keys[k]].state == Dead)
                  then k !in after.keys
              else k in after.keys && after.keys[k] == db.keys[k]
            else if s.event.Creates? && s.event.row.key == k then
              k in after.keys && after.keys[k] == db.nextId && db.nextId in after.jobs
                  && after.jobs[db.nextId] == s.event.row
            else k !in after.keys
  {
    match s.event
    case Creates(row) =>
    case Claims(agent, ids) =>
    case ClaimsOne(agent, i) =>
    case Updates(agent, i, req) => UpdatedRows(db, agent, i, req, s.now, cfg);
    case Reaps(locked) =>
    case Deletes(key) =>
    case Purges(key) =>
  }

  lemma RowStaysShaped(j: Job, id: JobId, s: Stamped, cfg: Config)
    requires Shaped(j)
    requires s.event.Claims? && id in s.event.ids ==> j.state == Pending
    ensures var after := RowAfter(j, id, s, cfg);
            after.Some? ==> Shaped(after.value) && after.value.key == j.key
  {
  }

  lemma StepKeepsSequence(db: Db, s: Stamped, cfg: Config)
    ensures db.nextId <= Step(db, s, cfg).nextId
  {
    match s.event
    case Updates(agent, id, req) => UpdatedRows(db, agent, id, req, s.now, cfg);
    case _ =>
  }

  lemma StepWellFormed(db: Db, s: Stamped, cfg: Config)
    requires WellFormed(db) && Enabled(db, s)
    ensures WellFormed(Step(db, s, cfg))
  {
    hide Step;
    StepKeepsSequence(db, s, cfg);
    var after := Step(db, s, cfg);
    forall id | id in after.jobs
      ensures id < after.nextId && Shaped(after.jobs[id])
      ensures after.jobs[id].key in after.keys && after.keys[after.jobs[id].key] == id
    {
      KeyStep(db, s, cfg, after.jobs[id].key);
      if id in db.jobs {
        RowStep(db, s, cfg, id);
        RowStaysShaped(db.jobs[id], id, s, cfg);
      } else {
        NewRowStep(db, s, cfg, id);
      }
    }
    forall k | k in after.keys ensures after.keys[k] in after.jobs && after.jobs[after.keys[k]].key == k {
      KeyStep(db, s, cfg, k);
      if k in db.keys {
        RowStep(db, s, cfg, db.keys[k]);
        RowStaysShaped(db.jobs[db.keys[k]], db.keys[k], s, cfg);
      }
    }
  }

  /** In every reachable table the nullable columns match the state, ids come
      from the sequence, and no two rows share an idempotency key. */
  lemma {:induction false} RunWellFormed(db: Db, run: Run, cfg: Config)
    requires WellFormed(db) && Legal(db, run, cfg)
    ensures WellFormed(Exec(db, run, cfg))
  {
    hide Step, WellFormed;
    if run != [] {
      RunWellFormed(db, run[..|run| - 1], cfg);
      StepWellFormed(Exec(db, run[..|run| - 1], cfg), run[|run| - 1], cfg);
    }
  }

  // ------------------------------------------------- termination and backoff

  function Rank(s: JobState): nat {
    match s
    case Claimed => 4
    case InProgress => 3
    case Failed => 2
    case Pending => 1
    case Completed | Dead => 0
  }

  /** A row that no ClaimSpecific has requeued past its budget. */
  predicate Budgeted(j: Job) {
    j.attempt <= EffectiveMax(j) && (j.state == Pending ==> j.attempt < EffectiveMax(j))
  }

  function Measure(j: Job): nat
    requires Budgeted(j)
  {
    5 * (EffectiveMax(j) - j.attempt) + Rank(j.state)
  }

  /** A change of state or attempt: everything but a heartbeat. */
  predicate Moved(j: Job, after: Job) { j.state != after.state || j.attempt != after.attempt }

  predicate ClaimsSpecifically(s: Stamped, id: JobId) { s.event.ClaimsOne? && s.event.id == id }

  predicate Hands(s: Stamped, id: JobId) { s.event.Claims? && id in s.event.ids }

  /** Every step a row can make without ClaimSpecific uses up some of its measure. */
  lemma RowDecreases(j: Job, id: JobId, s: Stamped, cfg: Config)
    requires Shaped(j) && Budgeted(j) && !ClaimsSpecifically(s, id)
    requires Hands(s, id) ==> j.state == Pending
    ensures match RowAfter(j, id, s, cfg)
            case None => !Hands(s, id) && (s.event == Purges(j.key) || (s.event == Deletes(j.key) && j.state == Dead))
            case Some(after) =>
              && Budgeted(after) && EffectiveMax(after) == EffectiveMax(j)
              && (if Moved(j, after) then Measure(after) < Measure(j) else Measure(after) == Measure(j))
              && after.attempt == j.attempt + (if Hands(s, id) then 1 else 0)
  {
  }

  /** How many steps of the run changed the row's state or attempt. */
  ghost function Moves(db: Db, run: Run, cfg: Config, id: JobId): nat {
    if run == [] then 0
    else
      var front := run[..|run| - 1];
      var before, after := Exec(db, front, cfg), Exec(db, run, cfg);
      Moves(db, front, cfg, id)
      + if id in before.jobs && id in after.jobs && Moved(before.jobs[id], after.jobs[id]) then 1 else 0
  }

  /** How often Claim handed the row out. */
  ghost function Handouts(run: Run, id: JobId): nat {
    if run == [] then 0
    else Handouts(run[..|run| - 1], id) + if Hands(run[|run| - 1], id) then 1 else 0
  }

  /** Once deleted, an id is never handed out or seen again. */
  lemma StaysGone(db: Db, s: Stamped, cfg: Config, id: JobId)
    requires WellFormed(db) && Enabled(db, s) && id !in db.jobs && id < db.nextId
    ensures id !in Step(db, s, cfg).jobs && !Hands(s, id)
  {
    NewRowStep(db, s, cfg, id);
  }

  /** Retry is finite: whatever the agents and the reaper do, a row makes at most
      Measure(row) moves that are not heartbeats, and Claim hands it out no more
      often than its budget has attempts left. */
  lemma {:induction false} Termination(db: Db, run: Run, cfg: Config, id: JobId)
    requires WellFormed(db) && Legal(db, run, cfg)
    requires id in db.jobs && Budgeted(db.jobs[id])
    requires forall k :: 0 <= k < |run| ==> !ClaimsSpecifically(run[k], id)
    ensures Moves(db, run, cfg, id) <= Measure(db.jobs[id])
    ensures db.jobs[id].attempt + Handouts(run, id) <= EffectiveMax(db.jobs[id])
    ensures var end := Exec(db, run, cfg);
            id in end.jobs ==>
              && Budgeted(end.jobs[id])
              && EffectiveMax(end.jobs[id]) == EffectiveMax(db.jobs[id])
              && Moves(db, run, cfg, id) + Measure(end.jobs[id]) <= Measure(db.jobs[id])
              && end.jobs[id].attempt == db.jobs[id].attempt + Handouts(run, id)
    ensures id < Exec(db, run, cfg).nextId
  {
    hide Step, RowAfter;
    if run != [] {
      var front := run[..|run| - 1];
      Termination(db, front, cfg, id);
      RunWellFormed(db, front, cfg);
      var before := Exec(db, front, cfg);
      if id in before.jobs {
        RowStep(before, run[|run| - 1], cfg, id);
        RowDecreases(before.jobs[id], id, run[|run| - 1], cfg);
      } else {
        StaysGone(before, run[|run| - 1], cfg, id);
      }
      StepKeepsSequence(before, run[|run| - 1], cfg);
    }
  }

}
