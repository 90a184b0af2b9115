/** What scheduling never does: once a refresh cycle has died terminally, ticks
    leave it alone until an operator or a new due date moves it on. */
module FrozenCycles {
  import opened Prelude
  import opened JobRows
  import opened JobRuns
  import opened Scheduler

  /** The scheduler's keys are on refresh rows of their own deployment, and no
      refresh row has a parent. */
  predicate OrderlyRow(j: Job) {
    && (j.key.CycleKey? ==> j.jobType == Refresh && j.params.deployment == Some(j.key.deployment))
    && (j.key.GuardKey? ==> j.jobType == Refresh && j.params.deployment == Some(j.key.guarded))
    && (j.jobType == Refresh ==> j.parent.None?)
  }

  ghost predicate Orderly(db: Db) {
    WellFormed(db) && forall id :: id in db.jobs ==> OrderlyRow(db.jobs[id])
  }

  /** The refresh rows of deployment d. */
  function RowsOf(db: Db, d: DeploymentId): map<JobId, Job> {
    map id | id in db.jobs && db.jobs[id].jobType == Refresh && db.jobs[id].params.deployment == Some(d) :: db.jobs[id]
  }

  /** The row under this key died terminally. */
  predicate Frozen(db: Db, key: Key) { HoldsDead(db, key) && DiedTerminally(db.jobs[db.keys[key]]) }

  /** The cycle d's dates put it in. */
  function CurrentCycle(db: Db, w: World, cfg: Config, d: DeploymentId): Key
    requires Watched(db, w, d)
  {
    CycleKey(d, Day(DueAt(db, w, cfg, d)), Day(db.records[d].expiry.value))
  }

  /** Everything but the last outcome of each deployment. */
  predicate SameDates(db: Db, after: Db) {
    && after.records == db.records && after.deployments.Keys == db.deployments.Keys
    && forall d :: d in db.deployments ==>
         after.deployments[d] == db.deployments[d].(outcome := after.deployments[d].outcome)
  }

  predicate KeyOf(k: Key, d: DeploymentId) { (k.CycleKey? && k.deployment == d) || (k.GuardKey? && k.guarded == d) }

  /** Nothing of d's changed: not its refresh rows, not what its keys hold. */
  ghost predicate Untouched(db: Db, after: Db, d: DeploymentId) {
    && RowsOf(after, d) == RowsOf(db, d)
    && forall k :: KeyOf(k, d) ==> (k in db.keys <==> k in after.keys) && (k in db.keys ==> after.keys[k] == db.keys[k])
  }

  lemma UntouchedChain(a: Db, b: Db, c: Db, d: DeploymentId)
    requires Untouched(a, b, d) && Untouched(b, c, d)
    ensures Untouched(a, c, d)
  {
  }

  lemma SameDatesChain(a: Db, b: Db, c: Db)
    requires SameDates(a, b) && SameDates(b, c)
    ensures SameDates(a, c)
  {
  }

  lemma FrozenStays(db: Db, after: Db, key: Key)
    requires Orderly(db) && Orderly(after) && key.CycleKey? && Untouched(db, after, key.deployment) && Frozen(db, key)
    ensures Frozen(after, key) && after.keys[key] == db.keys[key]
        && after.jobs[after.keys[key]] == db.jobs[db.keys[key]]
  {
    var id := db.keys[key];
    assert OrderlyRow(db.jobs[id]);
    assert id in RowsOf(db, key.deployment);
    assert RowsOf(after, key.deployment)[id] == db.jobs[id];
  }

  lemma InsertIsOrderly(db: Db, row: Job)
    requires Orderly(db) && Newborn(row) && OrderlyRow(row)
    ensures Orderly(Insert(db, row).0)
  {
    hide WellFormed;
    InsertWellFormed(db, row);
  }

  lemma InsertForAnother(db: Db, row: Job, d: DeploymentId)
    requires Orderly(db)
    requires row.key in db.keys || (row.params.deployment != Some(d) && !KeyOf(row.key, d))
    ensures Untouched(db, Insert(db, row).0, d)
  {
    if row.key !in db.keys {
      assert db.nextId !in db.jobs;
      assert RowsOf(Insert(db, row).0, d) == RowsOf(db, d);
    }
  }

  lemma ReleaseIsOrderly(db: Db, key: Key)
    requires Orderly(db)
    ensures Orderly(Released(db, key))
  {
    hide WellFormed;
    ReleaseWellFormed(db, key);
  }

  lemma ReleaseForAnother(db: Db, key: Key, d: DeploymentId)
    requires Orderly(db) && key.CycleKey? && key.deployment != d
    ensures Untouched(db, Released(db, key), d)
  {
    if HoldsDead(db, key) {
      assert OrderlyRow(db.jobs[db.keys[key]]);
      assert RowsOf(Released(db, key), d) == RowsOf(db, d);
    }
  }

  lemma FlagChangesNoRow(db: Db, e: DeploymentId, d: DeploymentId)
    requires Orderly(db)
    ensures Orderly(Flagged(db, e)) && Untouched(db, Flagged(db, e), d) && SameDates(db, Flagged(db, e))
    ensures e in db.deployments ==> Flagged(db, e).deployments[e].outcome == Attention
  {
  }

  /** Scheduling a deployment touches no other, nor itself if its cycle is frozen. */
  lemma ScheduledLeaves(db: Db, e: DueRow, d: DeploymentId)
    requires Orderly(db) && (e.id == d ==> Frozen(db, Cycle(e)))
    ensures var after := Scheduled(db, e).0;
            && Orderly(after) && Untouched(db, after, d) && SameDates(db, after)
            && (d in db.deployments && (e.id == d || db.deployments[d].outcome == Attention) ==>
                  after.deployments[d].outcome == Attention)
  {
    hide WellFormed, Orderly, Insert, Released, Flagged, Untouched, HoldsDead;
    var key := Cycle(e);
    var row := RefreshRow(e, key);
    FlagChangesNoRow(db, e.id, d);
    FlagOutcomes(db, e.id, d);
    if !HoldsDead(db, key) {
      InsertIsOrderly(db, row);
      InsertForAnother(db, row, d);
      InsertDates(db, row);
    } else if e.id != d {
      var released := Released(db, key);
      ReleaseIsOrderly(db, key);
      ReleaseForAnother(db, key, d);
      ReleaseDates(db, key);
      InsertIsOrderly(released, row);
      InsertForAnother(released, row, d);
      InsertDates(released, row);
      UntouchedChain(db, released, Insert(released, row).0, d);
    }
  }

  lemma FlagOutcomes(db: Db, e: DeploymentId, d: DeploymentId)
    ensures d in db.deployments && db.deployments[d].outcome == Attention ==>
      d in Flagged(db, e).deployments && Flagged(db, e).deployments[d].outcome == Attention
  {
  }

  lemma InsertDates(db: Db, row: Job)
    ensures Insert(db, row).0.deployments == db.deployments && Insert(db, row).0.records == db.records
  {
  }

  lemma ReleaseDates(db: Db, key: Key)
    ensures Released(db, key).deployments == db.deployments && Released(db, key).records == db.records
  {
  }

  lemma {:induction false} ScheduledAllLeaves(db: Db, due: seq<DueRow>, d: DeploymentId, key: Key)
    requires Orderly(db) && key.CycleKey? && key.deployment == d && Frozen(db, key)
    requires forall e :: e in due && e.id == d ==> Cycle(e) == key
    ensures var after := ScheduledAll(db, due).0;
            && Orderly(after) && Untouched(db, after, d) && SameDates(db, after)
            && (d in db.deployments && (exists e :: e in due && e.id == d) ==>
                after.deployments[d].outcome == Attention)
  {
    hide Orderly, Untouched, Scheduled, Frozen;
    if due == [] {
      NothingTouched(db, d);
    } else {
      var front, e := due[..|due| - 1], due[|due| - 1];
      ScheduledAllLeaves(db, front, d, key);
      var before := ScheduledAll(db, front).0;
      FrozenStays(db, before, key);
      ScheduledLeaves(before, e, d);
      UntouchedChain(db, before, ScheduledAll(db, due).0, d);
      SameDatesChain(db, before, ScheduledAll(db, due).0);
      assert forall x :: x in due ==> x in front || x == e;
    }
  }

  lemma NothingTouched(db: Db, d: DeploymentId)
    ensures Untouched(db, db, d)
  {
  }

  /** Rows and keys are only added. */
  ghost predicate Extends(db: Db, after: Db) {
    && after.deployments == db.deployments && after.records == db.records
    && (forall id :: id in db.jobs ==> id in after.jobs && after.jobs[id] == db.jobs[id])
    && (forall k :: k in db.keys ==> k in after.keys && after.keys[k] == db.keys[k])
  }

  lemma ExtendsChain(a: Db, b: Db, c: Db)
    requires Extends(a, b) && Extends(b, c)
    ensures Extends(a, c)
  {
  }

  lemma InsertExtends(db: Db, row: Job)
    requires Orderly(db) && Newborn(row) && OrderlyRow(row)
    ensures Orderly(Insert(db, row).0) && Extends(db, Insert(db, row).0)
    ensures row.key in Insert(db, row).0.keys
  {
    InsertIsOrderly(db, row);
  }

  lemma {:induction false} GuardedAllExtends(db: Db, rows: seq<DueRow>)
    requires Orderly(db)
    ensures Orderly(GuardedAll(db, rows)) && Extends(db, GuardedAll(db, rows))
    ensures forall e :: e in rows ==> Guard(e) in GuardedAll(db, rows).keys
  {
    hide Orderly, Insert;
    if rows != [] {
      var front, e := rows[..|rows| - 1], rows[|rows| - 1];
      GuardedAllExtends(db, front);
      InsertExtends(GuardedAll(db, front), RefreshRow(e, Guard(e)));
      ExtendsChain(db, GuardedAll(db, front), GuardedAll(db, rows));
      assert forall x :: x in rows ==> x in front || x == e;
    }
  }

  /** The guard leaves a deployment alone if it does not list it, or its guard key is taken. */
  lemma {:induction false} GuardedAllLeaves(db: Db, rows: seq<DueRow>, d: DeploymentId)
    requires Orderly(db) && forall e :: e in rows && e.id == d ==> Guard(e) in db.keys
    ensures Untouched(db, GuardedAll(db, rows), d)
  {
    hide Orderly, Untouched, Insert;
    if rows == [] {
      NothingTouched(db, d);
    } else {
      var front, e := rows[..|rows| - 1], rows[|rows| - 1];
      var before := GuardedAll(db, front);
      GuardedAllExtends(db, front);
      GuardedAllLeaves(db, front, d);
      InsertForAnother(before, RefreshRow(e, Guard(e)), d);
      UntouchedChain(db, before, GuardedAll(db, rows), d);
    }
  }

  lemma NewGuardRow(db: Db, after: Db, guard: Key, d: DeploymentId)
    requires Orderly(after) && Orderly(db) && Extends(db, after) && guard.GuardKey? && guard.guarded == d
    requires guard in after.keys && guard !in db.keys
    ensures RowsOf(after, d) != RowsOf(db, d)
  {
    var id := after.keys[guard];
    assert OrderlyRow(after.jobs[id]);
    assert id in RowsOf(after, d);
    assert id !in db.jobs;
  }

  lemma {:induction false} ListedIsQueried(db: Db, w: World, cfg: Config, now: Time, e: DueRow)
    ensures e in DueRows(db, w, cfg, now) ==>
        IsDue(db, w, cfg, e.id, now) && Linked(db, w, e.id) && e == RowFor(db, w, cfg, e.id)
    ensures e in GuardRows(db, w, now) ==> NeedsGuard(db, w, e.id, now) && e == GuardRow(db, w, e.id)
  {
  }

  lemma DatesDecide(db: Db, after: Db, w: World, cfg: Config, d: DeploymentId)
    requires SameDates(db, after)
    ensures Watched(after, w, d) <==> Watched(db, w, d)
    ensures Linked(after, w, d) <==> Linked(db, w, d)
    ensures Watched(db, w, d) ==>
      DueAt(after, w, cfg, d) == DueAt(db, w, cfg, d) && CurrentCycle(after, w, cfg, d) == CurrentCycle(db, w, cfg, d)
  {
  }

  lemma MarkedChangesNoRow(db: Db, w: World, cfg: Config, now: Time, d: DeploymentId)
    requires Orderly(db)
    ensures var after := Marked(db, w, cfg, now); Orderly(after) && SameDates(db, after) && Untouched(db, after, d)
  {
  }

  /** The due loop over a frozen deployment: nothing of it changes, and if it is
      listed it ends up flagged. */
  lemma DueLoop(db: Db, w: World, cfg: Config, at: Moments, due: seq<DueRow>, d: DeploymentId)
    requires Orderly(db) && Watched(db, w, d) && Frozen(db, CurrentCycle(db, w, cfg, d))
    requires Lists(due, DueRows(Marked(db, w, cfg, at.mark), w, cfg, at.due))
    ensures var mid := ScheduledAll(Marked(db, w, cfg, at.mark), due).0;
            && Orderly(mid) && SameDates(db, mid) && Untouched(db, mid, d)
            && (IsDue(db, w, cfg, d, at.due) && Linked(db, w, d) ==> mid.deployments[d].outcome == Attention)
  {
    hide Orderly, Untouched, SameDates, DueRows, Frozen;
    var key := CurrentCycle(db, w, cfg, d);
    var marked := Marked(db, w, cfg, at.mark);
    MarkedChangesNoRow(db, w, cfg, at.mark, d);
    DatesDecide(db, marked, w, cfg, d);
    FrozenStays(db, marked, key);
    forall e | e in due && e.id == d ensures Cycle(e) == key { ListedIsQueried(marked, w, cfg, at.due, e); }
    ScheduledAllLeaves(marked, due, d, key);
    var mid := ScheduledAll(marked, due).0;
    UntouchedChain(db, marked, mid, d);
    SameDatesChain(db, marked, mid);
    if IsDue(db, w, cfg, d, at.due) && Linked(db, w, d) {
      DueIsListed(marked, w, cfg, at.due, d);
      assert RowFor(marked, w, cfg, d) in due;
    }
  }

  lemma DueIsListed(db: Db, w: World, cfg: Config, now: Time, d: DeploymentId)
    requires IsDue(db, w, cfg, d, now) && Linked(db, w, d)
    ensures RowFor(db, w, cfg, d) in DueRows(db, w, cfg, now) && RowFor(db, w, cfg, d).id == d
  {
  }

  lemma GuardIsListed(db: Db, w: World, now: Time, d: DeploymentId)
    requires NeedsGuard(db, w, d, now)
    ensures GuardRow(db, w, d) in GuardRows(db, w, now) && GuardRow(db, w, d).id == d
  {
  }

  /** A tick over a deployment whose current cycle died terminally: the dead row
      stays, and none of its refresh rows is inserted, deleted or changed, except
      exactly when it is not yet due but so close to expiry that the guard forces
      a refresh under a guard key still free. Once due, it is never touched. */
  lemma FrozenTick(db: Db, w: World, cfg: Config, at: Moments, due: seq<DueRow>, guarded: seq<DueRow>, d: DeploymentId)
    requires Orderly(db) && Watched(db, w, d) && Frozen(db, CurrentCycle(db, w, cfg, d))
    requires TickMeets(db, w, cfg, at, due, guarded)
    ensures var after, key := Ticked(db, w, cfg, at, due, guarded), CurrentCycle(db, w, cfg, d);
            && Orderly(after) && SameDates(db, after) && Frozen(after, key)
            && after.keys[key] == db.keys[key] && after.jobs[after.keys[key]] == db.jobs[db.keys[key]]
    ensures RowsOf(Ticked(db, w, cfg, at, due, guarded), d) == RowsOf(db, d)
            <==> !(NeedsGuard(ScheduledAll(Marked(db, w, cfg, at.mark), due).0, w, d, at.guard)
                   && GuardKey(d, Day(db.records[d].expiry.value)) !in db.keys)
    ensures IsDue(db, w, cfg, d, at.due) ==> Untouched(db, Ticked(db, w, cfg, at, due, guarded), d)
  {
    hide Orderly, Untouched, Frozen, DueRows, GuardRows;
    var key, guard := CurrentCycle(db, w, cfg, d), GuardKey(d, Day(db.records[d].expiry.value));
    var mid := ScheduledAll(Marked(db, w, cfg, at.mark), due).0;
    var after := GuardedAll(mid, guarded);
    DueLoop(db, w, cfg, at, due, d);
    DatesDecide(db, mid, w, cfg, d);
    GuardedAllExtends(mid, guarded);
    FrozenStays(db, mid, key);
    FrozenExtends(mid, after, key);
    assert guard in db.keys <==> guard in mid.keys by { UntouchedFacts(db, mid, d); }
    forall e | e in guarded && e.id == d ensures Guard(e) == guard && NeedsGuard(mid, w, d, at.guard) {
      ListedIsQueried(mid, w, cfg, at.guard, e);
    }
    if NeedsGuard(mid, w, d, at.guard) && guard !in db.keys {
      GuardIsListed(mid, w, at.guard, d);
      assert GuardRow(mid, w, d) in guarded;
      NewGuardRow(mid, after, guard, d);
      UntouchedFacts(db, mid, d);
    } else {
      GuardedAllLeaves(mid, guarded, d);
      UntouchedChain(db, mid, after, d);
      UntouchedFacts(db, after, d);
    }
  }

  lemma UntouchedFacts(db: Db, after: Db, d: DeploymentId)
    requires Untouched(db, after, d)
    ensures RowsOf(after, d) == RowsOf(db, d)
    ensures forall day :: GuardKey(d, day) in db.keys <==> GuardKey(d, day) in after.keys
  {
  }

  lemma FrozenExtends(db: Db, after: Db, key: Key)
    requires Frozen(db, key) && Extends(db, after)
    ensures Frozen(after, key) && after.keys[key] == db.keys[key]
        && after.jobs[after.keys[key]] == db.jobs[db.keys[key]]
  {
  }

  // ------------------------------------------------- what a tick may replace

  /** Rows stay as they are; a row goes only if it died of something retryable
      and a fresh row takes over its cycle's key; new rows are the scheduler's. */
  ghost predicate OnlyRetries(db: Db, after: Db) {
    && db.nextId <= after.nextId
    && (forall id :: id in db.jobs && id in after.jobs ==>
        after.jobs[id] == db.jobs[id].(parent := after.jobs[id].parent))
    && (forall id :: id in db.jobs && id !in after.jobs ==>
          db.jobs[id].state == Dead && !DiedTerminally(db.jobs[id]) && TakenOver(db, after, db.jobs[id].key))
    && (forall id :: id in after.jobs && id !in db.jobs ==> db.nextId <= id && SchedulersRow(after.jobs[id]))
  }

  predicate TakenOver(db: Db, after: Db, key: Key) {
    key.CycleKey? && key in after.keys && db.nextId <= after.keys[key]
  }

  predicate SchedulersRow(j: Job) { Newborn(j) && j.jobType == Refresh && (j.key.CycleKey? || j.key.GuardKey?) }

  lemma HeirSurvives(a: Db, b: Db, c: Db, key: Key)
    requires WellFormed(a) && WellFormed(b) && WellFormed(c) && OnlyRetries(a, b) && OnlyRetries(b, c)
    requires TakenOver(a, b, key)
    ensures TakenOver(a, c, key)
  {
    hide DiedTerminally, Shaped;
    var heir := b.keys[key];
    assert heir in b.jobs && heir !in a.jobs && SchedulersRow(b.jobs[heir]);
    assert heir in c.jobs && c.jobs[heir].key == key;
  }

  lemma RetriesChain(a: Db, b: Db, c: Db)
    requires WellFormed(a) && WellFormed(b) && WellFormed(c) && OnlyRetries(a, b) && OnlyRetries(b, c)
    ensures OnlyRetries(a, c)
  {
    hide WellFormed, SchedulersRow;
    forall id | id in a.jobs ensures id < a.nextId { IdsAreIssued(a, id); }
    forall id | id in a.jobs && id !in c.jobs
      ensures a.jobs[id].state == Dead && !DiedTerminally(a.jobs[id]) && TakenOver(a, c, a.jobs[id].key)
    {
      if id !in b.jobs { HeirSurvives(a, b, c, a.jobs[id].key); }
    }
    forall id | id in c.jobs && id !in a.jobs ensures a.nextId <= id && SchedulersRow(c.jobs[id]) {
      if id in b.jobs { StaysSchedulers(b.jobs[id], c.jobs[id]); }
    }
  }

  lemma IdsAreIssued(db: Db, id: JobId)
    requires WellFormed(db) && id in db.jobs
    ensures id < db.nextId
  {
  }

  lemma StaysSchedulers(j: Job, after: Job)
    requires SchedulersRow(j) && after == j.(parent := after.parent)
    ensures SchedulersRow(after)
  {
  }

  lemma InsertOnlyAdds(db: Db, row: Job)
    requires WellFormed(db) && SchedulersRow(row)
    ensures OnlyRetries(db, Insert(db, row).0)
  {
  }

  lemma RetryTakesOver(db: Db, row: Job)
    requires Orderly(db) && SchedulersRow(row) && row.key.CycleKey?
    requires HoldsDead(db, row.key) && !DiedTerminally(db.jobs[db.keys[row.key]])
    ensures OnlyRetries(db, Insert(Released(db, row.key), row).0)
  {
    hide Orderly, Shaped;
    ReleaseDrops(db, row.key);
    var released := Released(db, row.key);
    assert Insert(released, row).0.jobs == released.jobs[db.nextId := row];
  }

  lemma ReleaseDrops(db: Db, key: Key)
    requires Orderly(db) && HoldsDead(db, key)
    ensures var after := Released(db, key);
            && after.nextId == db.nextId && key !in after.keys && db.nextId !in db.jobs
            && (forall id :: id in after.jobs <==> id in db.jobs && id != db.keys[key])
            && (forall id :: id in after.jobs ==> after.jobs[id] == db.jobs[id].(parent := after.jobs[id].parent))
            && db.jobs[db.keys[key]].key == key
  {
  }

  lemma {:induction false} LoopOnlyRetries(db: Db, due: seq<DueRow>)
    requires Orderly(db)
    ensures Orderly(ScheduledAll(db, due).0) && OnlyRetries(db, ScheduledAll(db, due).0)
  {
    hide WellFormed, OnlyRetries, Insert, Released;
    if due == [] {
      assert OnlyRetries(db, db) by { NothingRetried(db, db); }
    } else {
      var front, e := due[..|due| - 1], due[|due| - 1];
      LoopOnlyRetries(db, front);
      var before, row := ScheduledAll(db, front).0, RefreshRow(e, Cycle(e));
      ScheduledLeaves(before, e, e.id + 1);
      var after := Scheduled(before, e).0;
      if !HoldsDead(before, Cycle(e)) {
        InsertOnlyAdds(before, row);
      } else if DiedTerminally(before.jobs[before.keys[Cycle(e)]]) {
        NothingRetried(before, after);
      } else {
        RetryTakesOver(before, row);
      }
      RetriesChain(db, before, after);
    }
  }

  lemma NothingRetried(db: Db, after: Db)
    requires after.jobs == db.jobs && after.keys == db.keys && after.nextId == db.nextId
    ensures OnlyRetries(db, after)
  {
  }

  lemma {:induction false} GuardOnlyAdds(db: Db, rows: seq<DueRow>)
    requires Orderly(db)
    ensures Orderly(GuardedAll(db, rows)) && OnlyRetries(db, GuardedAll(db, rows))
  {
    hide WellFormed, OnlyRetries, Insert;
    if rows == [] {
      NothingRetried(db, db);
    } else {
      var front, e := rows[..|rows| - 1], rows[|rows| - 1];
      GuardOnlyAdds(db, front);
      InsertIsOrderly(GuardedAll(db, front), RefreshRow(e, Guard(e)));
      InsertOnlyAdds(GuardedAll(db, front), RefreshRow(e, Guard(e)));
      RetriesChain(db, GuardedAll(db, front), GuardedAll(db, rows));
    }
  }

  /** A tick deletes nothing but dead cycle rows it replaces, so whatever is
      pending, running, completed or terminally dead survives every tick. */
  lemma TickOnlyRetries(db: Db, w: World, cfg: Config, at: Moments, due: seq<DueRow>, guarded: seq<DueRow>)
    requires Orderly(db)
    ensures var after := Ticked(db, w, cfg, at, due, guarded); Orderly(after) && OnlyRetries(db, after)
  {
    hide WellFormed, OnlyRetries;
    var marked := Marked(db, w, cfg, at.mark);
    MarkedChangesNoRow(db, w, cfg, at.mark, 0);
    NothingRetried(db, marked);
    LoopOnlyRetries(marked, due);
    var mid := ScheduledAll(marked, due).0;
    GuardOnlyAdds(mid, guarded);
    RetriesChain(db, marked, mid);
    RetriesChain(db, mid, GuardedAll(mid, guarded));
  }

  // ------------------------------------------------------------------- runs

  /** One queue transaction, or one tick with what its queries listed. */
  datatype Move = Transacts(s: Stamped) | Ticks(w: World, at: Moments, due: seq<DueRow>, guarded: seq<DueRow>)

  function Happens(db: Db, m: Move, cfg: Config): Db {
    match m
    case Transacts(s) => Step(db, s, cfg)
    case Ticks(w, at, due, guarded) => Ticked(db, w, cfg, at, due, guarded)
  }

  function HappenAll(db: Db, moves: seq<Move>, cfg: Config): Db {
    if moves == [] then db else Happens(HappenAll(db, moves[..|moves| - 1], cfg), moves[|moves| - 1], cfg)
  }

  /** No operator touches the dead row, and at every tick the deployment is due in
      the cycle `key` is for. */
  ghost predicate Unattended(db: Db, m: Move, cfg: Config, d: DeploymentId, key: Key) {
    match m
    case Transacts(s) =>
      && Enabled(db, s) && (s.event.Creates? ==> OrderlyRow(s.event.row))
      && s.event != Deletes(key) && s.event != Purges(key)
          && !(s.event.ClaimsOne? && key in db.keys && s.event.id == db.keys[key])
    case Ticks(w, at, due, guarded) =>
      && TickMeets(db, w, cfg, at, due, guarded)
      && IsDue(db, w, cfg, d, at.due) && CurrentCycle(db, w, cfg, d) == key
  }

  lemma StepKeepsOrder(db: Db, s: Stamped, cfg: Config)
    requires Orderly(db) && Enabled(db, s) && (s.event.Creates? ==> OrderlyRow(s.event.row))
    ensures Orderly(Step(db, s, cfg))
  {
    hide Step, WellFormed;
    var after := Step(db, s, cfg);
    StepWellFormed(db, s, cfg);
    forall id | id in after.jobs ensures OrderlyRow(after.jobs[id]) {
      if id in db.jobs { RowStep(db, s, cfg, id); } else { NewRowStep(db, s, cfg, id); }
    }
  }

  lemma StepKeepsFrozen(db: Db, s: Stamped, cfg: Config, d: DeploymentId, key: Key)
    requires Orderly(db) && key.CycleKey? && Frozen(db, key) && Unattended(db, Transacts(s), cfg, d, key)
    ensures var after := Step(db, s, cfg);
            Frozen(after, key) && after.keys[key] == db.keys[key] && after.jobs[db.keys[key]] == db.jobs[db.keys[key]]
  {
    hide Step;
    KeyStep(db, s, cfg, key);
    RowStep(db, s, cfg, db.keys[key]);
    assert OrderlyRow(db.jobs[db.keys[key]]);
  }

  /** Terminal cycles stay frozen: over any interleaving of ticks with everyone
      else's transactions in which the deployment stays due in that cycle and no
      operator releases or reclaims the dead row, the row keeps holding its key,
      unchanged, and no tick inserts, deletes or changes a refresh row of the
      deployment. */
  lemma {:induction false} FrozenForGood(db: Db, moves: seq<Move>, cfg: Config, d: DeploymentId, key: Key)
    requires Orderly(db) && key.CycleKey? && key.deployment == d && Frozen(db, key)
    requires forall k :: 0 <= k < |moves| ==> Unattended(HappenAll(db, moves[..k], cfg), moves[k], cfg, d, key)
    ensures var end := HappenAll(db, moves, cfg);
            && Orderly(end) && Frozen(end, key)
            && end.keys[key] == db.keys[key] && end.jobs[db.keys[key]] == db.jobs[db.keys[key]]
    ensures forall k :: 0 <= k < |moves| && moves[k].Ticks? ==>
      RowsOf(HappenAll(db, moves[..k + 1], cfg), d) == RowsOf(HappenAll(db, moves[..k], cfg), d)
  {
    hide Orderly, Frozen, Step, Ticked, RowsOf;
    if moves != [] {
      var n := |moves| - 1;
      var front, last := moves[..n], moves[n];
      forall k | 0 <= k <= n ensures front[..k] == moves[..k] { }
      FrozenForGood(db, front, cfg, d, key);
      var before := HappenAll(db, front, cfg);
      match last {
        case Transacts(s) =>
          StepKeepsOrder(before, s, cfg);
          StepKeepsFrozen(before, s, cfg, d, key);
        case Ticks(w, at, due, guarded) =>
          FrozenTick(before, w, cfg, at, due, guarded, d);
          UntouchedFacts(before, Ticked(before, w, cfg, at, due, guarded), d);
      }
      assert moves[..n + 1] == moves;
    }
  }
}
