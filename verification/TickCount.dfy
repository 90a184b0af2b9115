/** The number a tick reports against the rows it adds, and a tick that forces a
    refresh while its cycle is frozen. */
module TickCount {
  import opened Prelude
  import opened JobRows
  import opened JobRuns
  import opened Scheduler
  import opened FrozenCycles

  /** A row holds the key and is not dead: createRefreshJob finds it and counts it. */
  predicate HoldsLive(db: Db, key: Key) { key in db.keys && !HoldsDead(db, key) }

  /** How many of the due rows find their cycle already under way or done. */
  function FoundCycles(db: Db, due: seq<DueRow>): nat {
    if due == [] then 0
    else FoundCycles(db, due[..|due| - 1]) + if HoldsLive(db, Cycle(due[|due| - 1])) then 1 else 0
  }

  /** How many of the guard's rows find their guard key taken. */
  function FoundGuards(db: Db, rows: seq<DueRow>): nat {
    if rows == [] then 0
    else FoundGuards(db, rows[..|rows| - 1]) + if Guard(rows[|rows| - 1]) in db.keys then 1 else 0
  }

  predicate DistinctIds(rows: seq<DueRow>) { forall i, j :: 0 <= i < j < |rows| ==> rows[i].id != rows[j].id }

  function NewRows(db: Db, after: Db): set<JobId> { set id | id in after.jobs && id !in db.jobs }

  // ------------------------------------------------- rows added are ids issued

  /** Every id issued in between is a row the scheduler added. */
  ghost predicate AllKept(db: Db, after: Db) {
    && OnlyRetries(db, after)
    && forall id :: db.nextId <= id < after.nextId ==> id in after.jobs && SchedulersRow(after.jobs[id])
  }

  lemma KeptChain(a: Db, b: Db, c: Db)
    requires WellFormed(a) && WellFormed(b) && WellFormed(c) && AllKept(a, b) && AllKept(b, c)
    ensures AllKept(a, c)
  {
    hide WellFormed, DiedTerminally, TakenOver;
    RetriesChain(a, b, c);
    forall id | a.nextId <= id < c.nextId ensures id in c.jobs && SchedulersRow(c.jobs[id]) {
      if id < b.nextId { StaysSchedulers(b.jobs[id], b.jobs[id].(parent := c.jobs[id].parent)); }
    }
  }

  lemma {:induction false} Interval(s: set<nat>, a: nat, b: nat)
    requires a <= b && forall id: nat :: id in s <==> a <= id < b
    ensures |s| == b - a
  {
    if a == b {
      assert s == {};
    } else {
      Interval(s - {b - 1}, a, b - 1);
    }
  }

  lemma NewRowsAreIds(db: Db, after: Db)
    requires WellFormed(db) && WellFormed(after) && AllKept(db, after)
    ensures |NewRows(db, after)| == after.nextId - db.nextId
  {
    hide WellFormed;
    forall id | id in NewRows(db, after) ensures db.nextId <= id < after.nextId { IdsAreIssued(after, id); }
    forall id: nat | db.nextId <= id < after.nextId ensures id in NewRows(db, after) {
      if id in db.jobs { IdsAreIssued(db, id); }
    }
    Interval(NewRows(db, after), db.nextId, after.nextId);
  }

  // -------------------------------------------------------------- the due loop

  lemma ScheduledCounts(db: Db, e: DueRow)
    requires Orderly(db)
    ensures var (after, n) := Scheduled(db, e);
            && AllKept(db, after)
            && n == (after.nextId - db.nextId) + (if HoldsLive(db, Cycle(e)) then 1 else 0)
            && (forall k: Key :: k.GuardKey? ==> (k in after.keys <==> k in db.keys))
  {
    hide Orderly, OrderlyRow, OnlyRetries, SchedulersRow;
    var key := Cycle(e);
    var row := RefreshRow(e, key);
    assert SchedulersRow(row) by { RowsAreSchedulers(e, key); }
    if !HoldsDead(db, key) {
      assert WellFormed(db) by { OrderlyIsWellFormed(db); }
      InsertKept(db, row);
    } else if DiedTerminally(db.jobs[db.keys[key]]) {
      NothingRetried(db, Scheduled(db, e).0);
    } else {
      RetryTakesOver(db, row);
      ReleaseDrops(db, key);
    }
  }

  lemma RowsAreSchedulers(e: DueRow, key: Key)
    requires key.CycleKey? || key.GuardKey?
    ensures SchedulersRow(RefreshRow(e, key))
  {
  }

  lemma {:induction false} LoopElsewhere(db: Db, due: seq<DueRow>, d: DeploymentId)
    requires Orderly(db) && forall e :: e in due ==> e.id != d
    ensures Orderly(ScheduledAll(db, due).0) && Untouched(db, ScheduledAll(db, due).0, d)
  {
    hide Orderly, Untouched, Scheduled;
    if due == [] {
      NothingTouched(db, d);
    } else {
      var front, e := due[..|due| - 1], due[|due| - 1];
      LoopElsewhere(db, front, d);
      ScheduledLeaves(ScheduledAll(db, front).0, e, d);
      UntouchedChain(db, ScheduledAll(db, front).0, ScheduledAll(db, due).0, d);
    }
  }

  lemma SameHolder(db: Db, after: Db, key: Key)
    requires Orderly(db) && Orderly(after) && key.CycleKey? && Untouched(db, after, key.deployment)
    ensures HoldsLive(db, key) <==> HoldsLive(after, key)
  {
    if key in db.keys {
      var id := db.keys[key];
      assert OrderlyRow(db.jobs[id]) && OrderlyRow(after.jobs[id]);
      assert id in RowsOf(db, key.deployment) && id in RowsOf(after, key.deployment);
      assert RowsOf(after, key.deployment)[id] == RowsOf(db, key.deployment)[id];
    }
  }

  lemma {:induction false} LoopCounts(db: Db, due: seq<DueRow>)
    requires Orderly(db) && DistinctIds(due)
    ensures var (after, n) := ScheduledAll(db, due);
            && Orderly(after) && AllKept(db, after)
            && n == (after.nextId - db.nextId) + FoundCycles(db, due)
            && (forall k: Key :: k.GuardKey? ==> (k in after.keys <==> k in db.keys))
  {
    hide Orderly, AllKept, Scheduled, HoldsLive, Untouched;
    if due == [] {
      assert AllKept(db, db) by { NothingKept(db); }
    } else {
      var front, e := due[..|due| - 1], due[|due| - 1];
      var before := ScheduledAll(db, front).0;
      LoopCounts(db, front);
      LoopElsewhere(db, front, e.id);
      SameHolder(db, before, Cycle(e));
      ScheduledCounts(before, e);
      ScheduledLeaves(before, e, e.id + 1);
      OrderlyIsWellFormed(db);
      OrderlyIsWellFormed(before);
      OrderlyIsWellFormed(ScheduledAll(db, due).0);
      KeptChain(db, before, ScheduledAll(db, due).0);
    }
  }

  lemma OrderlyIsWellFormed(db: Db)
    requires Orderly(db)
    ensures WellFormed(db)
  {
  }

  lemma NothingKept(db: Db)
    ensures AllKept(db, db)
  {
    NothingRetried(db, db);
  }

  // ------------------------------------------------------------ the guard's loop

  /** The guard keys of other deployments are not affected. */
  lemma {:induction false} GuardKeysElsewhere(db: Db, rows: seq<DueRow>, d: DeploymentId, day: int)
    requires forall e :: e in rows ==> e.id != d
    ensures GuardKey(d, day) in GuardedAll(db, rows).keys <==> GuardKey(d, day) in db.keys
  {
    if rows != [] { GuardKeysElsewhere(db, rows[..|rows| - 1], d, day); }
  }

  lemma {:induction false} GuardCounts(db: Db, rows: seq<DueRow>)
    requires Orderly(db) && DistinctIds(rows)
    ensures var after := GuardedAll(db, rows);
            Orderly(after) && AllKept(db, after) && |rows| == (after.nextId - db.nextId) + FoundGuards(db, rows)
  {
    hide Orderly, AllKept;
    if rows == [] {
      NothingKept(db);
    } else {
      var front, e := rows[..|rows| - 1], rows[|rows| - 1];
      var before := GuardedAll(db, front);
      GuardCounts(db, front);
      GuardKeysElsewhere(db, front, e.id, Day(e.expiryAt));
      InsertIsOrderly(before, RefreshRow(e, Guard(e)));
      OrderlyIsWellFormed(db);
      OrderlyIsWellFormed(before);
      OrderlyIsWellFormed(GuardedAll(db, rows));
      assert AllKept(before, GuardedAll(db, rows)) by { InsertKept(before, RefreshRow(e, Guard(e))); }
      KeptChain(db, before, GuardedAll(db, rows));
    }
  }

  lemma InsertKept(db: Db, row: Job)
    requires WellFormed(db) && SchedulersRow(row)
    ensures AllKept(db, Insert(db, row).0)
  {
    InsertOnlyAdds(db, row);
  }

  lemma ListedIdsDiffer(db: Db, w: World, cfg: Config, now: Time, rows: seq<DueRow>)
    requires Lists(rows, DueRows(db, w, cfg, now)) || Lists(rows, GuardRows(db, w, now))
    ensures DistinctIds(rows)
  {
    hide DueRows, GuardRows, IsDue, Linked, NeedsGuard;
    forall i, j | 0 <= i < j < |rows| ensures rows[i].id != rows[j].id {
      assert rows[i] in rows && rows[j] in rows;
      ListedIsQueried(db, w, cfg, now, rows[i]);
      ListedIsQueried(db, w, cfg, now, rows[j]);
    }
  }

  function Reported(db: Db, w: World, cfg: Config, at: Moments, due: seq<DueRow>, guarded: seq<DueRow>): nat {
    ScheduledAll(Marked(db, w, cfg, at.mark), due).1 + |guarded|
  }

  lemma {:induction false} NoneFound(db: Db, due: seq<DueRow>, rows: seq<DueRow>)
    ensures FoundCycles(db, due) == 0 <==> forall e :: e in due ==> !HoldsLive(db, Cycle(e))
    ensures FoundGuards(db, rows) == 0 <==> forall e :: e in rows ==> Guard(e) !in db.keys
    decreases |due| + |rows|
  {
    if due != [] {
      NoneFound(db, due[..|due| - 1], rows);
      assert forall e :: e in due <==> e in due[..|due| - 1] || e == due[|due| - 1];
    } else if rows != [] {
      NoneFound(db, due, rows[..|rows| - 1]);
      assert forall e :: e in rows <==> e in rows[..|rows| - 1] || e == rows[|rows| - 1];
    }
  }

  /** The tick's number exceeds the rows it added by the cycles it merely found and
      the guard keys it found taken. So it is the number of rows added if and only
      if every due cycle key was free or dead, and every guard key free. */
  lemma TickReports(db: Db, w: World, cfg: Config, at: Moments, due: seq<DueRow>, guarded: seq<DueRow>)
    requires Orderly(db) && TickMeets(db, w, cfg, at, due, guarded)
    ensures var after := Ticked(db, w, cfg, at, due, guarded);
            Reported(db, w, cfg, at, due, guarded) == |NewRows(db, after)| + FoundCycles(db, due)
                + FoundGuards(db, guarded)
    ensures Reported(db, w, cfg, at, due, guarded) == |NewRows(db, Ticked(db, w, cfg, at, due, guarded))| <==>
      (forall e :: e in due ==> !HoldsLive(db, Cycle(e))) && (forall e :: e in guarded ==> Guard(e) !in db.keys)
  {
    hide Orderly, AllKept, HoldsLive, DueRows, GuardRows, NewRows, GuardedAll;
    var marked := Marked(db, w, cfg, at.mark);
    var mid := ScheduledAll(marked, due).0;
    MarkedChangesNoRow(db, w, cfg, at.mark, 0);
    ListedIdsDiffer(marked, w, cfg, at.due, due);
    ListedIdsDiffer(mid, w, cfg, at.guard, guarded);
    LoopCounts(marked, due);
    GuardCounts(mid, guarded);
    SameFinds(db, marked, mid, due, guarded);
    var after := GuardedAll(mid, guarded);
    OrderlyIsWellFormed(marked);
    OrderlyIsWellFormed(mid);
    OrderlyIsWellFormed(after);
    KeptChain(marked, mid, after);
    NewRowsAreIds(marked, after);
    assert NewRows(marked, after) == NewRows(db, after) by { SameTable(db, marked, after); }
    NoneFound(db, due, guarded);
  }

  lemma SameTable(db: Db, marked: Db, after: Db)
    requires marked.jobs == db.jobs
    ensures NewRows(marked, after) == NewRows(db, after)
  {
  }

  lemma {:induction false} SameFinds(db: Db, marked: Db, mid: Db, due: seq<DueRow>, guarded: seq<DueRow>)
    requires marked.jobs == db.jobs && marked.keys == db.keys
    requires forall k: Key :: k.GuardKey? ==> (k in mid.keys <==> k in db.keys)
    ensures FoundCycles(marked, due) == FoundCycles(db, due)
    ensures FoundGuards(mid, guarded) == FoundGuards(db, guarded)
    decreases |due| + |guarded|
  {
    if due != [] {
      SameFinds(db, marked, mid, due[..|due| - 1], guarded);
    } else if guarded != [] {
      SameFinds(db, marked, mid, due, guarded[..|guarded| - 1]);
    }
  }

  // ------------------------------------------------------------- two ticks

  // due dates are a lead before expiry: five days and eighteen hours, and less than the guard's day
  const CFG := Config(120, 500000)
  const SHORT := Config(120, 100)
  const WORLD := World({0}, map[0 := Derivative(ArtifactId(1, 0), true)])
  const MIDNIGHT := Moments(0, 0, 0)

  function OneDeployment(nextDue: Time, expiry: Time, row: Job): Db {
    Db(map[0 := row], map[row.key := 0], 1,
       map[0 := Deployment(0, Some(nextDue), RefreshFailed, None)], map[0 := Installation(Some(expiry), Some(0), None)])
  }

  const DUE := DueRow(0, 0, 0, 500000, ArtifactId(1, 0))
  const RUNNING := OneDeployment(0, 500000, RefreshRow(DUE, CycleKey(0, 0, 5)))

  /** A due deployment whose refresh is already queued: the tick reports one job
      and adds none. */
  lemma CountsWhatItFinds()
    ensures Orderly(RUNNING) && TickMeets(RUNNING, WORLD, CFG, MIDNIGHT, [DUE], [])
    ensures Reported(RUNNING, WORLD, CFG, MIDNIGHT, [DUE], []) == 1
    ensures NewRows(RUNNING, Ticked(RUNNING, WORLD, CFG, MIDNIGHT, [DUE], [])) == {}
  {
    assert Marked(RUNNING, WORLD, CFG, 0) == RUNNING;
    assert DueRows(RUNNING, WORLD, CFG, 0) == {DUE} by { assert RowFor(RUNNING, WORLD, CFG, 0) == DUE; }
    assert [DUE][..0] == [] && ScheduledAll(RUNNING, []) == (RUNNING, 0);
    assert Scheduled(RUNNING, DUE) == (RUNNING, 1);
    assert ScheduledAll(RUNNING, [DUE]) == (RUNNING, 1);
    assert GuardRows(RUNNING, WORLD, 0) == {};
  }

  const DYING := RefreshRow(DueRow(0, 0, 100, 200, ArtifactId(1, 0)), CycleKey(0, 0, 0))
                   .(state := Dead, attempt := 1, requiresAttention := true, category := Some(Auth),
                       deadReason := Some(TerminalError(Auth)))
  const FROZEN := OneDeployment(100, 200, DYING)
  const AT_RISK := DueRow(0, 0, 0, 200, ArtifactId(1, 0))

  /** A deployment not yet due whose cycle died terminally, less than a day from expiry: the
      tick leaves the dead row and forces a refresh under the guard key. */
  lemma GuardedWhileFrozen()
    ensures Orderly(FROZEN) && Watched(FROZEN, WORLD, 0) && Frozen(FROZEN, CurrentCycle(FROZEN, WORLD, SHORT, 0))
    ensures !IsDue(FROZEN, WORLD, SHORT, 0, MIDNIGHT.due) && TickMeets(FROZEN, WORLD, SHORT, MIDNIGHT, [], [AT_RISK])
    ensures var after := Ticked(FROZEN, WORLD, SHORT, MIDNIGHT, [], [AT_RISK]);
            RowsOf(after, 0) == map[0 := DYING, 1 := RefreshRow(AT_RISK, GuardKey(0, 0))]
                && RowsOf(FROZEN, 0) == map[0 := DYING]
  {
    hide Ticked, RowsOf, TickMeets, Orderly, Watched, Frozen, IsDue;
    FrozenNotDue();
    FrozenMeets();
    FrozenTicked();
  }

  lemma FrozenNotDue()
    ensures Orderly(FROZEN) && Watched(FROZEN, WORLD, 0) && Frozen(FROZEN, CurrentCycle(FROZEN, WORLD, SHORT, 0))
    ensures !IsDue(FROZEN, WORLD, SHORT, 0, 0)
  {
  }

  lemma FrozenMeets()
    ensures Marked(FROZEN, WORLD, SHORT, 0) == FROZEN && ScheduledAll(FROZEN, []) == (FROZEN, 0)
    ensures TickMeets(FROZEN, WORLD, SHORT, MIDNIGHT, [], [AT_RISK])
  {
    assert Marked(FROZEN, WORLD, SHORT, 0) == FROZEN;
    assert DueRows(FROZEN, WORLD, SHORT, 0) == {};
    assert GuardRows(FROZEN, WORLD, 0) == {AT_RISK} by { assert GuardRow(FROZEN, WORLD, 0) == AT_RISK; }
  }

  lemma FrozenTicked()
    ensures var after := Ticked(FROZEN, WORLD, SHORT, MIDNIGHT, [], [AT_RISK]);
            RowsOf(after, 0) == map[0 := DYING, 1 := RefreshRow(AT_RISK, GuardKey(0, 0))]
                && RowsOf(FROZEN, 0) == map[0 := DYING]
  {
    hide Marked, ScheduledAll, TickMeets;
    FrozenMeets();
    assert [AT_RISK][..0] == [] && GuardedAll(FROZEN, []) == FROZEN;
    assert GuardedAll(FROZEN, [AT_RISK]) == Insert(FROZEN, RefreshRow(AT_RISK, GuardKey(0, 0))).0;
  }
}
