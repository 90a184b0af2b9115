/** Uploads and prune passes interleaved: each a transaction under the per-hash
    advisory lock, cut short at any point by an error or a crash, which rolls
    its rows back but not its files. */
module BlobSafety {
  import opened Prelude
  import opened ContentStore

  type Pid = nat

  datatype Work =
    | Original(hash: Hash)                                  // handleUploadArtifact
    | Signed(hash: Hash, row: RowId, expiry: Option<Time>)  // the signed upload
    | Prune(hash: Hash, cutoff: Time)                       // one turn of the prune loop; now() was fixed at BEGIN
    | Import(hash: Hash)                                    // a publisher that takes no lock

  datatype Proc =
    | Waiting(work: Work)
    | Holding(work: Work)
    | LookedUp(work: Work, existing: bool)
    | Published(work: Work, existing: bool, created: bool)
    | Inserted(work: Work, created: bool)
    | Deleted(work: Work, doomed: set<RowId>, referenced: bool)
    | Removed(work: Work, doomed: set<RowId>)

  /** `shelf` holds committed rows only; a transaction's own writes are in its Proc. */
  datatype World = World(shelf: Shelf, procs: map<Pid, Proc>, now: Time, retention: int)

  datatype Action =
    | Tick(now: Time)
    | Start(pid: Pid, work: Work)
    | Lock(pid: Pid)
    | LookUp(pid: Pid)
    | Publish(pid: Pid)
    | InsertRow(pid: Pid)
    | DeleteRows(pid: Pid)
    | RemoveFile(pid: Pid)
    | Commit(pid: Pid)
    | Fail(pid: Pid)  // a statement after the publication fails: clean up, roll back
    | Abort(pid: Pid) // crash or any other error: roll back

  predicate Locked(p: Proc) { !p.Waiting? && !p.work.Import? }

  predicate LockFree(w: World, h: Hash) {
    forall q :: q in w.procs ==> w.procs[q].work.hash == h ==> !Locked(w.procs[q])
  }

  /** Row ids are fresh: no committed or open row has this one. */
  predicate FreshRow(w: World, row: RowId) {
    row !in w.shelf.signed && forall q :: q in w.procs && w.procs[q].work.Signed? ==> w.procs[q].work.row != row
  }

  predicate MayPublish(p: Proc) {
    match p
    case LookedUp(_, _) => true
    case Holding(work) => work.Signed?
    case Waiting(work) => work.Import?
    case _ => false
  }

  predicate MayCommit(p: Proc) {
    match p
    case Published(work, existing, _) => existing || work.Import?
    case Inserted(_, _) => true
    case Deleted(_, _, referenced) => referenced
    case Removed(_, _) => true
    case _ => false
  }

  predicate MayFail(p: Proc) {
    match p
    case Published(work, existing, _) => !existing && (work.Original? || work.Signed?)
    case Inserted(work, _) => work.Signed?
    case _ => false
  }

  predicate Enabled(w: World, a: Action) {
    match a
    case Tick(now) => w.now <= now
    case Start(pid, work) =>
      && pid !in w.procs
      && (work.Signed? ==> FreshRow(w, work.row))
      && (work.Prune? ==> w.retention != 0 && work.cutoff == w.now - w.retention)
    case Lock(pid) =>
      pid in w.procs && w.procs[pid].Waiting? && !w.procs[pid].work.Import? && LockFree(w, w.procs[pid].work.hash)
    case LookUp(pid) => pid in w.procs && w.procs[pid].Holding? && w.procs[pid].work.Original?
    case Publish(pid) => pid in w.procs && MayPublish(w.procs[pid])
    case InsertRow(pid) =>
      && pid in w.procs && w.procs[pid].Published? && !w.procs[pid].work.Import? && !w.procs[pid].existing
      && (w.procs[pid].work.Original? ==> w.procs[pid].work.hash !in w.shelf.originals) // sha256 is unique
    case DeleteRows(pid) => pid in w.procs && w.procs[pid].Holding? && w.procs[pid].work.Prune?
    case RemoveFile(pid) => pid in w.procs && w.procs[pid].Deleted? && !w.procs[pid].referenced
    case Commit(pid) => pid in w.procs && MayCommit(w.procs[pid])
    case Fail(pid) => pid in w.procs && MayFail(w.procs[pid])
    case Abort(pid) => pid in w.procs
  }

  function With(w: World, pid: Pid, p: Proc): World { w.(procs := w.procs[pid := p]) }

  function Without(w: World, pid: Pid): World { w.(procs := w.procs - {pid}) }

  /** What a committing transaction leaves behind. */
  function Landed(shelf: Shelf, p: Proc): Shelf {
    match p
    case Inserted(Original(h), _) => shelf.(originals := shelf.originals + {h})
    case Inserted(Signed(h, row, expiry), _) => shelf.(signed := shelf.signed[row := SignedRow(h, expiry)])
    case Published(Import(h), _, _) => shelf.(originals := shelf.originals + {h})
    case Deleted(_, doomed, _) => shelf.(signed := shelf.signed - doomed)
    case Removed(_, doomed) => shelf.(signed := shelf.signed - doomed)
    case _ => shelf
  }

  function Next(w: World, a: Action): World
    requires Enabled(w, a)
  {
    match a
    case Tick(now) => w.(now := now)
    case Start(pid, work) => With(w, pid, Waiting(work))
    case Lock(pid) => With(w, pid, Holding(w.procs[pid].work))
    case LookUp(pid) => With(w, pid, LookedUp(w.procs[pid].work, w.procs[pid].work.hash in w.shelf.originals))
    case Publish(pid) =>
      var p := w.procs[pid];
      var published := Published(p.work, p.LookedUp? && p.existing, p.work.hash !in w.shelf.files);
      With(w.(shelf := w.shelf.(files := w.shelf.files + {p.work.hash})), pid, published)
    case InsertRow(pid) => With(w, pid, Inserted(w.procs[pid].work, w.procs[pid].created))
    case DeleteRows(pid) =>
      var work := w.procs[pid].work;
      var doomed := Doomed(w.shelf, work.hash, work.cutoff);
      With(w, pid, Deleted(work, doomed, Referenced(w.shelf.originals, w.shelf.signed - doomed, work.hash)))
    case RemoveFile(pid) =>
      var p := w.procs[pid];
      With(w.(shelf := w.shelf.(files := w.shelf.files - {p.work.hash})), pid, Removed(p.work, p.doomed))
    case Commit(pid) => Without(w.(shelf := Landed(w.shelf, w.procs[pid])), pid)
    case Fail(pid) =>
      // the original upload removes the file whatever `created` says
      var p := w.procs[pid];
      var files := if p.work.Original? || p.created then w.shelf.files - {p.work.hash} else w.shelf.files;
      Without(w.(shelf := w.shelf.(files := files)), pid)
    case Abort(pid) => Without(w, pid)
  }

  /** A committed row of hash h that is not past retention. */
  predicate Live(w: World, h: Hash) {
    h in w.shelf.originals
    || exists id :: id in w.shelf.signed && w.shelf.signed[id].hash == h
        && !Past(w.shelf.signed[id], w.now - w.retention)
  }

  /** Every committed row not past retention has its file. */
  ghost predicate Safe(w: World) { forall h :: Live(w, h) ==> h in w.shelf.files }

  /** In other words: an original has its file, and so has every signed row whose
      expiry is unknown or not further back than the retention. */
  lemma SafeMeans(w: World)
    ensures Safe(w) <==>
              && (forall h :: h in w.shelf.originals ==> h in w.shelf.files)
              && forall id :: id in w.shelf.signed ==>
                   || (w.shelf.signed[id].expiry.Some? && w.shelf.signed[id].expiry.value < w.now - w.retention)
                   || w.shelf.signed[id].hash in w.shelf.files
  {
    if Safe(w) {
      forall id | id in w.shelf.signed
        && (w.shelf.signed[id].expiry == None || w.shelf.signed[id].expiry.value >= w.now - w.retention)
        ensures w.shelf.signed[id].hash in w.shelf.files
      {
        assert Live(w, w.shelf.signed[id].hash);
      }
      forall h | h in w.shelf.originals ensures h in w.shelf.files { assert Live(w, h); }
    }
  }

  // ------------------------------------------------------------- invariant

  /** What a transaction holding the lock knows. */
  ghost predicate Knows(w: World, p: Proc) {
    var h := p.work.hash;
    match p
    case Waiting(_) => true
    case Holding(_) => true
    case LookedUp(_, existing) => existing <==> h in w.shelf.originals
    case Published(_, existing, created) =>
      h in w.shelf.files && (created ==> !Live(w, h)) && (p.work.Original? ==> (existing <==> h in w.shelf.originals))
    case Inserted(_, created) => h in w.shelf.files && (created ==> !Live(w, h))
    case Deleted(work, doomed, referenced) => work.Prune? && Judged(w, h, doomed, referenced, work.cutoff)
    case Removed(work, doomed) => work.Prune? && Judged(w, h, doomed, false, work.cutoff)
  }

  ghost predicate Judged(w: World, h: Hash, doomed: set<RowId>, referenced: bool, cutoff: Time) {
    doomed == Doomed(w.shelf, h, cutoff) && (referenced <==> Referenced(w.shelf.originals, w.shelf.signed - doomed, h))
  }

  ghost predicate Exclusive(w: World) {
    forall p, q :: p in w.procs && q in w.procs && p != q && Locked(w.procs[p]) && Locked(w.procs[q]) ==>
      w.procs[p].work.hash != w.procs[q].work.hash
  }

  ghost predicate FreshRows(w: World) {
    && (forall p :: p in w.procs && w.procs[p].work.Signed? ==> w.procs[p].work.row !in w.shelf.signed)
    && (forall p, q :: p in w.procs && q in w.procs && p != q && w.procs[p].work.Signed? && w.procs[q].work.Signed? ==>
          w.procs[p].work.row != w.procs[q].work.row)
  }

  ghost predicate Inv(w: World) {
    && Safe(w) && Exclusive(w) && FreshRows(w)
    && (forall p :: p in w.procs ==> !w.procs[p].work.Import? && Knows(w, w.procs[p]))
    && (forall p :: p in w.procs && w.procs[p].work.Prune? ==> w.procs[p].work.cutoff <= w.now - w.retention)
  }

  /** All publishers take the lock, and a failed insert of an original only ever
      follows a publication that created the file. */
  predicate Disciplined(w: World, a: Action) {
    && (a.Start? ==> !a.work.Import?)
    && (a.Fail? && a.pid in w.procs && w.procs[a.pid].Published? && w.procs[a.pid].work.Original? ==>
        w.procs[a.pid].created)
  }

  /** The step leaves the file and rows of hash h alone. */
  ghost predicate Undisturbed(w: World, after: World, h: Hash) {
    && w.now <= after.now && w.retention == after.retention
    && (h in after.shelf.files <==> h in w.shelf.files)
    && (h in after.shelf.originals <==> h in w.shelf.originals)
    && (forall id :: RowIs(after, id, h) <==> RowIs(w, id, h))
    && (forall id :: RowIs(w, id, h) ==> after.shelf.signed[id] == w.shelf.signed[id])
  }

  predicate RowIs(w: World, id: RowId, h: Hash) { id in w.shelf.signed && w.shelf.signed[id].hash == h }

  lemma LiveOnlyShrinks(w: World, after: World, h: Hash)
    requires Undisturbed(w, after, h)
    ensures Live(after, h) ==> Live(w, h)
  {
    if Live(after, h) && h !in after.shelf.originals {
      var id :| id in after.shelf.signed && after.shelf.signed[id].hash == h
          && !Past(after.shelf.signed[id], after.now - after.retention);
      assert RowIs(after, id, h);
      assert RowIs(w, id, h);
    }
  }

  lemma KnowledgeStays(w: World, after: World, p: Proc)
    requires Undisturbed(w, after, p.work.hash) && Knows(w, p)
    ensures Knows(after, p)
  {
    hide Live;
    var h := p.work.hash;
    LiveOnlyShrinks(w, after, h);
    if p.Deleted? || p.Removed? {
      assert forall id :: id in Doomed(w.shelf, h, p.work.cutoff) ==> RowIs(w, id, h);
      assert forall id :: id in Doomed(after.shelf, h, p.work.cutoff) ==> RowIs(after, id, h);
      assert Doomed(after.shelf, h, p.work.cutoff) == p.doomed;
      SameReferences(w, after, h, p.doomed);
    }
  }

  lemma SameReferences(w: World, after: World, h: Hash, gone: set<RowId>)
    requires Undisturbed(w, after, h)
    ensures Referenced(after.shelf.originals, after.shelf.signed - gone, h)
        <==> Referenced(w.shelf.originals, w.shelf.signed - gone, h)
  {
    if id :| id in after.shelf.signed - gone && (after.shelf.signed - gone)[id].hash == h {
      assert RowIs(after, id, h);
      assert RowIs(w, id, h) && id in w.shelf.signed - gone;
    }
    if id :| id in w.shelf.signed - gone && (w.shelf.signed - gone)[id].hash == h {
      assert RowIs(w, id, h);
      assert RowIs(after, id, h) && id in after.shelf.signed - gone;
    }
  }

  // -------------------------------------------------------------- each step

  /** The hash whose file or rows the step may change. */
  predicate Touches(w: World, a: Action, h: Hash)
    requires Enabled(w, a)
  {
    (a.Publish? || a.RemoveFile? || a.Commit? || a.Fail?) && w.procs[a.pid].work.hash == h
  }

  lemma ElsewhereUndisturbed(w: World, a: Action, h: Hash)
    requires Inv(w) && Enabled(w, a) && !Touches(w, a, h)
    ensures Undisturbed(w, Next(w, a), h)
  {
    if a.Commit? && (w.procs[a.pid].Deleted? || w.procs[a.pid].Removed?) {
      assert Knows(w, w.procs[a.pid]);
    }
  }

  /** A transaction that touches a hash holds its lock, so no other one knows
      anything about that hash yet. */
  lemma OthersWait(w: World, a: Action, q: Pid)
    requires Inv(w) && Enabled(w, a) && q in w.procs && Touches(w, a, w.procs[q].work.hash) && q != a.pid
    ensures Knows(Next(w, a), w.procs[q])
  {
    assert Locked(w.procs[a.pid]);
    assert w.procs[q].Waiting?;
  }

  /** A file the prune pass removes has no row left that is not past retention. */
  lemma PruneSparesLive(w: World, pid: Pid)
    requires Inv(w) && Enabled(w, RemoveFile(pid))
    ensures !Live(w, w.procs[pid].work.hash)
  {
    assert Knows(w, w.procs[pid]);
    AllPast(w, w.procs[pid].work.hash, w.procs[pid].doomed, w.procs[pid].work.cutoff);
  }

  lemma AllPast(w: World, h: Hash, doomed: set<RowId>, cutoff: Time)
    requires doomed == Doomed(w.shelf, h, cutoff) && !Referenced(w.shelf.originals, w.shelf.signed - doomed, h)
    requires cutoff <= w.now - w.retention
    ensures !Live(w, h)
  {
    forall id | id in w.shelf.signed && w.shelf.signed[id].hash == h
      ensures Past(w.shelf.signed[id], w.now - w.retention)
    {
      assert id in doomed || id in w.shelf.signed - doomed;
    }
  }

  /** A failed transaction that created its file removes one nobody refers to. */
  lemma FailureSparesLive(w: World, pid: Pid)
    requires Inv(w) && Enabled(w, Fail(pid)) && w.procs[pid].created
    ensures !Live(w, w.procs[pid].work.hash)
  {
    assert Knows(w, w.procs[pid]);
  }

  lemma StepKeepsSafe(w: World, a: Action)
    requires Inv(w) && Enabled(w, a) && Disciplined(w, a)
    ensures Safe(Next(w, a))
  {
    hide Knows, Exclusive, FreshRows, Live;
    var after := Next(w, a);
    forall h | Live(after, h) ensures h in after.shelf.files {
      if Touches(w, a, h) {
        match a
        case Publish(_) =>
        case RemoveFile(pid) => PruneSparesLive(w, pid); SameRowsSameLife(w, after, h);
        case Fail(pid) =>
          SameRowsSameLife(w, after, h);
          if w.procs[pid].created { FailureSparesLive(w, pid); }
        case Commit(pid) => CommitKeepsFile(w, pid, h);
      } else {
        ElsewhereUndisturbed(w, a, h);
        LiveOnlyShrinks(w, after, h);
      }
    }
  }

  lemma SameRowsSameLife(w: World, after: World, h: Hash)
    requires after.shelf.originals == w.shelf.originals && after.shelf.signed == w.shelf.signed
    requires after.now == w.now && after.retention == w.retention
    ensures Live(after, h) <==> Live(w, h)
  {
  }

  lemma CommitKeepsFile(w: World, pid: Pid, h: Hash)
    requires Inv(w) && Enabled(w, Commit(pid)) && w.procs[pid].work.hash == h && Live(Next(w, Commit(pid)), h)
    ensures h in w.shelf.files
  {
    assert Knows(w, w.procs[pid]);
    if !w.procs[pid].Published? && !w.procs[pid].Inserted? {
      var after := Next(w, Commit(pid));
      assert Live(w, h) by {
        if h !in after.shelf.originals {
          var id :| id in after.shelf.signed && after.shelf.signed[id].hash == h
              && !Past(after.shelf.signed[id], after.now - after.retention);
          assert id in w.shelf.signed;
        }
      }
    }
  }

  lemma StepKeepsLocks(w: World, a: Action)
    requires Inv(w) && Enabled(w, a) && Disciplined(w, a)
    ensures Exclusive(Next(w, a)) && FreshRows(Next(w, a))
  {
    hide Safe, Knows;
  }

  /** What the acting transaction learns by its step. */
  lemma ActorLearns(w: World, a: Action)
    requires Inv(w) && Enabled(w, a) && !a.Tick? && a.pid in Next(w, a).procs
    ensures Knows(Next(w, a), Next(w, a).procs[a.pid])
  {
    hide Exclusive, FreshRows, Live;
    var after, p := Next(w, a), Next(w, a).procs[a.pid];
    SameRowsSameLife(w, after, p.work.hash);
    if !a.Start? { assert Knows(w, w.procs[a.pid]); }
  }

  lemma StepKeepsKnowledge(w: World, a: Action, q: Pid)
    requires Inv(w) && Enabled(w, a) && q in Next(w, a).procs
    ensures Knows(Next(w, a), Next(w, a).procs[q])
  {
    hide Knows, Safe, Exclusive, FreshRows, Undisturbed;
    if !a.Tick? && q == a.pid {
      ActorLearns(w, a);
    } else if Touches(w, a, w.procs[q].work.hash) {
      OthersWait(w, a, q);
    } else {
      ElsewhereUndisturbed(w, a, w.procs[q].work.hash);
      KnowledgeStays(w, Next(w, a), w.procs[q]);
    }
  }

  lemma StepKeepsInv(w: World, a: Action)
    requires Inv(w) && Enabled(w, a) && Disciplined(w, a)
    ensures Inv(Next(w, a))
  {
    hide Knows, Safe, Exclusive, FreshRows;
    StepKeepsSafe(w, a);
    StepKeepsLocks(w, a);
    forall q | q in Next(w, a).procs ensures Knows(Next(w, a), Next(w, a).procs[q]) { StepKeepsKnowledge(w, a, q); }
  }

  // ------------------------------------------------------------- whole runs

  function Run(w: World, actions: seq<Action>): Option<World> {
    if actions == [] then Some(w)
    else
      var before := Run(w, actions[..|actions| - 1]);
      if before.Some? && Enabled(before.value, actions[|actions| - 1])
      then Some(Next(before.value, actions[|actions| - 1])) else None
  }

  ghost predicate AllDisciplined(w: World, actions: seq<Action>) {
    forall k :: 0 <= k < |actions| && Run(w, actions[..k]).Some? ==> Disciplined(Run(w, actions[..k]).value, actions[k])
  }

  /** Over any interleaving of lock-taking uploads and prune passes, cut short
      wherever they like, every committed row not past retention has its file. */
  lemma {:induction false} BlobsStay(w: World, actions: seq<Action>)
    requires Inv(w) && Run(w, actions).Some? && AllDisciplined(w, actions)
    ensures Inv(Run(w, actions).value)
    ensures Safe(Run(w, actions).value)
  {
    hide Inv, Safe, Disciplined;
    if actions != [] {
      var n := |actions| - 1;
      var front := actions[..n];
      forall k | 0 <= k < n ensures front[..k] == actions[..k] { }
      BlobsStay(w, front);
      StepKeepsInv(Run(w, front).value, actions[n]);
    }
    InvIsSafe(Run(w, actions).value);
  }

  lemma InvIsSafe(w: World)
    requires Inv(w)
    ensures Safe(w)
  {
  }

  lemma Quiescent(shelf: Shelf, now: Time, retention: int)
    requires forall h :: Referenced(shelf.originals, shelf.signed, h) ==> h in shelf.files
    ensures Inv(World(shelf, map[], now, retention))
  {
    var w := World(shelf, map[], now, retention);
    forall h | Live(w, h) ensures h in w.shelf.files { assert Referenced(shelf.originals, shelf.signed, h); }
  }

  // ------------------------------------- the steps the discipline keeps out

  /** When the insert of an original fails, the clean-up removes the file without
      asking whether this upload created it. That is safe exactly if no row still
      within retention names the hash; having created the file is enough. */
  lemma FailedInsertIsSafe(w: World, pid: Pid)
    requires Inv(w) && Enabled(w, Fail(pid)) && w.procs[pid].work.Original?
    ensures Safe(Next(w, Fail(pid))) <==> !Live(w, w.procs[pid].work.hash)
    ensures w.procs[pid].created ==> Safe(Next(w, Fail(pid)))
  {
    hide Exclusive, FreshRows, Live;
    var after, h := Next(w, Fail(pid)), w.procs[pid].work.hash;
    forall x ensures Live(after, x) <==> Live(w, x) { SameRowsSameLife(w, after, x); }
    if w.procs[pid].created { FailureSparesLive(w, pid); }
  }

  lemma Then(w: World, actions: seq<Action>, here: World, a: Action, next: World) returns (longer: seq<Action>)
    requires Run(w, actions) == Some(here) && Enabled(here, a) && Next(here, a) == next
    ensures longer == actions + [a] && Run(w, longer) == Some(next)
  {
    longer := actions + [a];
    assert longer[..|actions|] == actions;
  }

  lemma Nothing(w: World)
    ensures Run(w, []) == Some(w)
  {
  }

  const DERIVED := Shelf({7}, {}, map[0 := SignedRow(7, Some(100))])
  const EXPIRED := Shelf({7}, {}, map[0 := SignedRow(7, Some(20))])

  /** Bytes that are already there as a signed derivative, uploaded as an original
      whose insert fails: the derivative's file is gone. */
  lemma FailedInsertLosesFile() returns (start: World, actions: seq<Action>)
    ensures Inv(start) && Run(start, actions).Some? && !Safe(Run(start, actions).value)
    ensures actions == [Start(0, Original(7)), Lock(0), LookUp(0), Publish(0), Fail(0)]
  {
    hide Run;
    var published := Published(Original(7), false, false);
    start, actions := Republished(published);
    var end := World(DERIVED.(files := {}), map[], 50, 10);
    assert map[0 := published] - {0} == map[] && DERIVED.files - {7} == {};
    actions := Then(start, actions, World(DERIVED, map[0 := published], 50, 10), Fail(0), end);
    assert end.shelf.signed[0] == SignedRow(7, Some(100));
    assert Live(end, 7);
  }

  lemma Republished(published: Proc) returns (start: World, actions: seq<Action>)
    requires published == Published(Original(7), false, false)
    ensures start == World(DERIVED, map[], 50, 10) && Inv(start)
    ensures actions == [Start(0, Original(7)), Lock(0), LookUp(0), Publish(0)]
    ensures Run(start, actions) == Some(World(DERIVED, map[0 := published], 50, 10))
  {
    hide Run;
    start := World(DERIVED, map[], 50, 10);
    Quiescent(DERIVED, 50, 10);
    Nothing(start);
    var work := Original(7);
    var p1, p2, p3 := Waiting(work), Holding(work), LookedUp(work, false);
    actions := Then(start, [], start, Start(0, work), World(DERIVED, map[0 := p1], 50, 10));
    actions := Then(start, actions, World(DERIVED, map[0 := p1], 50, 10), Lock(0),
        World(DERIVED, map[0 := p2], 50, 10));
    actions := Then(start, actions, World(DERIVED, map[0 := p2], 50, 10), LookUp(0),
        World(DERIVED, map[0 := p3], 50, 10));
    assert DERIVED.files + {7} == DERIVED.files;
    actions := Then(start, actions, World(DERIVED, map[0 := p3], 50, 10), Publish(0),
        World(DERIVED, map[0 := published], 50, 10));
  }

  /** A publisher that takes no lock, met by a prune pass: its committed original
      has no file. */
  lemma UnlockedImportLosesFile() returns (start: World, actions: seq<Action>)
    ensures Inv(start) && Run(start, actions).Some? && !Safe(Run(start, actions).value)
    ensures actions == [Start(0, Prune(7, 40)), Lock(0), DeleteRows(0), Start(1, Import(7)), Publish(1),
        RemoveFile(0), Commit(1)]
  {
    hide Run;
    var prune := Prune(7, 40);
    var p3, p4, q2 := Deleted(prune, {0}, false), Removed(prune, {0}), Published(Import(7), false, false);
    start, actions := PruneDecides(p3);
    actions := Imported(start, actions, p3, q2);
    var bare := EXPIRED.(files := {});
    assert EXPIRED.files - {7} == {};
    actions := Then(start, actions, World(EXPIRED, map[0 := p3, 1 := q2], 50, 10), RemoveFile(0),
        World(bare, map[0 := p4, 1 := q2], 50, 10));
    var end := World(bare.(originals := {7}), map[0 := p4], 50, 10);
    assert map[0 := p4, 1 := q2] - {1} == map[0 := p4] && bare.originals + {7} == {7};
    actions := Then(start, actions, World(bare, map[0 := p4, 1 := q2], 50, 10), Commit(1), end);
    assert Live(end, 7);
  }

  lemma PruneDecides(p3: Proc) returns (start: World, actions: seq<Action>)
    requires p3 == Deleted(Prune(7, 40), {0}, false)
    ensures start == World(EXPIRED, map[], 50, 10) && Inv(start)
    ensures actions == [Start(0, Prune(7, 40)), Lock(0), DeleteRows(0)]
    ensures Run(start, actions) == Some(World(EXPIRED, map[0 := p3], 50, 10))
  {
    hide Run;
    start := World(EXPIRED, map[], 50, 10);
    Quiescent(EXPIRED, 50, 10);
    Nothing(start);
    var prune := Prune(7, 40);
    var w1, w2 := World(EXPIRED, map[0 := Waiting(prune)], 50, 10), World(EXPIRED, map[0 := Holding(prune)], 50, 10);
    actions := Then(start, [], start, Start(0, prune), w1);
    actions := Then(start, actions, w1, Lock(0), w2);
    assert Doomed(EXPIRED, 7, 40) == {0};
    actions := Then(start, actions, w2, DeleteRows(0), World(EXPIRED, map[0 := p3], 50, 10));
  }

  lemma Imported(start: World, actions: seq<Action>, p: Proc, q: Proc) returns (longer: seq<Action>)
    requires Run(start, actions) == Some(World(EXPIRED, map[0 := p], 50, 10)) && q == Published(Import(7), false, false)
    ensures longer == actions + [Start(1, Import(7))] + [Publish(1)]
    ensures Run(start, longer) == Some(World(EXPIRED, map[0 := p, 1 := q], 50, 10))
  {
    hide Run;
    var waiting := World(EXPIRED, map[0 := p, 1 := Waiting(Import(7))], 50, 10);
    assert EXPIRED.files + {7} == EXPIRED.files;
    longer := Then(start, actions, World(EXPIRED, map[0 := p], 50, 10), Start(1, Import(7)), waiting);
    longer := Then(start, longer, waiting, Publish(1), World(EXPIRED, map[0 := p, 1 := q], 50, 10));
  }

  // ------------------------------------------------ run without interruption

  /** With the lock free and nobody in between, a prune turn does what
      `ContentStore.Pruned` says. */
  lemma PruneTurn(w: World, pid: Pid, h: Hash) returns (actions: seq<Action>)
    requires pid !in w.procs && w.retention != 0 && LockFree(w, h)
    ensures var cutoff := w.now - w.retention;
            actions == [Start(pid, Prune(h, cutoff)), Lock(pid), DeleteRows(pid)]
                       + if Referenced(w.shelf.originals, w.shelf.signed - Doomed(w.shelf, h, cutoff), h)
                         then [Commit(pid)] else [RemoveFile(pid), Commit(pid)]
    ensures Run(w, actions) == Some(w.(shelf := Pruned(w.shelf, h, w.now - w.retention)))
  {
    hide Run, Doomed, Referenced;
    var cutoff := w.now - w.retention;
    var work, doomed := Prune(h, cutoff), Doomed(w.shelf, h, cutoff);
    var kept := Referenced(w.shelf.originals, w.shelf.signed - doomed, h);
    var w1, w2, w3 := With(w, pid, Waiting(work)), With(w, pid, Holding(work)),
        With(w, pid, Deleted(work, doomed, kept));
    Nothing(w);
    actions := Then(w, [], w, Start(pid, work), w1);
    assert w1.procs[pid := Holding(work)] == w2.procs && w2.procs[pid := Deleted(work, doomed, kept)] == w3.procs;
    actions := Then(w, actions, w1, Lock(pid), w2);
    actions := Then(w, actions, w2, DeleteRows(pid), w3);
    if kept {
      assert w3.procs - {pid} == w.procs;
      actions := Then(w, actions, w3, Commit(pid), w.(shelf := Pruned(w.shelf, h, cutoff)));
    } else {
      actions := PruneFinishes(w, actions, pid, work, doomed);
    }
  }

  lemma PruneFinishes(w: World, actions: seq<Action>, pid: Pid, work: Work, doomed: set<RowId>)
    returns (longer: seq<Action>)
    requires pid !in w.procs && work.Prune? && doomed == Doomed(w.shelf, work.hash, work.cutoff)
    requires !Referenced(w.shelf.originals, w.shelf.signed - doomed, work.hash)
    requires Run(w, actions) == Some(With(w, pid, Deleted(work, doomed, false)))
    ensures longer == actions + [RemoveFile(pid), Commit(pid)]
    ensures Run(w, longer) == Some(w.(shelf := Pruned(w.shelf, work.hash, work.cutoff)))
  {
    hide Run, Doomed, Referenced;
    var w3 := With(w, pid, Deleted(work, doomed, false));
    var w4 := With(w.(shelf := w.shelf.(files := w.shelf.files - {work.hash})), pid, Removed(work, doomed));
    assert w3.procs[pid := Removed(work, doomed)] == w4.procs && w4.procs - {pid} == w.procs;
    longer := Then(w, actions, w3, RemoveFile(pid), w4);
    longer := Then(w, longer, w4, Commit(pid), w.(shelf := Pruned(w.shelf, work.hash, work.cutoff)));
  }

  /** So does a signed upload that succeeds: what `ContentStore.Keeper.UploadSigned` says. */
  lemma SignedTurn(w: World, pid: Pid, h: Hash, row: RowId, expiry: Option<Time>) returns (actions: seq<Action>)
    requires pid !in w.procs && LockFree(w, h) && FreshRow(w, row)
    ensures actions == [Start(pid, Signed(h, row, expiry)), Lock(pid), Publish(pid), InsertRow(pid), Commit(pid)]
    ensures Run(w, actions)
         == Some(w.(shelf := Shelf(w.shelf.files + {h}, w.shelf.originals,
             w.shelf.signed[row := SignedRow(h, expiry)])))
  {
    hide Run;
    var work, created := Signed(h, row, expiry), h !in w.shelf.files;
    var stored := w.(shelf := w.shelf.(files := w.shelf.files + {h}));
    var w1, w2 := With(w, pid, Waiting(work)), With(w, pid, Holding(work));
    var w3 := With(stored, pid, Published(work, false, created));
    Nothing(w);
    actions := Then(w, [], w, Start(pid, work), w1);
    assert w1.procs[pid := Holding(work)] == w2.procs;
    actions := Then(w, actions, w1, Lock(pid), w2);
    assert w2.procs[pid := Published(work, false, created)] == w3.procs;
    actions := Then(w, actions, w2, Publish(pid), w3);
    actions := SignedLands(w, actions, pid, work, created);
  }

  lemma SignedLands(w: World, actions: seq<Action>, pid: Pid, work: Work, created: bool) returns (longer: seq<Action>)
    requires pid !in w.procs && work.Signed?
    requires Run(w, actions) == Some(With(w.(shelf := w.shelf.(files := w.shelf.files + {work.hash})), pid,
        Published(work, false, created)))
    ensures longer == actions + [InsertRow(pid), Commit(pid)]
    ensures Run(w, longer)
         == Some(w.(shelf := Shelf(w.shelf.files + {work.hash}, w.shelf.originals,
                                   w.shelf.signed[work.row := SignedRow(work.hash, work.expiry)])))
  {
    hide Run;
    var stored := w.(shelf := w.shelf.(files := w.shelf.files + {work.hash}));
    var w3, w4 := With(stored, pid, Published(work, false, created)), With(stored, pid, Inserted(work, created));
    assert w3.procs[pid := Inserted(work, created)] == w4.procs && w4.procs - {pid} == w.procs;
    longer := Then(w, actions, w3, InsertRow(pid), w4);
    longer := Then(w, longer, w4, Commit(pid),
                   w.(shelf := stored.shelf.(signed := w.shelf.signed[work.row := SignedRow(work.hash, work.expiry)])));
  }

  /** One that fails after the publication leaves the files as they were. */
  lemma FailedSignedTurn(w: World, pid: Pid, h: Hash, row: RowId, expiry: Option<Time>) returns (actions: seq<Action>)
    requires pid !in w.procs && LockFree(w, h) && FreshRow(w, row)
    ensures actions == [Start(pid, Signed(h, row, expiry)), Lock(pid), Publish(pid), Fail(pid)]
    ensures Run(w, actions) == Some(w)
  {
    hide Run;
    var work, created := Signed(h, row, expiry), h !in w.shelf.files;
    var stored := w.(shelf := w.shelf.(files := w.shelf.files + {h}));
    var w1, w2 := With(w, pid, Waiting(work)), With(w, pid, Holding(work));
    var w3 := With(stored, pid, Published(work, false, created));
    Nothing(w);
    actions := Then(w, [], w, Start(pid, work), w1);
    assert w1.procs[pid := Holding(work)] == w2.procs;
    actions := Then(w, actions, w1, Lock(pid), w2);
    assert w2.procs[pid := Published(work, false, created)] == w3.procs;
    actions := Then(w, actions, w2, Publish(pid), w3);
    assert w3.procs - {pid} == w.procs;
    assert (if created then stored.shelf.files - {h} else stored.shelf.files) == w.shelf.files;
    actions := Then(w, actions, w3, Fail(pid), w);
  }

  /** An original upload does what `ContentStore.Keeper.UploadOriginal` says, in each
      of its three endings: a duplicate, an insert, and an insert that fails, after
      which the file is gone even if it was there before. */
  lemma OriginalTurn(w: World, pid: Pid, h: Hash, inserts: bool) returns (actions: seq<Action>)
    requires pid !in w.procs && LockFree(w, h)
    ensures actions == [Start(pid, Original(h)), Lock(pid), LookUp(pid), Publish(pid)]
                       + if h in w.shelf.originals then [Commit(pid)]
                         else if inserts then [InsertRow(pid), Commit(pid)] else [Fail(pid)]
    ensures var (files, rows) := (w.shelf.files, w.shelf.originals);
            Run(w, actions)
            == Some(w.(shelf := if h in rows || inserts then w.shelf.(files := files + {h}, originals := rows + {h})
                                else w.shelf.(files := files - {h})))
  {
    hide Run;
    var work, existing, created := Original(h), h in w.shelf.originals, h !in w.shelf.files;
    var stored := w.(shelf := w.shelf.(files := w.shelf.files + {h}));
    var w4 := With(stored, pid, Published(work, existing, created));
    actions := OriginalBegins(w, pid, work);
    var w3 := With(w, pid, LookedUp(work, existing));
    assert w3.procs[pid := Published(work, existing, created)] == w4.procs && w4.procs - {pid} == w.procs;
    actions := Then(w, actions, w3, Publish(pid), w4);
    if existing {
      assert w.shelf.originals + {h} == w.shelf.originals;
      actions := Then(w, actions, w4, Commit(pid), stored);
    } else if inserts {
      actions := OriginalLands(w, actions, pid, work, created);
    } else {
      assert stored.shelf.files - {h} == w.shelf.files - {h};
      actions := Then(w, actions, w4, Fail(pid), w.(shelf := w.shelf.(files := w.shelf.files - {h})));
    }
  }

  lemma OriginalBegins(w: World, pid: Pid, work: Work) returns (actions: seq<Action>)
    requires pid !in w.procs && LockFree(w, work.hash) && work.Original?
    ensures actions == [Start(pid, work), Lock(pid), LookUp(pid)]
    ensures Run(w, actions) == Some(With(w, pid, LookedUp(work, work.hash in w.shelf.originals)))
  {
    hide Run;
    var w1, w2 := With(w, pid, Waiting(work)), With(w, pid, Holding(work));
    var w3 := With(w, pid, LookedUp(work, work.hash in w.shelf.originals));
    Nothing(w);
    actions := Then(w, [], w, Start(pid, work), w1);
    assert w1.procs[pid := Holding(work)] == w2.procs && w2.procs[pid := w3.procs[pid]] == w3.procs;
    actions := Then(w, actions, w1, Lock(pid), w2);
    actions := Then(w, actions, w2, LookUp(pid), w3);
  }

  lemma OriginalLands(w: World, actions: seq<Action>, pid: Pid, work: Work, created: bool)
    returns (longer: seq<Action>)
    requires pid !in w.procs && work.Original? && work.hash !in w.shelf.originals
    requires Run(w, actions) == Some(With(w.(shelf := w.shelf.(files := w.shelf.files + {work.hash})), pid,
        Published(work, false, created)))
    ensures longer == actions + [InsertRow(pid), Commit(pid)]
    ensures Run(w, longer) == Some(w.(shelf := w.shelf.(files := w.shelf.files + {work.hash},
                                                        originals := w.shelf.originals + {work.hash})))
  {
    hide Run;
    var stored := w.(shelf := w.shelf.(files := w.shelf.files + {work.hash}));
    var w4, w5 := With(stored, pid, Published(work, false, created)), With(stored, pid, Inserted(work, created));
    assert w4.procs[pid := Inserted(work, created)] == w5.procs && w5.procs - {pid} == w.procs;
    longer := Then(w, actions, w4, InsertRow(pid), w5);
    longer := Then(w, longer, w5, Commit(pid),
                   w.(shelf := stored.shelf.(originals := w.shelf.originals + {work.hash})));
  }

  /** A publisher without the lock ends with its file and its original. */
  lemma ImportTurn(w: World, pid: Pid, h: Hash) returns (actions: seq<Action>)
    requires pid !in w.procs
    ensures actions == [Start(pid, Import(h)), Publish(pid), Commit(pid)]
    ensures Run(w, actions)
         == Some(w.(shelf := w.shelf.(files := w.shelf.files + {h}, originals := w.shelf.originals + {h})))
  {
    hide Run;
    var work, created := Import(h), h !in w.shelf.files;
    var stored := w.(shelf := w.shelf.(files := w.shelf.files + {h}));
    var w1, w2 := With(w, pid, Waiting(work)), With(stored, pid, Published(work, false, created));
    Nothing(w);
    actions := Then(w, [], w, Start(pid, work), w1);
    assert w1.procs[pid := Published(work, false, created)] == w2.procs && w2.procs - {pid} == w.procs;
    actions := Then(w, actions, w1, Publish(pid), w2);
    actions := Then(w, actions, w2, Commit(pid),
                    w.(shelf := stored.shelf.(originals := w.shelf.originals + {h})));
  }
}
