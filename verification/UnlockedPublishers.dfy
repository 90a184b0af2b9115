/** Retention with publishers that take no lock: exactly when a live row loses its file. */
module UnlockedPublishers {
  import opened Prelude
  import opened ContentStore
  import opened BlobSafety

  // ------------------------------------------------------------ one step

  /** The step removes the file of hash h. */
  predicate Drops(w: World, a: Action, h: Hash)
    requires Enabled(w, a)
  {
    match a
    case RemoveFile(pid) => w.procs[pid].work.hash == h
    case Fail(pid) => w.procs[pid].work.hash == h && (w.procs[pid].work.Original? || w.procs[pid].created)
    case _ => false
  }

  /** The step commits a row of hash h that is not past retention. */
  predicate Lands(w: World, a: Action, h: Hash)
    requires Enabled(w, a)
  {
    a.Commit?
    && match w.procs[a.pid]
       case Inserted(Original(x), _) => x == h
       case Inserted(Signed(x, row, expiry), _) => x == h && !Past(SignedRow(x, expiry), w.now - w.retention)
       case Published(Import(x), _, _) => x == h
       case _ => false
  }

  /** A file that goes has no live row, and a live row that comes has its file. */
  ghost predicate Harmless(w: World, a: Action)
    requires Enabled(w, a)
  {
    && (forall h :: Drops(w, a, h) ==> !Live(w, h))
    && (forall h :: Lands(w, a, h) ==> h in w.shelf.files)
  }

  /** What a step does to one hash. */
  lemma FilesAfter(w: World, a: Action, h: Hash)
    requires Enabled(w, a)
    ensures var after := Next(w, a);
            && (Drops(w, a, h) ==> h !in after.shelf.files)
            && (!Drops(w, a, h) && h in w.shelf.files ==> h in after.shelf.files)
            && (h in after.shelf.files ==> h in w.shelf.files || (a.Publish? && w.procs[a.pid].work.hash == h))
  {
  }

  lemma LiveAfter(w: World, a: Action, h: Hash)
    requires Enabled(w, a) && Live(Next(w, a), h)
    ensures Live(w, h) || Lands(w, a, h)
  {
    var after := Next(w, a);
    if h !in after.shelf.originals {
      var id :| id in after.shelf.signed && after.shelf.signed[id].hash == h
          && !Past(after.shelf.signed[id], after.now - after.retention);
      assert id in w.shelf.signed && w.shelf.signed[id] == after.shelf.signed[id] ==> Live(w, h);
    }
  }

  lemma LandedIsLive(w: World, a: Action, h: Hash)
    requires Enabled(w, a) && Lands(w, a, h)
    ensures Live(Next(w, a), h)
  {
    var p := w.procs[a.pid];
    if p.Inserted? && p.work.Signed? {
      assert p.work.row in Next(w, a).shelf.signed;
    }
  }

  lemma DroppedStaysLive(w: World, a: Action, h: Hash)
    requires Enabled(w, a) && Drops(w, a, h) && Live(w, h)
    ensures Live(Next(w, a), h)
  {
    SameRowsSameLife(w, Next(w, a), h);
  }

  /** From a safe world a step, of anyone and under no discipline at all, leads to a
      safe world if and only if it is harmless. */
  lemma SafeStep(w: World, a: Action)
    requires Safe(w) && Enabled(w, a)
    ensures Safe(Next(w, a)) <==> Harmless(w, a)
  {
    hide Enabled, Live, Drops, Lands, Next;
    if Harmless(w, a) {
      forall h | Live(Next(w, a), h) ensures h in Next(w, a).shelf.files {
        LiveAfter(w, a, h);
        FilesAfter(w, a, h);
        if Drops(w, a, h) { NeverBoth(w, a, h); }
      }
    } else if h :| Drops(w, a, h) && Live(w, h) {
      DroppedStaysLive(w, a, h);
      FilesAfter(w, a, h);
    } else {
      var h :| Lands(w, a, h) && h !in w.shelf.files;
      LandedIsLive(w, a, h);
      FilesAfter(w, a, h);
      assert a.Commit? by { NeverBoth(w, a, h); }
    }
  }

  lemma NeverBoth(w: World, a: Action, h: Hash)
    requires Enabled(w, a)
    ensures Lands(w, a, h) ==> a.Commit? && !Drops(w, a, h)
  {
  }

  // ------------------------------------------------------------ whole runs

  /** The world after k steps. */
  function Met(w: World, actions: seq<Action>, k: nat): Option<World>
    requires k <= |actions|
  {
    Run(w, actions[..k])
  }

  lemma {:induction false} RunFront(w: World, actions: seq<Action>, k: nat)
    requires k < |actions| && Run(w, actions).Some?
    ensures Met(w, actions, k).Some? && Enabled(Met(w, actions, k).value, actions[k])
    ensures Met(w, actions, k + 1) == Some(Next(Met(w, actions, k).value, actions[k]))
  {
    hide Enabled, Next;
    var n := |actions| - 1;
    if k == n {
      assert actions[..k + 1] == actions;
    } else {
      RunFront(w, actions[..n], k);
      assert actions[..n][..k] == actions[..k] && actions[..n][..k + 1] == actions[..k + 1];
    }
  }

  ghost predicate AlwaysSafe(w: World, actions: seq<Action>) {
    forall k :: 0 <= k <= |actions| && Met(w, actions, k).Some? ==> Safe(Met(w, actions, k).value)
  }

  ghost predicate AlwaysHarmless(w: World, actions: seq<Action>) {
    forall k :: 0 <= k < |actions| && Met(w, actions, k).Some? && Enabled(Met(w, actions, k).value, actions[k]) ==>
      Harmless(Met(w, actions, k).value, actions[k])
  }

  lemma {:induction false} SafeUpTo(w: World, actions: seq<Action>, k: nat)
    requires Safe(w) && Run(w, actions).Some? && AlwaysHarmless(w, actions) && k <= |actions|
    ensures Met(w, actions, k).Some? && Safe(Met(w, actions, k).value)
  {
    hide Safe, Harmless, Enabled, Next;
    if k > 0 {
      SafeUpTo(w, actions, k - 1);
      RunFront(w, actions, k - 1);
      SafeStep(Met(w, actions, k - 1).value, actions[k - 1]);
    } else {
      assert actions[..0] == [];
    }
  }

  /** Whoever publishes, with or without the lock: a run is safe throughout if and
      only if every step of it is harmless. */
  lemma SafeRun(w: World, actions: seq<Action>)
    requires Safe(w) && Run(w, actions).Some?
    ensures AlwaysSafe(w, actions) <==> AlwaysHarmless(w, actions)
  {
    hide Safe, Harmless, Enabled, Next, Run;
    if AlwaysHarmless(w, actions) {
      forall k | 0 <= k <= |actions|
        ensures Met(w, actions, k).Some? && Safe(Met(w, actions, k).value)
      {
        SafeUpTo(w, actions, k);
      }
    }
    if AlwaysSafe(w, actions) {
      forall k | 0 <= k < |actions| && Met(w, actions, k).Some? && Enabled(Met(w, actions, k).value, actions[k])
        ensures Harmless(Met(w, actions, k).value, actions[k])
      {
        RunFront(w, actions, k);
        assert Safe(Met(w, actions, k).value) && Safe(Met(w, actions, k + 1).value);
        SafeStep(Met(w, actions, k).value, actions[k]);
      }
    }
  }

  // ------------------------------------- lock-taking publishers next to imports

  /** No signed row of hash h is within retention. */
  ghost predicate NoSigned(w: World, h: Hash, cutoff: Time) {
    forall id :: RowIs(w, id, h) ==> Past(w.shelf.signed[id], cutoff)
  }

  /** What a lock-taking transaction can still rely on when others publish without
      the lock: signed rows and published files, but not the originals table. */
  ghost predicate Relies(w: World, p: Proc) {
    match p
    case Published(work, _, created) => work.hash in w.shelf.files
        && (created ==> NoSigned(w, work.hash, w.now - w.retention))
    case Inserted(work, created) => work.hash in w.shelf.files
        && (created ==> NoSigned(w, work.hash, w.now - w.retention))
    case Deleted(work, _, referenced) => work.Prune? && (!referenced ==> NoSigned(w, work.hash, work.cutoff))
    case Removed(work, _) => work.Prune?
    case _ => true
  }

  /** Imports go straight from their temp file to publication. */
  predicate ImportShape(p: Proc) { p.work.Import? ==> p.Waiting? || p.Published? }

  ghost predicate Steady(w: World) {
    && Exclusive(w) && FreshRows(w)
    && (forall p :: p in w.procs ==> ImportShape(w.procs[p]) && (!w.procs[p].work.Import? ==> Relies(w, w.procs[p])))
    && (forall p :: p in w.procs && w.procs[p].work.Prune? ==> w.procs[p].work.cutoff <= w.now - w.retention)
  }

  /** A failed insert of an original only ever follows a publication that created the file. */
  predicate Orderly(w: World, a: Action) {
    a.Fail? && a.pid in w.procs && w.procs[a.pid].Published? && w.procs[a.pid].work.Original? ==> w.procs[a.pid].created
  }

  /** What the lock cannot promise: a file that goes has no committed original, and
      an import that commits still finds its file. */
  predicate Careful(w: World, a: Action)
    requires Enabled(w, a)
  {
    && ((a.RemoveFile? || (a.Fail? && w.procs[a.pid].created)) ==> w.procs[a.pid].work.hash !in w.shelf.originals)
    && (a.Commit? && w.procs[a.pid].work.Import? ==> w.procs[a.pid].work.hash in w.shelf.files)
  }

  lemma NotLive(w: World, h: Hash, cutoff: Time)
    requires NoSigned(w, h, cutoff) && cutoff <= w.now - w.retention
    ensures Live(w, h) <==> h in w.shelf.originals
  {
    forall id | id in w.shelf.signed && w.shelf.signed[id].hash == h
      ensures Past(w.shelf.signed[id], w.now - w.retention)
    {
      assert RowIs(w, id, h);
    }
  }

  lemma HarmlessIsCareful(w: World, a: Action)
    requires Steady(w) && Enabled(w, a) && Orderly(w, a)
    ensures Harmless(w, a) <==> Careful(w, a)
  {
    hide Exclusive, FreshRows, Live, NoSigned;
    if a.RemoveFile? || (a.Fail? && w.procs[a.pid].created) {
      var p := w.procs[a.pid];
      NotLive(w, p.work.hash, if a.RemoveFile? then p.work.cutoff else w.now - w.retention);
      assert Drops(w, a, p.work.hash);
    }
    if a.Commit? && w.procs[a.pid].work.Import? { assert Lands(w, a, w.procs[a.pid].work.hash); }
  }

  /** Rows of hash h only go, and its file stays. */
  ghost predicate Eases(w: World, after: World, h: Hash) {
    && w.now <= after.now && w.retention == after.retention
    && (h in w.shelf.files ==> h in after.shelf.files)
    && (forall id :: RowIs(after, id, h) ==> RowIs(w, id, h) && after.shelf.signed[id] == w.shelf.signed[id])
  }

  lemma ReliesStays(w: World, after: World, p: Proc)
    requires Eases(w, after, p.work.hash) && Relies(w, p)
    ensures Relies(after, p)
  {
  }

  lemma OthersEase(w: World, a: Action, h: Hash)
    requires Steady(w) && Enabled(w, a)
    requires !a.Tick? && a.pid in w.procs && Locked(w.procs[a.pid]) ==> w.procs[a.pid].work.hash != h
    ensures Eases(w, Next(w, a), h)
  {
    hide Exclusive, NoSigned;
  }

  lemma ActorRelies(w: World, a: Action)
    requires Safe(w) && Steady(w) && Enabled(w, a) && !a.Tick? && a.pid in Next(w, a).procs
    ensures var p := Next(w, a).procs[a.pid]; ImportShape(p) && (!p.work.Import? ==> Relies(Next(w, a), p))
  {
    hide Exclusive, FreshRows;
    if a.Publish? && w.procs[a.pid].work.hash !in w.shelf.files {
      assert !Live(w, w.procs[a.pid].work.hash);
    } else if a.DeleteRows? {
      var work := w.procs[a.pid].work;
      var doomed := Doomed(w.shelf, work.hash, work.cutoff);
      if !Referenced(w.shelf.originals, w.shelf.signed - doomed, work.hash) {
        forall id | RowIs(w, id, work.hash) ensures Past(w.shelf.signed[id], work.cutoff) {
          assert id in doomed || id in w.shelf.signed - doomed;
        }
      }
    }
  }

  lemma LocksStay(w: World, a: Action)
    requires Steady(w) && Enabled(w, a)
    ensures Exclusive(Next(w, a)) && FreshRows(Next(w, a))
  {
    hide Relies, ImportShape;
  }

  lemma SteadyStep(w: World, a: Action)
    requires Safe(w) && Steady(w) && Enabled(w, a)
    ensures Steady(Next(w, a))
  {
    hide Exclusive, FreshRows, Relies, Safe, ImportShape;
    LocksStay(w, a);
    var after := Next(w, a);
    forall q | q in after.procs
      ensures ImportShape(after.procs[q]) && (!after.procs[q].work.Import? ==> Relies(after, after.procs[q]))
    {
      if !a.Tick? && q == a.pid {
        ActorRelies(w, a);
      } else if !after.procs[q].work.Import? {
        BystanderRelies(w, a, q);
      }
    }
  }

  lemma BystanderRelies(w: World, a: Action, q: Pid)
    requires Steady(w) && Enabled(w, a) && q in w.procs && (a.Tick? || q != a.pid) && !w.procs[q].work.Import?
    ensures Relies(Next(w, a), w.procs[q])
  {
    hide NoSigned;
    if !a.Tick? && a.pid in w.procs && Locked(w.procs[a.pid]) && w.procs[a.pid].work.hash == w.procs[q].work.hash {
      assert w.procs[q].Waiting?;
    } else {
      OthersEase(w, a, w.procs[q].work.hash);
      ReliesStays(w, Next(w, a), w.procs[q]);
    }
  }

  ghost predicate AllOrderly(w: World, actions: seq<Action>) {
    forall k :: 0 <= k < |actions| && Met(w, actions, k).Some? ==> Orderly(Met(w, actions, k).value, actions[k])
  }

  ghost predicate AlwaysCareful(w: World, actions: seq<Action>) {
    forall k :: 0 <= k < |actions| && Met(w, actions, k).Some? && Enabled(Met(w, actions, k).value, actions[k]) ==>
      Careful(Met(w, actions, k).value, actions[k])
  }

  lemma {:induction false} SteadyUpTo(w: World, actions: seq<Action>, k: nat)
    requires Steady(w) && Run(w, actions).Some? && AlwaysSafe(w, actions) && k <= |actions|
    ensures Met(w, actions, k).Some? && Steady(Met(w, actions, k).value)
  {
    hide Safe, Steady, Enabled, Next;
    if k > 0 {
      SteadyUpTo(w, actions, k - 1);
      RunFront(w, actions, k - 1);
      SteadyStep(Met(w, actions, k - 1).value, actions[k - 1]);
    } else {
      assert actions[..0] == [];
    }
  }

  lemma {:induction false} CarefulUpTo(w: World, actions: seq<Action>, k: nat)
    requires Safe(w) && Steady(w) && Run(w, actions).Some? && AllOrderly(w, actions) && AlwaysCareful(w, actions)
        && k <= |actions|
    ensures Met(w, actions, k).Some? && Safe(Met(w, actions, k).value) && Steady(Met(w, actions, k).value)
  {
    hide Safe, Steady, Enabled, Next, Harmless, Careful, Orderly;
    if k > 0 {
      CarefulUpTo(w, actions, k - 1);
      RunFront(w, actions, k - 1);
      var here := Met(w, actions, k - 1).value;
      assert Orderly(here, actions[k - 1]) && Careful(here, actions[k - 1]);
      HarmlessIsCareful(here, actions[k - 1]);
      SafeStep(here, actions[k - 1]);
      SteadyStep(here, actions[k - 1]);
    } else {
      assert actions[..0] == [];
    }
  }

  /** Uploads and prune turns that take the lock, next to publishers that do not:
      every live row keeps its file if and only if no removal meets a committed
      original of its hash and every unlocked publisher commits with its file there. */
  lemma ImportsAreSafeWhen(w: World, actions: seq<Action>)
    requires Safe(w) && Steady(w) && Run(w, actions).Some? && AllOrderly(w, actions)
    ensures AlwaysSafe(w, actions) <==> AlwaysCareful(w, actions)
  {
    hide Safe, Steady, Enabled, Next, Harmless, Careful, Orderly, Run;
    if AlwaysCareful(w, actions) {
      forall k | 0 <= k <= |actions| ensures Met(w, actions, k).Some? && Safe(Met(w, actions, k).value) {
        CarefulUpTo(w, actions, k);
      }
    }
    if AlwaysSafe(w, actions) {
      SafeRun(w, actions);
      forall k | 0 <= k < |actions| && Met(w, actions, k).Some? && Enabled(Met(w, actions, k).value, actions[k])
        ensures Careful(Met(w, actions, k).value, actions[k])
      {
        SteadyUpTo(w, actions, k);
        assert Harmless(Met(w, actions, k).value, actions[k]) && Orderly(Met(w, actions, k).value, actions[k]);
        HarmlessIsCareful(Met(w, actions, k).value, actions[k]);
      }
    }
  }

  /** A world at rest is a start for such a run. */
  lemma RestIsSteady(shelf: Shelf, now: Time, retention: int)
    ensures Steady(World(shelf, map[], now, retention))
  {
  }

  // ------------------------------------------------------- read off the run

  predicate DropsAt(w: World, actions: seq<Action>, m: nat, h: Hash)
    requires m < |actions|
  {
    Met(w, actions, m).Some? && Enabled(Met(w, actions, m).value, actions[m])
        && Drops(Met(w, actions, m).value, actions[m], h)
  }

  predicate PublishesAt(w: World, actions: seq<Action>, m: nat, h: Hash)
    requires m < |actions|
  {
    && Met(w, actions, m).Some? && Enabled(Met(w, actions, m).value, actions[m])
    && actions[m].Publish? && Met(w, actions, m).value.procs[actions[m].pid].work.hash == h
  }

  predicate ImportsAt(w: World, actions: seq<Action>, m: nat, h: Hash)
    requires m < |actions|
  {
    && Met(w, actions, m).Some? && Enabled(Met(w, actions, m).value, actions[m])
    && actions[m].Commit? && Met(w, actions, m).value.procs[actions[m].pid].work == Import(h)
  }

  /** Since step p the file of h was removed, and not published again before step c. */
  ghost predicate GoneSince(w: World, actions: seq<Action>, p: nat, c: nat, h: Hash)
    requires c <= |actions|
  {
    exists m :: p < m < c && DropsAt(w, actions, m, h) && forall n :: m < n < c ==> !PublishesAt(w, actions, n, h)
  }

  lemma GoneStep(w: World, actions: seq<Action>, p: nat, c: nat, h: Hash)
    requires p < c < |actions|
    ensures GoneSince(w, actions, p, c + 1, h) <==>
      DropsAt(w, actions, c, h) || (GoneSince(w, actions, p, c, h) && !PublishesAt(w, actions, c, h))
  {
    hide DropsAt, PublishesAt;
    if GoneSince(w, actions, p, c, h) && !PublishesAt(w, actions, c, h) {
      var m :| p < m < c && DropsAt(w, actions, m, h) && forall n :: m < n < c ==> !PublishesAt(w, actions, n, h);
      assert forall n :: m < n < c + 1 ==> !PublishesAt(w, actions, n, h);
    }
    if GoneSince(w, actions, p, c + 1, h) && !DropsAt(w, actions, c, h) {
      var m :| p < m < c + 1 && DropsAt(w, actions, m, h) && forall n :: m < n < c + 1 ==>
          !PublishesAt(w, actions, n, h);
      assert m < c;
    }
  }

  lemma FileStep(w: World, a: Action, h: Hash)
    requires Enabled(w, a)
    ensures h in Next(w, a).shelf.files <==>
      (a.Publish? && w.procs[a.pid].work.hash == h) || (h in w.shelf.files && !Drops(w, a, h))
  {
  }

  lemma DropsOrPublishes(w: World, actions: seq<Action>, m: nat, h: Hash)
    requires m < |actions|
    ensures !(DropsAt(w, actions, m, h) && PublishesAt(w, actions, m, h))
  {
  }

  /** A file published at step p is missing at step c if and only if a removal fell
      in between and no publication after it: so an unlocked publisher commits
      without its file exactly then. */
  lemma {:induction false} FileGone(w: World, actions: seq<Action>, p: nat, c: nat, h: Hash)
    requires Run(w, actions).Some? && p < c <= |actions| && PublishesAt(w, actions, p, h)
    ensures Met(w, actions, c).Some?
    ensures h !in Met(w, actions, c).value.shelf.files <==> GoneSince(w, actions, p, c, h)
    decreases c
  {
    hide Enabled, Next, Drops, Run;
    var last := c - 1;
    RunFront(w, actions, last);
    FileStep(Met(w, actions, last).value, actions[last], h);
    if p < last {
      FileGone(w, actions, p, last, h);
      GoneStep(w, actions, p, last, h);
      assert GoneSince(w, actions, p, c, h) <==>
        DropsAt(w, actions, last, h) || (GoneSince(w, actions, p, last, h) && !PublishesAt(w, actions, last, h));
      assert DropsAt(w, actions, last, h) ==> !PublishesAt(w, actions, last, h) by {
        DropsOrPublishes(w, actions, last, h);
      }
    }
  }

  /** An unlocked publisher committed h between steps d and m. */
  ghost predicate ImportedSince(w: World, actions: seq<Action>, d: nat, m: nat, h: Hash)
    requires m <= |actions|
  {
    exists c :: d <= c < m && ImportsAt(w, actions, c, h)
  }

  lemma ImportedStep(w: World, actions: seq<Action>, d: nat, m: nat, h: Hash)
    requires d <= m < |actions|
    ensures ImportedSince(w, actions, d, m + 1, h)
        <==> ImportedSince(w, actions, d, m, h) || ImportsAt(w, actions, m, h)
  {
    hide ImportsAt;
    if ImportedSince(w, actions, d, m, h) {
      var c :| d <= c < m && ImportsAt(w, actions, c, h);
      assert d <= c < m + 1;
    }
  }

  lemma OriginalsStep(w: World, a: Action, h: Hash, q: Pid)
    requires Steady(w) && Enabled(w, a)
    requires q in w.procs && Locked(w.procs[q]) && w.procs[q].work.hash == h && q in Next(w, a).procs
    ensures h in Next(w, a).shelf.originals <==>
      h in w.shelf.originals || (a.Commit? && w.procs[a.pid].work == Import(h))
  {
  }

  /** While a lock-taking transaction q goes on holding the hash, having found no
      original of it, one turns up if and only if an unlocked publisher commits one:
      so a removal meets a committed original exactly when it was overtaken. */
  lemma {:induction false} Overtaken(w: World, actions: seq<Action>, d: nat, m: nat, q: Pid, h: Hash)
    requires Run(w, actions).Some? && d <= m <= |actions|
    requires forall k :: d <= k <= m ==>
      && Met(w, actions, k).Some? && Steady(Met(w, actions, k).value)
      && q in Met(w, actions, k).value.procs
      && Locked(Met(w, actions, k).value.procs[q]) && Met(w, actions, k).value.procs[q].work.hash == h
    requires h !in Met(w, actions, d).value.shelf.originals
    ensures h in Met(w, actions, m).value.shelf.originals <==> ImportedSince(w, actions, d, m, h)
    decreases m
  {
    hide Enabled, Next, Steady, Run;
    if d < m {
      var last := m - 1;
      RunFront(w, actions, last);
      Overtaken(w, actions, d, last, q, h);
      OriginalsStep(Met(w, actions, last).value, actions[last], h, q);
      ImportedStep(w, actions, d, last, h);
    }
  }

  /** The removal need not fall between the import's publication and its commit: a
      prune turn that decided before the import and removes after it does as much. */
  lemma LateRemovalLosesFile() returns (start: World, actions: seq<Action>)
    ensures Safe(start) && Steady(start) && Run(start, actions).Some? && !Safe(Run(start, actions).value)
    ensures actions == [Start(0, Prune(7, 40)), Lock(0), DeleteRows(0), Start(1, Import(7)), Publish(1), Commit(1),
        RemoveFile(0)]
  {
    hide Run;
    var prune := Prune(7, 40);
    var p3, q2 := Deleted(prune, {0}, false), Published(Import(7), false, false);
    start, actions := PruneDecides(p3);
    RestIsSteady(EXPIRED, 50, 10);
    actions := Imported(start, actions, p3, q2);
    var listed := World(EXPIRED.(originals := {7}), map[0 := p3], 50, 10);
    assert map[0 := p3, 1 := q2] - {1} == map[0 := p3] && EXPIRED.originals + {7} == {7};
    actions := Then(start, actions, World(EXPIRED, map[0 := p3, 1 := q2], 50, 10), Commit(1), listed);
    var end := World(listed.shelf.(files := {}), map[0 := Removed(prune, {0})], 50, 10);
    assert EXPIRED.files - {7} == {} && map[0 := p3][0 := Removed(prune, {0})] == map[0 := Removed(prune, {0})];
    actions := Then(start, actions, listed, RemoveFile(0), end);
    assert Live(end, 7);
  }
}
