/** Retention read off a run alone: which removals and which publications without
    the lock must not cross for every live row to keep its file. */
module CrossedRuns {
  import opened Prelude
  import opened ContentStore
  import opened BlobSafety
  import opened UnlockedPublishers

  lemma MeetsAll(w: World, actions: seq<Action>, k: nat)
    requires Run(w, actions).Some? && k <= |actions|
    ensures Met(w, actions, k).Some?
    ensures k < |actions| ==>
      Enabled(Met(w, actions, k).value, actions[k])
          && Met(w, actions, k + 1) == Some(Next(Met(w, actions, k).value, actions[k]))
  {
    if k < |actions| { RunFront(w, actions, k); } else { assert actions[..k] == actions; }
  }

  /** The world that step k meets. */
  function State(w: World, actions: seq<Action>, k: nat): World
    requires Run(w, actions).Some? && k <= |actions|
  {
    MeetsAll(w, actions, k);
    Met(w, actions, k).value
  }

  lemma StateStep(w: World, actions: seq<Action>, k: nat)
    requires Run(w, actions).Some? && k < |actions|
    ensures Enabled(State(w, actions, k), actions[k])
    ensures State(w, actions, k + 1) == Next(State(w, actions, k), actions[k])
  {
    hide Enabled, Next, Run;
    MeetsAll(w, actions, k);
    MeetsAll(w, actions, k + 1);
  }

  // ------------------------------------------------------------- the spans

  predicate NotBy(a: Action, q: Pid) { a.Tick? || a.pid != q }

  /** q published at step p and commits at step c, with no step of its own between. */
  ghost predicate Span(actions: seq<Action>, p: nat, c: nat, q: Pid) {
    && p < c < |actions| && actions[p] == Publish(q) && actions[c] == Commit(q)
    && forall k :: p < k < c ==> NotBy(actions[k], q)
  }

  /** q judged at step d what it removes at step m: a prune turn when it counted the
      rows that would be left, an upload when it found its file to be new. */
  ghost predicate Judges(actions: seq<Action>, d: nat, m: nat, q: Pid) {
    && d < m < |actions|
    && ((actions[m] == RemoveFile(q) && actions[d] == DeleteRows(q))
        || (actions[m] == Fail(q) && actions[d] == Publish(q)))
    && forall k :: d < k < m ==> NotBy(actions[k], q) || actions[k] == InsertRow(q)
  }

  predicate Removes(w: World, a: Action)
    requires Enabled(w, a)
  {
    a.RemoveFile? || (a.Fail? && w.procs[a.pid].created)
  }

  /** No removal of the published file falls, unrepaired, between an unlocked
      publication and its commit at step m; no unlocked publisher commits between a
      judgement and the removal at step m it led to; and a failed insert at step m
      that removes a file the upload had not created removes one nobody needs. */
  ghost predicate UncrossedAt(w: World, actions: seq<Action>, m: nat)
    requires Run(w, actions).Some? && m < |actions|
  {
    StateStep(w, actions, m);
    var here, a := State(w, actions, m), actions[m];
    && (a.Commit? && here.procs[a.pid].work.Import? ==>
          forall p: nat :: Span(actions, p, m, a.pid) ==> !GoneSince(w, actions, p, m, here.procs[a.pid].work.hash))
    && (Removes(here, a) ==>
          forall d: nat :: Judges(actions, d, m, a.pid) ==>
              !ImportedSince(w, actions, d + 1, m, here.procs[a.pid].work.hash))
    && (!Orderly(here, a) ==> !Live(here, here.procs[a.pid].work.hash))
  }

  ghost predicate HarmlessAt(w: World, actions: seq<Action>, m: nat)
    requires Run(w, actions).Some? && m < |actions|
  {
    StateStep(w, actions, m);
    Harmless(State(w, actions, m), actions[m])
  }

  // --------------------------------------------------- where a state came from

  lemma StartsEmpty(w: World, actions: seq<Action>)
    requires Run(w, actions).Some?
    ensures State(w, actions, 0) == w
  {
    assert actions[..0] == [];
  }

  /** A published process was published by a step of the run, if the run began at rest. */
  lemma {:induction false} PublishedBy(w: World, actions: seq<Action>, k: nat, q: Pid) returns (p: nat)
    requires Run(w, actions).Some? && k <= |actions| && w.procs == map[]
    requires q in State(w, actions, k).procs && State(w, actions, k).procs[q].Published?
    ensures p < k && actions[p] == Publish(q) && forall j :: p < j < k ==> NotBy(actions[j], q)
  {
    hide Run, State;
    if k == 0 { StartsEmpty(w, actions); }
    StateStep(w, actions, k - 1);
    if NotBy(actions[k - 1], q) {
      p := PublishedBy(w, actions, k - 1, q);
    } else {
      p := k - 1;
    }
  }

  /** So was one that has gone on to insert its row, */
  lemma {:induction false} InsertedBy(w: World, actions: seq<Action>, k: nat, q: Pid) returns (p: nat)
    requires Run(w, actions).Some? && k <= |actions| && w.procs == map[]
    requires q in State(w, actions, k).procs && State(w, actions, k).procs[q].Inserted?
    ensures p < k && actions[p] == Publish(q) && forall j :: p < j < k ==>
        NotBy(actions[j], q) || actions[j] == InsertRow(q)
  {
    hide Run, State;
    if k == 0 { StartsEmpty(w, actions); }
    StateStep(w, actions, k - 1);
    if NotBy(actions[k - 1], q) {
      p := InsertedBy(w, actions, k - 1, q);
    } else {
      p := PublishedBy(w, actions, k - 1, q);
    }
  }

  /** and a prune turn that has deleted rows did so at a step of the run. */
  lemma {:induction false} DeletedBy(w: World, actions: seq<Action>, k: nat, q: Pid) returns (d: nat)
    requires Run(w, actions).Some? && k <= |actions| && w.procs == map[]
    requires q in State(w, actions, k).procs && State(w, actions, k).procs[q].Deleted?
    ensures d < k && actions[d] == DeleteRows(q) && forall j :: d < j < k ==> NotBy(actions[j], q)
  {
    hide Run, State;
    if k == 0 { StartsEmpty(w, actions); }
    StateStep(w, actions, k - 1);
    if NotBy(actions[k - 1], q) {
      d := DeletedBy(w, actions, k - 1, q);
    } else {
      d := k - 1;
    }
  }

  /** Every removal was judged, every import was published. */
  lemma JudgedBefore(w: World, actions: seq<Action>, m: nat) returns (d: nat)
    requires Run(w, actions).Some? && m < |actions| && w.procs == map[]
    requires actions[m].RemoveFile? || actions[m].Fail?
    ensures Judges(actions, d, m, actions[m].pid)
  {
    hide Run, State;
    StateStep(w, actions, m);
    var q := actions[m].pid;
    if actions[m].RemoveFile? {
      d := DeletedBy(w, actions, m, q);
    } else if State(w, actions, m).procs[q].Published? {
      d := PublishedBy(w, actions, m, q);
    } else {
      d := InsertedBy(w, actions, m, q);
    }
  }

  // ----------------------------------------------------- back from the removal

  /** What q is between its judgement and its removal. */
  ghost predicate Keeps(p: Proc, end: Proc) {
    && p.work == end.work && Locked(p)
    && match end
       case Deleted(_, _, _) => p == end
       case Published(_, _, _) => p == end
       case Inserted(_, created) => (p.Published? || p.Inserted?) && p.created == created
       case _ => false
  }

  lemma RemoverIsLocked(w: World, a: Action)
    requires Steady(w) && Enabled(w, a) && (a.RemoveFile? || a.Fail?)
    ensures Locked(w.procs[a.pid])
  {
    hide Exclusive, FreshRows;
  }

  lemma {:induction false} HeldBack(w: World, actions: seq<Action>, d: nat, k: nat, m: nat, q: Pid)
    requires Run(w, actions).Some? && d < k <= m < |actions| && Judges(actions, d, m, q)
    requires Steady(State(w, actions, m))
    ensures && q in State(w, actions, k).procs && q in State(w, actions, m).procs
            && Keeps(State(w, actions, k).procs[q], State(w, actions, m).procs[q])
    decreases m - k
  {
    hide Run, State, Steady;
    StateStep(w, actions, m);
    if k == m {
      RemoverIsLocked(State(w, actions, m), actions[m]);
    } else {
      HeldBack(w, actions, d, k + 1, m, q);
      StateStep(w, actions, k);
    }
  }

  /** At the judgement there was no original. */
  lemma JudgedUnlisted(w: World, actions: seq<Action>, d: nat, m: nat, q: Pid)
    requires Run(w, actions).Some? && m < |actions| && Judges(actions, d, m, q)
    requires Enabled(State(w, actions, m), actions[m]) && Removes(State(w, actions, m), actions[m])
    requires Safe(State(w, actions, d)) && Steady(State(w, actions, m))
    ensures q in State(w, actions, m).procs
    ensures State(w, actions, m).procs[q].work.hash !in State(w, actions, d + 1).shelf.originals
  {
    hide Run, State, Safe, Steady;
    HeldBack(w, actions, d, d + 1, m, q);
    StateStep(w, actions, d);
    var here := State(w, actions, d);
    if actions[d].Publish? && here.procs[q].work.hash in here.shelf.originals {
      ListedHasFile(here, here.procs[q].work.hash);
    }
  }

  lemma ListedHasFile(w: World, h: Hash)
    requires Safe(w) && h in w.shelf.originals
    ensures h in w.shelf.files
  {
    assert Live(w, h);
  }

  // ------------------------------------------------------------ step by step

  ghost predicate SteadySoFar(w: World, actions: seq<Action>, n: nat)
    requires Run(w, actions).Some? && n <= |actions|
  {
    forall k :: 0 <= k <= n ==> Safe(State(w, actions, k)) && Steady(State(w, actions, k))
  }

  lemma RemovalMeetsImport(w: World, actions: seq<Action>, d: nat, m: nat, q: Pid)
    requires Run(w, actions).Some? && m < |actions| && SteadySoFar(w, actions, m) && Judges(actions, d, m, q)
    requires Enabled(State(w, actions, m), actions[m]) && Removes(State(w, actions, m), actions[m])
    ensures q in State(w, actions, m).procs
    ensures var h := State(w, actions, m).procs[q].work.hash;
            h in State(w, actions, m).shelf.originals <==> ImportedSince(w, actions, d + 1, m, h)
  {
    hide Run, Safe, Steady, Enabled, Next, ImportedSince;
    assert Safe(State(w, actions, d)) && Steady(State(w, actions, m));
    JudgedUnlisted(w, actions, d, m, q);
    forall k | d + 1 <= k <= m
      ensures && Met(w, actions, k).Some? && Steady(Met(w, actions, k).value)
              && q in Met(w, actions, k).value.procs && Locked(Met(w, actions, k).value.procs[q])
              && Met(w, actions, k).value.procs[q].work.hash == State(w, actions, m).procs[q].work.hash
    {
      MeetsAll(w, actions, k);
      assert Steady(State(w, actions, k));
      HeldBack(w, actions, d, k, m, q);
    }
    Overtaken(w, actions, d + 1, m, q, State(w, actions, m).procs[q].work.hash);
  }

  lemma CommitMissesFile(w: World, actions: seq<Action>, p: nat, c: nat, q: Pid)
    requires Run(w, actions).Some? && c < |actions| && Span(actions, p, c, q)
    ensures q in State(w, actions, c).procs
    ensures var h := State(w, actions, c).procs[q].work.hash;
            h !in State(w, actions, c).shelf.files <==> GoneSince(w, actions, p, c, h)
  {
    hide Run, State, GoneSince;
    StillPublished(w, actions, p, c, c, q);
    var h := State(w, actions, c).procs[q].work.hash;
    assert PublishesAt(w, actions, p, h) by {
      StateIsMet(w, actions, p);
      StateStep(w, actions, p);
      StillPublished(w, actions, p, p + 1, c, q);
    }
    FileGone(w, actions, p, c, h);
    StateIsMet(w, actions, c);
  }

  lemma StateIsMet(w: World, actions: seq<Action>, k: nat)
    requires Run(w, actions).Some? && k <= |actions|
    ensures Met(w, actions, k) == Some(State(w, actions, k))
  {
    MeetsAll(w, actions, k);
  }

  /** Between its publication and its commit a publisher stays as it is. */
  lemma {:induction false} StillPublished(w: World, actions: seq<Action>, p: nat, k: nat, c: nat, q: Pid)
    requires Run(w, actions).Some? && p < k <= c < |actions| && Span(actions, p, c, q)
    ensures q in State(w, actions, k).procs && q in State(w, actions, c).procs
    ensures State(w, actions, k).procs[q] == State(w, actions, c).procs[q]
    decreases c - k
  {
    hide Run, State;
    StateStep(w, actions, c);
    if k < c {
      StillPublished(w, actions, p, k + 1, c, q);
      StateStep(w, actions, k);
    }
  }

  lemma DisorderlyRemoves(w: World, a: Action)
    requires Enabled(w, a) && !Orderly(w, a)
    ensures !Removes(w, a) && !a.Commit? && a.pid in w.procs
    ensures Harmless(w, a) <==> !Live(w, w.procs[a.pid].work.hash)
  {
    hide Live;
    assert Drops(w, a, w.procs[a.pid].work.hash);
  }

  /** A step that meets steady worlds up to it is harmless exactly if it is uncrossed. */
  lemma HarmlessIsUncrossed(w: World, actions: seq<Action>, m: nat)
    requires Run(w, actions).Some? && m < |actions| && w.procs == map[] && SteadySoFar(w, actions, m)
    ensures HarmlessAt(w, actions, m) <==> UncrossedAt(w, actions, m)
  {
    hide Run, State, Steady, Safe, GoneSince, ImportedSince, Judges, Span, Next, Live, Harmless, Orderly, Enabled;
    StateStep(w, actions, m);
    var here, a := State(w, actions, m), actions[m];
    assert Steady(here);
    if !Orderly(here, a) {
      DisorderlyRemoves(here, a);
    } else {
      HarmlessIsCareful(here, a);
      CarefulIsUncrossed(w, actions, m);
    }
  }

  lemma CarefulIsUncrossed(w: World, actions: seq<Action>, m: nat)
    requires Run(w, actions).Some? && m < |actions| && w.procs == map[] && SteadySoFar(w, actions, m)
    requires Enabled(State(w, actions, m), actions[m]) && Orderly(State(w, actions, m), actions[m])
    ensures Careful(State(w, actions, m), actions[m]) <==> UncrossedAt(w, actions, m)
  {
    hide Run, State, Steady, Safe, GoneSince, ImportedSince, SteadySoFar, Judges, Span, Next;
    StateStep(w, actions, m);
    var here, a := State(w, actions, m), actions[m];
    if a.Commit? && here.procs[a.pid].work.Import? {
      assert here.procs[a.pid].Published? by { ImportsArePublished(w, actions, m); }
      var p := PublishedBy(w, actions, m, a.pid);
      assert Span(actions, p, m, a.pid) by { SpanIs(actions, p, m, a.pid); }
      forall x: nat | Span(actions, x, m, a.pid)
        ensures here.procs[a.pid].work.hash !in here.shelf.files
            <==> GoneSince(w, actions, x, m, here.procs[a.pid].work.hash)
      {
        CommitMissesFile(w, actions, x, m, a.pid);
      }
    } else if Removes(here, a) {
      var d := JudgedBefore(w, actions, m);
      forall x: nat | Judges(actions, x, m, a.pid)
        ensures here.procs[a.pid].work.hash in here.shelf.originals
                <==> ImportedSince(w, actions, x + 1, m, here.procs[a.pid].work.hash)
      {
        RemovalMeetsImport(w, actions, x, m, a.pid);
      }
    }
  }

  lemma SpanIs(actions: seq<Action>, p: nat, c: nat, q: Pid)
    requires p < c < |actions| && actions[p] == Publish(q) && actions[c] == Commit(q)
    requires forall j :: p < j < c ==> NotBy(actions[j], q)
    ensures Span(actions, p, c, q)
  {
  }

  lemma ImportsArePublished(w: World, actions: seq<Action>, m: nat)
    requires Run(w, actions).Some? && m < |actions| && SteadySoFar(w, actions, m)
    requires actions[m].Commit? && actions[m].pid in State(w, actions, m).procs
    requires State(w, actions, m).procs[actions[m].pid].work.Import? && Enabled(State(w, actions, m), actions[m])
    ensures State(w, actions, m).procs[actions[m].pid].Published?
  {
    hide Run, State;
    assert Steady(State(w, actions, m));
  }

  lemma {:induction false} SoFar(w: World, actions: seq<Action>, n: nat)
    requires Run(w, actions).Some? && n <= |actions| && w.procs == map[] && Safe(w)
    ensures (forall k :: 0 <= k < n ==> HarmlessAt(w, actions, k))
        <==> (forall k :: 0 <= k < n ==> UncrossedAt(w, actions, k))
    ensures (forall k :: 0 <= k < n ==> HarmlessAt(w, actions, k)) ==> SteadySoFar(w, actions, n)
  {
    hide Run, State, Steady, Safe, UncrossedAt, Next, Enabled, Harmless;
    if n == 0 {
      StartsEmpty(w, actions);
      assert w == World(w.shelf, map[], w.now, w.retention);
      RestIsSteady(w.shelf, w.now, w.retention);
    } else {
      var last := n - 1;
      SoFar(w, actions, last);
      if forall k :: 0 <= k < last ==> HarmlessAt(w, actions, k) {
        HarmlessIsUncrossed(w, actions, last);
        if HarmlessAt(w, actions, last) {
          StateStep(w, actions, last);
          var here := State(w, actions, last);
          assert Safe(here) && Steady(here);
          SafeStep(here, actions[last]);
          SteadyStep(here, actions[last]);
        }
      }
    }
  }

  /** From rest on, every live row keeps its file throughout a run, whoever takes
      part in it, if and only if
      - no removal falls between an unlocked publication and its commit without the
        file being published again after it,
      - no unlocked publisher commits a hash between a judgement that nothing needs
        its file and the removal of the file it leads to, and
      - no upload whose insert fails removes a file it found there that a live row
        needs. */
  lemma SafeExactlyWhenUncrossed(w: World, actions: seq<Action>)
    requires Safe(w) && w.procs == map[] && Run(w, actions).Some?
    ensures AlwaysSafe(w, actions) <==> forall m :: 0 <= m < |actions| ==> UncrossedAt(w, actions, m)
  {
    hide Run, Safe, UncrossedAt, Harmless, Next, Enabled;
    SafeRun(w, actions);
    SoFar(w, actions, |actions|);
    forall k | 0 <= k < |actions|
      ensures Met(w, actions, k) == Some(State(w, actions, k)) && Enabled(State(w, actions, k), actions[k])
    {
      StateIsMet(w, actions, k);
      StateStep(w, actions, k);
    }
    if AlwaysHarmless(w, actions) {
      forall k | 0 <= k < |actions| ensures HarmlessAt(w, actions, k) { StateIsMet(w, actions, k); }
    }
    if forall k :: 0 <= k < |actions| ==> HarmlessAt(w, actions, k) {
      forall k | 0 <= k < |actions|
        ensures Harmless(State(w, actions, k), actions[k])
      {
        assert HarmlessAt(w, actions, k);
      }
    }
  }
}
