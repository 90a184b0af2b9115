/** What automatic updates take away: with two sign children, the artifact a
    refresh records need not be the one its install job put on the device. */
module RefreshMismatch {
  import opened Prelude
  import opened JobRows
  import opened JobRuns
  import opened DeviceRefresh
  import opened RefreshProtocol
  import opened RefreshSafety
  import opened RefreshTheorems
  import opened RefreshRecovery

  /** Ensure-install settles on an install job for the awaited artifact exactly if
      the refresh's newest sign child is one that produced it. */
  lemma InstallMatchesNewest(sys: System, t: Timed, p: Party)
    requires Inv(sys, p) && CanHappen(sys, t, p) && t.action.EnsureInstall? && NextOrch(sys, t, p).Claiming?
    ensures SignChildren(sys.db, sys.orch.r) != {}
    ensures InstallOf(Next(sys, t, p).db, sys.orch.r, NextOrch(sys, t, p).install, sys.orch.g)
            <==> SignedBy(sys.db, sys.orch.r, NewestSign(sys.db, sys.orch.r), sys.orch.g)
  {
    hide Proper, AllEarned, LoadContext, Apply, Transactions, InstallChosen;
    EnsuredInstall(sys, t, p);
    NewestIsSigned(sys.db, sys.orch.r, t.action.env, sys.signed, p);
  }

  // -------------------------------------------- what completed jobs installed

  /** Every completed install child of a refresh put something on the device; if a
      poll loop ran it, the artifact it names. */
  ghost predicate Accounted(sys: System) {
    && (forall i :: i in sys.db.jobs && sys.db.jobs[i].key.RefreshInstallKey? && sys.db.jobs[i].state == Completed ==>
          i in sys.installed)
    && (forall i :: i in sys.installed ==> i < sys.db.nextId)
    && (forall i :: i in sys.installed && i in sys.db.jobs && sys.installed[i].Named? ==>
          sys.db.jobs[i].params.signedArtifact == Some(sys.installed[i].signed))
  }

  lemma OneTransaction(sys: System, t: Timed, p: Party)
    ensures var events := Transactions(sys, t, p);
            && |events| <= 1
            && Next(sys, t, p).db == if events == [] then sys.db else Step(sys.db, At(t.now, events[0]), p.cfg)
  {
    hide LoadContext, ResolveSigned, Step;
    var events := Transactions(sys, t, p);
    if events != [] {
      assert events == [events[0]];
      ApplyIsStep(sys.db, t.now, events[0], p.cfg);
    }
  }

  /** Only an accepted report completes a row. */
  lemma HowRowsComplete(db: Db, s: Stamped, cfg: Config, i: JobId)
    requires WellFormed(db) && Enabled(db, s)
    requires i in Step(db, s, cfg).jobs && Step(db, s, cfg).jobs[i].state == Completed
    ensures i in db.jobs
    ensures db.jobs[i].state == Completed
            || (s.event.Updates? && s.event.id == i && s.event.req.state == Known(Completed)
                && Refusal(db, s.event.agent, i, s.event.req).None?)
  {
    hide Step;
    if i in db.jobs { RowStep(db, s, cfg, i); } else { NewRowStep(db, s, cfg, i); }
  }

  /** A completed job's entry is final. */
  lemma EntryIsFinal(sys: System, t: Timed, p: Party, i: JobId)
    requires i in sys.db.jobs && sys.db.jobs[i].state == Completed && i in sys.installed
    ensures i in NextInstalled(sys, t, p) && NextInstalled(sys, t, p)[i] == sys.installed[i]
  {
  }

  lemma CompletedIsEntered(sys: System, t: Timed, p: Party, i: JobId)
    requires Inv(sys, p) && Accounted(sys) && CanHappen(sys, t, p)
    requires var after := Next(sys, t, p).db;
             i in after.jobs && after.jobs[i].key.RefreshInstallKey? && after.jobs[i].state == Completed
    ensures i in NextInstalled(sys, t, p)
  {
    hide Step, WellFormed, AllEarned, Transactions, ProperSign, ProperHolder, InstallChosen;
    OneTransaction(sys, t, p);
    var events := Transactions(sys, t, p);
    if events != [] {
      var s := At(t.now, events[0]);
      assert Enabled(sys.db, s) by { TransactionsAreEnabled(sys, t, p); }
      HowRowsComplete(sys.db, s, p.cfg, i);
      RowKeeps(sys.db, s, p.cfg, i);
      if sys.db.jobs[i].state != Completed {
        assert ProperKey(sys.db, i);
        WhoCompletes(sys, t, p);
        if t.action.CompleteRefresh? { SignedForARefresh(sys.db, sys.orch.r, sys.orch.sign, sys.orch.g, p); }
      }
    }
  }

  lemma SoundRowsAreNewborn(db: Db, e: Event, p: Party)
    requires e.Creates? && Sound(db, e, p)
    ensures Newborn(e.row)
  {
  }

  lemma TransactionsAreEnabled(sys: System, t: Timed, p: Party)
    requires Proper(sys.db, p) && CanHappen(sys, t, p)
    ensures forall e :: e in Transactions(sys, t, p) ==> Enabled(sys.db, At(t.now, e))
  {
    if t.action.Upload? || t.action.RequestSign? || t.action.EnsureInstall? {
      WorkflowInsertsAreSound(sys, t, p);
      forall e | e in Transactions(sys, t, p)
        ensures Enabled(sys.db, At(t.now, e))
      {
        SoundRowsAreNewborn(sys.db, e, p);
      }
    }
  }

  /** The actions whose transaction may complete a row. */
  lemma WhoCompletes(sys: System, t: Timed, p: Party)
    requires CanHappen(sys, t, p) && Transactions(sys, t, p) != []
    ensures var e := Transactions(sys, t, p)[0];
            e.Updates? && e.req.state == Known(Completed) ==>
              match t.action
              case Queue(q) => e == q
              case Report(ok, why, expiry, _) => ok
                  && e == Updates(p.service, sys.orch.install, InstallReport(ok, why, expiry))
              case CompleteRefresh => e.id == sys.orch.r
              case _ => false
  {
    hide LoadContext, ResolveSigned;
  }

  lemma SignedForARefresh(db: Db, r: JobId, s: JobId, g: SignedId, p: Party)
    requires Proper(db, p) && SignedBy(db, r, s, g) && r in db.jobs
    ensures db.jobs[r].jobType == Refresh
  {
    hide WellFormed;
    assert ProperKey(db, s) && ProperSign(db, s, p);
  }

  lemma AccountedStep(sys: System, t: Timed, p: Party)
    requires Inv(sys, p) && Accounted(sys) && CanHappen(sys, t, p)
    ensures Accounted(Next(sys, t, p))
  {
    hide Inv, CanHappen, Transactions, Apply, NextOrch, Refusal;
    var after := Next(sys, t, p);
    NextKeepsInv(sys, t, p);
    forall i | i in after.db.jobs && after.db.jobs[i].key.RefreshInstallKey? && after.db.jobs[i].state == Completed
      ensures i in after.installed
    {
      CompletedIsEntered(sys, t, p, i);
    }
    forall i | i in after.installed && i !in sys.installed ensures i in sys.db.jobs { NewEntry(sys, t, p, i); }
    forall i | i in after.installed && i in after.db.jobs && after.installed[i].Named?
      ensures after.db.jobs[i].params.signedArtifact == Some(after.installed[i].signed)
    {
      NewEntry(sys, t, p, i);
    }
  }

  /** The orchestrator reports that it has run install job i, with the artifact g it
      awaited, and is believed. */
  predicate Runs(sys: System, t: Timed, p: Party, g: SignedId, i: JobId) {
    && t.action.Report? && t.action.ok && sys.orch.Installing? && sys.orch.g == g && sys.orch.install == i
    && Refusal(sys.db, p.service, i, InstallReport(true, t.action.why, t.action.expiry)).None?
  }

  lemma NewEntry(sys: System, t: Timed, p: Party, i: JobId)
    requires Inv(sys, p) && CanHappen(sys, t, p) && i in NextInstalled(sys, t, p)
    ensures (i in sys.installed && NextInstalled(sys, t, p)[i] == sys.installed[i])
            || (i in sys.db.jobs
                && (NextInstalled(sys, t, p)[i].Named? ==>
                      sys.db.jobs[i].params.signedArtifact == Some(NextInstalled(sys, t, p)[i].signed))
                && (NextInstalled(sys, t, p)[i].Awaited? ==> Runs(sys, t, p, NextInstalled(sys, t, p)[i].signed, i)))
  {
    hide Proper, AllEarned, InstallChosen;
    if t.action.Report? { InstallIsNoRefresh(sys.db, sys.orch.r, sys.orch.install); }
  }

  // ------------------------------------------------------- over whole stories

  /** The orchestrator is on its way from ensure-install to the completion report. */
  predicate Holds(o: Orchestrator, r: JobId, s: JobId, g: SignedId, i: JobId) {
    (o.Claiming? || o.Installing? || o.Completing?) && o.r == r && o.sign == s && o.g == g && o.install == i
  }

  /** The orchestrator before step k. */
  function Mind(sys: System, story: Story, p: Party, k: nat): Orchestrator
    requires k < |story|
  {
    After(sys, story[..k], p).orch
  }

  /** Step e of the story is the ensure-install call that settled on install job i
      for refresh r, while the orchestrator awaited artifact g of sign job s. */
  ghost predicate AnsweredAt(sys: System, story: Story, p: Party, e: nat, r: JobId, s: JobId, g: SignedId, i: JobId)
    requires e < |story|
  {
    && story[e].action.EnsureInstall? && Mind(sys, story, p, e) == Signed(r, s, g)
    && NextOrch(After(sys, story[..e], p), story[e], p) == Claiming(r, s, g, i)
  }

  /** At that call, the refresh's newest sign child was one that produced g. */
  ghost predicate NewestWasAwaited(sys: System, story: Story, p: Party, e: nat, r: JobId, g: SignedId)
    requires e < |story|
  {
    var db := After(sys, story[..e], p).db;
    SignChildren(db, r) != {} && SignedBy(db, r, NewestSign(db, r), g)
  }

  /** Step c is an orchestrator's accepted report that it has run install job i
      itself, with artifact g. */
  ghost predicate RanAt(sys: System, story: Story, p: Party, c: nat, g: SignedId, i: JobId)
    requires c < |story|
  {
    Runs(After(sys, story[..c], p), story[c], p, g, i)
  }

  /** At step c the orchestrator was handed install job i completed already. */
  ghost predicate FoundDoneAt(sys: System, story: Story, p: Party, c: nat, i: JobId)
    requires c < |story|
  {
    && story[c].action.ClaimInstall? && Mind(sys, story, p, c).Claiming? && Mind(sys, story, p, c).install == i
    && var db := After(sys, story[..c], p).db; i in db.jobs && db.jobs[i].state == Completed
  }

  lemma HoldsComesFrom(sys: System, t: Timed, p: Party, r: JobId, s: JobId, g: SignedId, i: JobId)
    requires CanHappen(sys, t, p) && Holds(NextOrch(sys, t, p), r, s, g, i)
    ensures if t.action.EnsureInstall? then sys.orch == Signed(r, s, g) && NextOrch(sys, t, p) == Claiming(r, s, g, i)
            else Holds(sys.orch, r, s, g, i)
  {
    hide Refusal, LoadContext, ResolveSigned, SignChild, Insert, ClaimOne;
  }

  /** An install row's artifact never changes. */
  lemma InstallOfStays(db: Db, after: Db, r: JobId, i: JobId, g: SignedId)
    requires Persists(db, after) && InstallChosen(db, r, i)
    ensures InstallOf(after, r, i, g) <==> InstallOf(db, r, i, g)
  {
    hide SignedBy;
    var s', g' :| SignedBy(db, r, s', g') && InstallOf(db, r, i, g');
  }

  lemma HeldIsChosen(sys: System, p: Party, r: JobId, s: JobId, g: SignedId, i: JobId)
    requires Inv(sys, p) && Holds(sys.orch, r, s, g, i)
    ensures InstallChosen(sys.db, r, i)
  {
  }

  lemma {:induction false} HeldWasAnswered(sys: System, story: Story, p: Party, r: JobId, s: JobId, g: SignedId,
                                           i: JobId)
    returns (e: nat)
    requires Inv(sys, p) && sys.orch == Idle && Possible(sys, story, p)
    requires Holds(After(sys, story, p).orch, r, s, g, i)
    ensures e < |story| && AnsweredAt(sys, story, p, e, r, s, g, i)
    ensures InstallOf(After(sys, story, p).db, r, i, g) <==> NewestWasAwaited(sys, story, p, e, r, g)
  {
    hide Inv, CanHappen, NextOrch, Holds, InstallOf, Transactions, Apply, SignedBy, Persists;
    assert story != [] by { IdleHoldsNothing(r, s, g, i); }
    var front, last := story[..|story| - 1], story[|story| - 1];
    var before := After(sys, front, p);
    StoryKeepsInv(sys, front, p);
    HoldsComesFrom(before, last, p, r, s, g, i);
    if last.action.EnsureInstall? {
      e := |story| - 1;
      InstallMatchesNewest(before, last, p);
    } else {
      e := HeldWasAnswered(sys, front, p, r, s, g, i);
      assert front[..e] == story[..e];
      NextKeepsInv(before, last, p);
      HeldIsChosen(before, p, r, s, g, i);
      InstallOfStays(before.db, After(sys, story, p).db, r, i, g);
    }
  }

  lemma IdleHoldsNothing(r: JobId, s: JobId, g: SignedId, i: JobId)
    ensures !Holds(Idle, r, s, g, i)
  {
  }

  lemma {:induction false} StoryAccounts(sys: System, story: Story, p: Party)
    requires Inv(sys, p) && Accounted(sys) && Possible(sys, story, p)
    ensures Accounted(After(sys, story, p))
  {
    hide Inv, CanHappen, Next, Accounted;
    if story != [] {
      var front, last := story[..|story| - 1], story[|story| - 1];
      StoryAccounts(sys, front, p);
      StoryKeepsInv(sys, front, p);
      AccountedStep(After(sys, front, p), last, p);
    }
  }

  /** How a step leads to, or leaves, a pending completion report. */
  lemma EndsHow(sys: System, t: Timed, p: Party, r: JobId, s: JobId, g: SignedId, i: JobId)
    requires Inv(sys, p) && Accounted(sys) && CanHappen(sys, t, p)
    requires NextOrch(sys, t, p).Completing? && Holds(NextOrch(sys, t, p), r, s, g, i)
    ensures i in NextInstalled(sys, t, p)
    ensures if t.action.Report? then
              Runs(sys, t, p, g, i) && NextInstalled(sys, t, p)[i] == Awaited(g)
            else
              && i in sys.db.jobs && sys.db.jobs[i].state == Completed
              && i in sys.installed && NextInstalled(sys, t, p)[i] == sys.installed[i]
              && (if t.action.ClaimInstall? then sys.orch == Claiming(r, s, g, i)
                  else sys.orch.Completing? && Holds(sys.orch, r, s, g, i))
  {
    hide Proper, AllEarned, Accounted, Refusal, LoadContext, ResolveSigned, SignChild, Insert, InstallOf, SignedBy;
    if !t.action.Report? {
      HoldsComesFrom(sys, t, p, r, s, g, i);
      ChildIsEntered(sys, p, r, s, g, i);
      EntryIsFinal(sys, t, p, i);
    }
  }

  lemma ChildIsEntered(sys: System, p: Party, r: JobId, s: JobId, g: SignedId, i: JobId)
    requires Inv(sys, p) && Accounted(sys) && Holds(sys.orch, r, s, g, i)
    ensures i in sys.db.jobs && sys.db.jobs[i].key.RefreshInstallKey?
    ensures sys.db.jobs[i].state == Completed ==> i in sys.installed
  {
    hide Proper, AllEarned;
    var s', g' :| SignedBy(sys.db, r, s', g') && InstallOf(sys.db, r, i, g');
  }

  /** A pending completion report follows a run of the job by this orchestrator, or
      the job's being completed when it was claimed. */
  lemma {:induction false} HowItEnded(sys: System, story: Story, p: Party, r: JobId, s: JobId, g: SignedId, i: JobId)
    returns (c: nat)
    requires Inv(sys, p) && Accounted(sys) && sys.orch == Idle && Possible(sys, story, p)
    requires After(sys, story, p).orch.Completing? && Holds(After(sys, story, p).orch, r, s, g, i)
    ensures c < |story| && i in After(sys, story, p).installed
    ensures || (RanAt(sys, story, p, c, g, i) && After(sys, story, p).installed[i] == Awaited(g))
            || (FoundDoneAt(sys, story, p, c, i) && i in After(sys, story[..c], p).installed
                && After(sys, story, p).installed[i] == After(sys, story[..c], p).installed[i])
  {
    hide Inv, CanHappen, NextOrch, Transactions, Apply, Accounted, NextInstalled;
    assert story != [] by { IdleHoldsNothing(r, s, g, i); }
    var front, last := story[..|story| - 1], story[|story| - 1];
    var before := After(sys, front, p);
    StoryKeepsInv(sys, front, p);
    StoryAccounts(sys, front, p);
    EndsHow(before, last, p, r, s, g, i);
    if last.action.Report? || last.action.ClaimInstall? {
      c := |story| - 1;
    } else {
      c := HowItEnded(sys, front, p, r, s, g, i);
      assert front[..c] == story[..c];
    }
  }

  /** What an orchestrator is said to have put on the device, one had run. */
  lemma {:induction false} AwaitedWasRun(sys: System, story: Story, p: Party, i: JobId) returns (d: nat)
    requires Inv(sys, p) && Possible(sys, story, p) && i !in sys.installed
    requires i in After(sys, story, p).installed && After(sys, story, p).installed[i].Awaited?
    ensures d < |story| && RanAt(sys, story, p, d, After(sys, story, p).installed[i].signed, i)
  {
    hide Inv, CanHappen, NextOrch, Transactions, Apply, NextInstalled;
    var front, last := story[..|story| - 1], story[|story| - 1];
    var before := After(sys, front, p);
    StoryKeepsInv(sys, front, p);
    NewEntry(before, last, p, i);
    if i in before.installed && After(sys, story, p).installed[i] == before.installed[i] {
      d := AwaitedWasRun(sys, front, p, i);
      assert front[..d] == story[..d];
    } else {
      d := |story| - 1;
    }
  }

  /** What the completion of refresh r records against what its install job put on
      the device, with automatic updates or not. If the orchestrator ran the job
      itself, they are the same artifact. If it found the job completed by a poll
      loop, they are the same if and only if, at the ensure-install call, the
      refresh's newest sign child was one that produced the awaited artifact. If it
      found it completed by an earlier attempt, they are the same if and only if
      that attempt had awaited the same artifact. */
  lemma RecordedIsInstalledExactly(sys: System, story: Story, t: Timed, p: Party, r: JobId)
    returns (e: nat, c: nat, d: nat)
    requires Inv(sys, p) && Accounted(sys) && sys.orch == Idle
    requires Possible(sys, story, p) && CanHappen(After(sys, story, p), t, p)
    requires var db := After(sys, story, p).db;
             r in db.jobs && db.jobs[r].jobType == Refresh && db.jobs[r].state != Completed
    requires var after := Next(After(sys, story, p), t, p).db;
             r in after.jobs && after.jobs[r].jobType == Refresh && after.jobs[r].state == Completed
    ensures After(sys, story, p).orch.Completing?
    ensures var o, after := After(sys, story, p).orch, Next(After(sys, story, p), t, p);
            && o.r == r && e < |story| && AnsweredAt(sys, story, p, e, r, o.sign, o.g, o.install)
            && after.db.jobs[r].result.Reported? && after.db.jobs[r].result.signedArtifact == Some(o.g)
            && after.db.jobs[r].result.installJob == Some(o.install) && o.install in after.installed
    ensures var o, put := After(sys, story, p).orch, Next(After(sys, story, p), t, p).installed;
            c < |story|
            && if RanAt(sys, story, p, c, o.g, o.install) then put[o.install].signed == o.g
               else
                 && FoundDoneAt(sys, story, p, c, o.install)
                 && match put[o.install]
                    case Named(g) => g == o.g <==> NewestWasAwaited(sys, story, p, e, r, o.g)
                    case Awaited(g) =>
                      o.install in sys.installed
                      || (d < |story| && RanAt(sys, story, p, d, g, o.install)
                          && (g == o.g <==> Mind(sys, story, p, d).g == o.g))
  {
    hide Inv, CanHappen, Next, InstallOf, NewestWasAwaited, AnsweredAt, After, Possible, SignedBy, InstallChosen,
        Accounted,
      RanAt, FoundDoneAt;
    var end := After(sys, story, p);
    StoryKeepsInv(sys, story, p);
    StoryAccounts(sys, story, p);
    CompletionRecordsTheInstall(end, t, p, r);
    var o := end.orch;
    assert Holds(o, r, o.sign, o.g, o.install);
    e := HeldWasAnswered(sys, story, p, r, o.sign, o.g, o.install);
    c := HowItEnded(sys, story, p, r, o.sign, o.g, o.install);
    if RanAt(sys, story, p, c, o.g, o.install) { RanAtMeans(sys, story, p, c, o.g, o.install); }
    ReportWritesNoEntry(end, t, p, r);
    NamedIsItsArtifact(end, p, r, o.sign, o.g, o.install);
    if end.installed[o.install].Awaited? && o.install !in sys.installed {
      d := AwaitedWasRun(sys, story, p, o.install);
      RanAtMeans(sys, story, p, d, end.installed[o.install].signed, o.install);
    } else {
      d := 0;
    }
  }

  lemma RanAtMeans(sys: System, story: Story, p: Party, c: nat, g: SignedId, i: JobId)
    requires c < |story| && RanAt(sys, story, p, c, g, i)
    ensures Mind(sys, story, p, c).Installing? && Mind(sys, story, p, c).g == g
    ensures !FoundDoneAt(sys, story, p, c, i)
  {
    hide After;
  }

  lemma ReportWritesNoEntry(sys: System, t: Timed, p: Party, r: JobId)
    requires Inv(sys, p) && CanHappen(sys, t, p) && sys.orch.Completing?
    requires r in sys.db.jobs && sys.db.jobs[r].state != Completed && sys.db.jobs[r].jobType == Refresh
    requires r in Next(sys, t, p).db.jobs && Next(sys, t, p).db.jobs[r].state == Completed
    requires Next(sys, t, p).db.jobs[r].jobType == Refresh
    ensures Next(sys, t, p).installed == sys.installed
  {
    hide Proper, AllEarned, Knows, Transactions, Apply, NextOrch;
    if !t.action.CompleteRefresh? {
      TablesKept(sys, t, p);
      assert false;
    }
  }

  lemma NamedIsItsArtifact(sys: System, p: Party, r: JobId, s: JobId, g: SignedId, i: JobId)
    requires Inv(sys, p) && Accounted(sys) && Holds(sys.orch, r, s, g, i) && i in sys.installed
    ensures sys.installed[i].Named? ==> (sys.installed[i].signed == g <==> InstallOf(sys.db, r, i, g))
  {
    hide Proper, AllEarned;
    var s', g' :| SignedBy(sys.db, r, s', g') && InstallOf(sys.db, r, i, g');
  }

}
