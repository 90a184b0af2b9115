/** The main results about the refresh workflow. */
module RefreshTheorems {
  import opened Prelude
  import opened JobRows
  import opened JobRuns
  import opened DeviceRefresh
  import opened RefreshProtocol
  import opened RefreshSafety

  /** An empty queue over any deployments satisfies the invariant. */
  lemma FreshStart(deployments: map<DeploymentId, Deployment>, records: map<DeploymentId, Installation>, p: Party)
    ensures Inv(System(Db(map[], map[], 0, deployments, records), {}, 0, Idle, {}, map[]), p)
  {
  }

  /** Without automatic updates a refresh has one sign child, whatever happens. */
  lemma SoleSignChild(db: Db, r: JobId, s: JobId, s': JobId, p: Party)
    requires Proper(db, p) && r in db.jobs && NoUpdates(db, r, p)
    requires SignKeyed(db, r, s) && SignKeyed(db, r, s')
    ensures s == s'
    ensures s in SignChildren(db, r)
  {
    assert ProperKey(db, s) && ProperKey(db, s') && ProperSign(db, s, p) && ProperSign(db, s', p);
    assert db.keys[db.jobs[s].key] == s && db.keys[db.jobs[s'].key] == s';
  }

  /** In every story, a refresh ends up completed only if its sign child is
      completed and the install child for that child's artifact is completed; its
      result names exactly those two. The sign child is its only one. */
  lemma RefreshCompletesOnlyInstalled(sys: System, story: Story, p: Party, r: JobId)
    returns (s: JobId, g: SignedId, i: JobId)
    requires Inv(sys, p) && Possible(sys, story, p)
    requires var db := After(sys, story, p).db;
             r in db.jobs && db.jobs[r].jobType == Refresh && db.jobs[r].state == Completed && NoUpdates(db, r, p)
    ensures var db := After(sys, story, p).db;
            && SignedBy(db, r, s, g)
            && InstallOf(db, r, i, g) && db.jobs[i].state == Completed
            && db.jobs[r].result.Reported?
            && db.jobs[r].result.signedArtifact == Some(g) && db.jobs[r].result.installJob == Some(i)
            && SignChildren(db, r) == {s}
  {
    hide Proper, CanHappen, After;
    StoryKeepsInv(sys, story, p);
    var db := After(sys, story, p).db;
    assert Earned(db, r);
    s, g, i :| EarnedBy(db, r, s, g, i);
    var s', g' :| SignedBy(db, r, s', g') && InstallOf(db, r, i, g');
    SoleSignChild(db, r, s, s', p);
    forall x | x in SignChildren(db, r) ensures x == s {
      ChildIsKeyed(db, r, x, p);
      SoleSignChild(db, r, s, x, p);
    }
  }

  lemma ChildIsKeyed(db: Db, r: JobId, s: JobId, p: Party)
    requires Proper(db, p) && s in SignChildren(db, r)
    ensures SignKeyed(db, r, s)
  {
    hide WellFormed;
    assert ProperSign(db, s, p);
  }

  /** The step that completes a refresh is the orchestrator's own report, and the
      same transaction makes that artifact and install job the deployment's
      recorded installation and moves its due date. */
  lemma CompletionRecordsTheInstall(sys: System, t: Timed, p: Party, r: JobId)
    requires Inv(sys, p) && CanHappen(sys, t, p)
    requires r in sys.db.jobs && sys.db.jobs[r].jobType == Refresh && sys.db.jobs[r].state != Completed
    requires r in Next(sys, t, p).db.jobs && Next(sys, t, p).db.jobs[r].jobType == Refresh
    requires Next(sys, t, p).db.jobs[r].state == Completed
    ensures sys.orch.Completing? && sys.orch.r == r && sys.db.jobs[r].params.deployment.Some?
    ensures var after, o, d := Next(sys, t, p).db, sys.orch, sys.db.jobs[r].params.deployment.value;
            var expiry := if o.expiry.Some? then o.expiry.value else t.now + PROFILE_VALIDITY;
            && EarnedBy(after, r, o.sign, o.g, o.install)
            && (d in sys.db.records ==>
                  after.records == sys.db.records[d := Installation(Some(expiry), Some(o.g), Some(o.install))])
            && (d in sys.db.deployments ==>
                  d in after.deployments && after.deployments[d].outcome == RefreshOk
                  && after.deployments[d].nextDue == Some(expiry - p.cfg.refreshLead))
    ensures var after := Next(sys, t, p).db; NoUpdates(after, r, p) ==>
        InstallOf(after, r, sys.orch.install, sys.orch.g)
  {
    hide Proper, AllEarned, Persists, InstallChosen, Transactions, Apply, NextOrch;
    if !t.action.CompleteRefresh? {
      TablesKept(sys, t, p);
      assert false;
    }
    CompletionStep(sys, t, p);
    CompletionWrites(sys, t, p, r);
    var after := Next(sys, t, p).db;
    if NoUpdates(after, r, p) {
      ChosenForTheSoleSign(after, r, sys.orch.sign, sys.orch.g, sys.orch.install, p);
    }
  }

  lemma ChosenForTheSoleSign(db: Db, r: JobId, s: JobId, g: SignedId, i: JobId, p: Party)
    requires Proper(db, p) && r in db.jobs && NoUpdates(db, r, p)
    requires SignedBy(db, r, s, g) && InstallChosen(db, r, i)
    ensures InstallOf(db, r, i, g)
  {
    hide Proper;
    var s', g' :| SignedBy(db, r, s', g') && InstallOf(db, r, i, g');
    SoleSignChild(db, r, s, s', p);
  }

  lemma CompletionWrites(sys: System, t: Timed, p: Party, r: JobId)
    requires Inv(sys, p) && CanHappen(sys, t, p) && t.action.CompleteRefresh?
    requires r in sys.db.jobs && sys.db.jobs[r].jobType == Refresh && sys.db.jobs[r].state != Completed
    requires r in Next(sys, t, p).db.jobs && Next(sys, t, p).db.jobs[r].state == Completed
    ensures sys.orch.r == r && sys.db.jobs[r].params.deployment.Some?
    ensures Refusal(sys.db, p.service, r, CompletionReport(sys.orch.g, sys.orch.install, sys.orch.expiry)).None?
    ensures var after, o, d := Next(sys, t, p).db, sys.orch, sys.db.jobs[r].params.deployment.value;
            var expiry := if o.expiry.Some? then o.expiry.value else t.now + PROFILE_VALIDITY;
            && (d in sys.db.records ==>
                  after.records == sys.db.records[d := Installation(Some(expiry), Some(o.g), Some(o.install))])
            && (d in sys.db.deployments ==>
                  d in after.deployments && after.deployments[d].outcome == RefreshOk
                  && after.deployments[d].nextDue == Some(expiry - p.cfg.refreshLead))
  {
    hide Proper, AllEarned, Knows;
    ApplyIsStep(sys.db, t.now, Updates(p.service, sys.orch.r,
        CompletionReport(sys.orch.g, sys.orch.install, sys.orch.expiry)), p.cfg);
  }
}
