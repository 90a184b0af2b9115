/** Which signed artifact a deployment has installed, and which one it would roll
    back to, over whole runs of the queue. */
module Installs {
  import opened Prelude
  import opened JobRows
  import opened JobRuns
  import opened JobHistory

  /** Step s completes a refresh of deployment d, reporting what it installed. */
  predicate RefreshesDeployment(db: Db, s: Stamped, d: DeploymentId) {
    && s.event.Updates? && Completes(db, s, s.event.id)
    && s.event.id in db.jobs
    && db.jobs[s.event.id].jobType == Refresh && db.jobs[s.event.id].params.deployment == Some(d)
  }

  /** The signed artifact step s reports as installed for d, if it does. */
  function InstalledBy(db: Db, s: Stamped, d: DeploymentId): Option<SignedId> {
    if RefreshesDeployment(db, s, d) && s.event.req.result.Reported? then s.event.req.result.signedArtifact else None
  }

  /** Every signed artifact the deployment had installed, oldest first. */
  function Installed(db: Db, run: Run, cfg: Config, d: DeploymentId): seq<SignedId>
    requires d in db.records
  {
    if run == [] then (if db.records[d].signed.Some? then [db.records[d].signed.value] else [])
    else
      var front, last := run[..|run| - 1], run[|run| - 1];
      var g := InstalledBy(Exec(db, front, cfg), last, d);
      Installed(db, front, cfg, d) + if g.Some? then [g.value] else []
  }

  function Current(h: seq<SignedId>): Option<SignedId> {
    if h == [] then None else Some(h[|h| - 1])
  }

  /** g is the most recent entry of h that differs from the last one. */
  ghost predicate LastDifferent(h: seq<SignedId>, g: SignedId) {
    exists i :: 0 <= i < |h| && h[i] == g && g != h[|h| - 1] && forall j :: i < j < |h| ==> h[j] == h[|h| - 1]
  }

  /** The rollback column: the most recent different install, or nothing if there was none. */
  ghost predicate RollsBackTo(h: seq<SignedId>, rollback: Option<SignedId>) {
    match rollback
    case Some(g) => LastDifferent(h, g)
    case None => forall i :: 0 <= i < |h| ==> h[i] == h[|h| - 1]
  }

  lemma RollbackGrows(h: seq<SignedId>, rollback: Option<SignedId>, g: SignedId)
    requires RollsBackTo(h, rollback)
    ensures RollsBackTo(h + [g], if Current(h).Some? && Current(h) != Some(g) then Current(h) else rollback)
  {
    var h' := h + [g];
    if h == [] {
    } else if h[|h| - 1] != g {
      assert h'[|h| - 1] == h[|h| - 1];
    } else if rollback.Some? {
      var i :| 0 <= i < |h| && h[i] == rollback.value && rollback.value != h[|h| - 1]
               && forall j :: i < j < |h| ==> h[j] == h[|h| - 1];
      assert h'[i] == rollback.value;
    }
  }

  /** What one step does to a deployment and its installation record. */
  lemma DeploymentStep(db: Db, s: Stamped, cfg: Config, d: DeploymentId)
    requires d in db.deployments && d in db.records
    ensures var after := Step(db, s, cfg);
            && d in after.deployments && d in after.records
            && (var g := InstalledBy(db, s, d);
                if g.Some? then
                  && after.records[d].signed == g
                  && after.records[d].installJob == s.event.req.result.installJob
                  && after.deployments[d].rollback ==
                       (if db.records[d].signed.Some? && db.records[d].signed != g then db.records[d].signed
                        else db.deployments[d].rollback)
                else
                  && after.records[d].signed == db.records[d].signed
                  && after.records[d].installJob == db.records[d].installJob
                  && after.deployments[d].rollback == db.deployments[d].rollback)
            && (if RefreshesDeployment(db, s, d) then
                  && after.records[d].expiry.Some?
                  && after.deployments[d].nextDue == Some(after.records[d].expiry.value - cfg.refreshLead)
                  && after.deployments[d].outcome == RefreshOk
                else
                  && after.records[d].expiry == db.records[d].expiry
                  && after.deployments[d].nextDue == db.deployments[d].nextDue)
  {
    if s.event.Updates? {
      hide Insert, GrantAll, ClaimOne, ReapAll, Released;
    } else {
      OtherStepsLeaveDeployments(db, s, cfg);
    }
  }

  lemma OtherStepsLeaveDeployments(db: Db, s: Stamped, cfg: Config)
    requires !s.event.Updates?
    ensures Step(db, s, cfg).deployments == db.deployments && Step(db, s, cfg).records == db.records
  {
  }

  /** In any run the record names the latest install, and the rollback artifact is
      the most recent earlier one that differs from it: so never the same. */
  lemma {:induction false} RollbackHistory(db: Db, run: Run, cfg: Config, d: DeploymentId)
    requires d in db.deployments && d in db.records && db.deployments[d].rollback.None?
    ensures var end := Exec(db, run, cfg);
            && d in end.deployments && d in end.records
            && end.records[d].signed == Current(Installed(db, run, cfg, d))
            && RollsBackTo(Installed(db, run, cfg, d), end.deployments[d].rollback)
            && (end.deployments[d].rollback.Some? ==> end.deployments[d].rollback != end.records[d].signed)
  {
    hide Step, InstalledBy, RollsBackTo;
    if run == [] {
      assert RollsBackTo(Installed(db, run, cfg, d), None) by { SingleInstall(Installed(db, run, cfg, d)); }
    } else {
      var front, last := run[..|run| - 1], run[|run| - 1];
      RollbackHistory(db, front, cfg, d);
      DeploymentStep(Exec(db, front, cfg), last, cfg, d);
      var g := InstalledBy(Exec(db, front, cfg), last, d);
      if g.Some? {
        RollbackGrows(Installed(db, front, cfg, d), Exec(db, front, cfg).deployments[d].rollback, g.value);
      } else {
        assert Installed(db, run, cfg, d) == Installed(db, front, cfg, d);
      }
      assert RollsBackTo(Installed(db, run, cfg, d), Exec(db, run, cfg).deployments[d].rollback);
    }
    NeverCurrent(Installed(db, run, cfg, d), Exec(db, run, cfg).deployments[d].rollback);
  }

  lemma SingleInstall(h: seq<SignedId>)
    requires |h| <= 1
    ensures RollsBackTo(h, None)
  {
  }

  lemma NeverCurrent(h: seq<SignedId>, rollback: Option<SignedId>)
    requires RollsBackTo(h, rollback)
    ensures rollback.Some? ==> rollback != Current(h)
  {
  }

  /** From the first completion of a refresh on, the next one is due a lead before
      the recorded expiry. */
  lemma {:induction false} DueALeadBeforeExpiry(db: Db, run: Run, cfg: Config, d: DeploymentId, k: nat)
    requires d in db.deployments && d in db.records
    requires k < |run| && RefreshesDeployment(Before(db, run, cfg, k), run[k], d)
    ensures var end := Exec(db, run, cfg);
            && d in end.deployments && d in end.records && end.records[d].expiry.Some?
            && end.deployments[d].nextDue == Some(end.records[d].expiry.value - cfg.refreshLead)
  {
    hide Step, RefreshesDeployment;
    var front := run[..|run| - 1];
    if k < |run| - 1 {
      BeforeFront(db, run, cfg, k);
      DueALeadBeforeExpiry(db, front, cfg, d, k);
    } else {
      DeploymentStays(db, front, cfg, d);
    }
    DeploymentStep(Exec(db, front, cfg), run[|run| - 1], cfg, d);
  }

  lemma {:induction false} DeploymentStays(db: Db, run: Run, cfg: Config, d: DeploymentId)
    requires d in db.deployments && d in db.records
    ensures d in Exec(db, run, cfg).deployments && d in Exec(db, run, cfg).records
  {
    hide Step;
    if run != [] {
      DeploymentStays(db, run[..|run| - 1], cfg, d);
      DeploymentStep(Exec(db, run[..|run| - 1], cfg), run[|run| - 1], cfg, d);
    }
  }
}
