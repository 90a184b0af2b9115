/** What the history of a run says about the rows it leaves behind: who holds a
    job, and that it completes at most once. */
module JobHistory {
  import opened Prelude
  import opened JobRows
  import opened JobRuns

  /** The state step k of the run meets. */
  function Before(db: Db, run: Run, cfg: Config, k: nat): Db
    requires k <= |run|
  {
    Exec(db, run[..k], cfg)
  }

  lemma BeforeFront(db: Db, run: Run, cfg: Config, k: nat)
    requires run != [] && k < |run|
    ensures Before(db, run[..|run| - 1], cfg, k) == Before(db, run, cfg, k)
  {
    assert run[..|run| - 1][..k] == run[..k];
  }

  lemma AfterStep(db: Db, run: Run, cfg: Config, k: nat)
    requires k < |run|
    ensures Before(db, run, cfg, k + 1) == Step(Before(db, run, cfg, k), run[k], cfg)
    ensures Before(db, run, cfg, |run|) == Exec(db, run, cfg)
  {
    assert run[..k + 1][..k] == run[..k];
    assert run[..|run|] == run;
  }

  // ------------------------------------------------------ holder attribution

  /** Step s, met with table db, hands the row to `agent`. */
  predicate Grants(db: Db, s: Stamped, id: JobId, agent: AgentId) {
    match s.event
    case Claims(a, ids) => a == agent && id in ids
    case ClaimsOne(a, i) => a == agent && i == id && id in db.jobs && db.jobs[id].state != Completed
        && !Active(db.jobs[id])
    case _ => false
  }

  predicate GrantsAnyone(db: Db, s: Stamped, id: JobId) {
    match s.event
    case Claims(a, _) => Grants(db, s, id, a)
    case ClaimsOne(a, _) => Grants(db, s, id, a)
    case _ => false
  }

  /** Step s takes the row back from whoever holds it: requeued or killed. */
  predicate TakesBack(db: Db, s: Stamped, id: JobId) {
    s.event.Reaps? && id !in s.event.locked && id in db.jobs && Reapable(db.jobs[id], s.now)
  }

  /** Step k was the latest grant of the row, it went to `agent`, and nothing took the row back since. */
  ghost predicate LatestGrant(db: Db, run: Run, cfg: Config, id: JobId, agent: AgentId, k: nat)
    requires k < |run|
  {
    && Grants(Before(db, run, cfg, k), run[k], id, agent)
    && forall m :: k < m < |run| ==>
         !GrantsAnyone(Before(db, run, cfg, m), run[m], id) && !TakesBack(Before(db, run, cfg, m), run[m], id)
  }

  predicate Unheld(db: Db, id: JobId) { id in db.jobs ==> db.jobs[id].claimedBy.None? }

  lemma LatestGrantExtends(db: Db, run: Run, cfg: Config, id: JobId, agent: AgentId, k: nat)
    requires k < |run| - 1
    ensures LatestGrant(db, run, cfg, id, agent, k) <==>
      LatestGrant(db, run[..|run| - 1], cfg, id, agent, k)
      && !GrantsAnyone(Before(db, run, cfg, |run| - 1), run[|run| - 1], id)
      && !TakesBack(Before(db, run, cfg, |run| - 1), run[|run| - 1], id)
  {
    hide Before, Grants, GrantsAnyone, TakesBack;
    forall m | k <= m < |run| - 1 ensures Before(db, run[..|run| - 1], cfg, m) == Before(db, run, cfg, m) {
      BeforeFront(db, run, cfg, m);
    }
  }

  lemma HolderStep(db: Db, s: Stamped, cfg: Config, id: JobId, agent: AgentId)
    requires WellFormed(db) && Enabled(db, s) && id in Step(db, s, cfg).jobs
    ensures var held := Step(db, s, cfg).jobs[id].claimedBy == Some(agent);
            if id in db.jobs then
              held <==>
                Grants(db, s, id, agent)
                || (db.jobs[id].claimedBy == Some(agent) && !GrantsAnyone(db, s, id) && !TakesBack(db, s, id))
            else !held && !Grants(db, s, id, agent)
  {
    hide Step;
    if id in db.jobs { RowStep(db, s, cfg, id); } else { NewRowStep(db, s, cfg, id); }
  }

  ghost predicate Granted(db: Db, run: Run, cfg: Config, id: JobId, agent: AgentId) {
    exists k :: 0 <= k < |run| && LatestGrant(db, run, cfg, id, agent, k)
  }

  lemma GrantedStep(db: Db, run: Run, cfg: Config, id: JobId, agent: AgentId)
    requires run != []
    ensures var before, last := Exec(db, run[..|run| - 1], cfg), run[|run| - 1];
            Granted(db, run, cfg, id, agent) <==>
              Grants(before, last, id, agent)
              || (Granted(db, run[..|run| - 1], cfg, id, agent) && !GrantsAnyone(before, last, id)
                  && !TakesBack(before, last, id))
  {
    hide Step, Grants, GrantsAnyone, TakesBack, Exec;
    var n := |run| - 1;
    if Grants(Exec(db, run[..n], cfg), run[n], id, agent) {
      assert LatestGrant(db, run, cfg, id, agent, n);
    }
    forall k | 0 <= k < n
      ensures LatestGrant(db, run, cfg, id, agent, k) <==>
        LatestGrant(db, run[..n], cfg, id, agent, k)
        && !GrantsAnyone(Before(db, run, cfg, n), run[n], id) && !TakesBack(Before(db, run, cfg, n), run[n], id)
    {
      LatestGrantExtends(db, run, cfg, id, agent, k);
    }
  }

  /** The holder column names the agent of the latest grant, as long as nothing
      took the row back since; and nobody otherwise. */
  lemma {:induction false} HolderIsLatestGrantee(db: Db, run: Run, cfg: Config, id: JobId, agent: AgentId)
    requires WellFormed(db) && Legal(db, run, cfg) && Unheld(db, id)
    requires id in Exec(db, run, cfg).jobs
    ensures Exec(db, run, cfg).jobs[id].claimedBy == Some(agent) <==> Granted(db, run, cfg, id, agent)
  {
    hide Step, Grants, GrantsAnyone, TakesBack, Granted;
    if run == [] {
      assert !Granted(db, run, cfg, id, agent) by { NoGrantYet(db, run, cfg, id, agent); }
    } else {
      var front, last := run[..|run| - 1], run[|run| - 1];
      var before := Exec(db, front, cfg);
      RunWellFormed(db, front, cfg);
      GrantedStep(db, run, cfg, id, agent);
      HolderStep(before, last, cfg, id, agent);
      if id in before.jobs {
        HolderIsLatestGrantee(db, front, cfg, id, agent);
      } else {
        NewRowStep(before, last, cfg, id);
        NeverGranted(db, front, cfg, id, agent);
        NoGrantYet(db, front, cfg, id, agent);
      }
    }
  }

  lemma NoGrantYet(db: Db, run: Run, cfg: Config, id: JobId, agent: AgentId)
    requires forall k :: 0 <= k < |run| ==> !Grants(Before(db, run, cfg, k), run[k], id, agent)
    ensures !Granted(db, run, cfg, id, agent)
  {
  }

  /** A row that does not exist yet has not been granted. */
  lemma {:induction false} NeverGranted(db: Db, run: Run, cfg: Config, id: JobId, agent: AgentId)
    requires WellFormed(db) && Legal(db, run, cfg) && id >= Exec(db, run, cfg).nextId
    ensures forall k :: 0 <= k < |run| ==> !Grants(Before(db, run, cfg, k), run[k], id, agent)
  {
    if run != [] {
      var front := run[..|run| - 1];
      var before := Exec(db, front, cfg);
      StepKeepsSequence(before, run[|run| - 1], cfg);
      RunWellFormed(db, front, cfg);
      NeverGranted(db, front, cfg, id, agent);
      forall k | 0 <= k < |run| ensures !Grants(Before(db, run, cfg, k), run[k], id, agent) {
        if k < |run| - 1 { BeforeFront(db, run, cfg, k); }
      }
    }
  }

  /** An Update is accepted only from the agent of the latest grant; a displaced
      holder's request changes nothing at all. */
  lemma OnlyTheHolderUpdates(db: Db, run: Run, cfg: Config, id: JobId, agent: AgentId, req: UpdateRequest, now: Time)
    requires WellFormed(db) && Legal(db, run, cfg) && Unheld(db, id)
    ensures Refusal(Exec(db, run, cfg), agent, id, req).None? ==>
      Granted(db, run, cfg, id, agent)
    ensures !Granted(db, run, cfg, id, agent) ==>
      Updated(Exec(db, run, cfg), agent, id, req, now, cfg) == Exec(db, run, cfg)
  {
    if id in Exec(db, run, cfg).jobs {
      HolderIsLatestGrantee(db, run, cfg, id, agent);
    }
  }

  // ------------------------------------------------------ completing once

  /** Step s is an Update of this row to `completed` that was accepted. */
  predicate Completes(db: Db, s: Stamped, id: JobId) {
    && s.event.Updates? && s.event.id == id && s.event.req.state == Known(Completed)
    && Refusal(db, s.event.agent, id, s.event.req).None?
  }

  predicate PurgedIn(run: Run, key: Key) { exists k :: 0 <= k < |run| && run[k].event == Purges(key) }

  lemma CompletedStep(db: Db, s: Stamped, cfg: Config, id: JobId)
    requires WellFormed(db) && Enabled(db, s) && id in db.jobs && db.jobs[id].state == Completed
    ensures var after := Step(db, s, cfg).jobs;
            if s.event == Purges(db.jobs[id].key) then id !in after
            else id in after && after[id] == db.jobs[id].(parent := after[id].parent)
  {
    hide Step;
    RowStep(db, s, cfg, id);
  }

  /** A completed row never changes again, apart from losing a deleted parent, and
      is gone, for good, if and only if someone purged its key. */
  lemma {:induction false} CompletedIsFinal(db: Db, run: Run, cfg: Config, id: JobId)
    requires WellFormed(db) && Legal(db, run, cfg)
    requires id in db.jobs && db.jobs[id].state == Completed
    ensures var end := Exec(db, run, cfg).jobs;
            if PurgedIn(run, db.jobs[id].key) then id !in end
            else id in end && end[id] == db.jobs[id].(parent := end[id].parent)
    ensures id < Exec(db, run, cfg).nextId
  {
    hide Step;
    if run != [] {
      var front, last := run[..|run| - 1], run[|run| - 1];
      var before := Exec(db, front, cfg);
      RunWellFormed(db, front, cfg);
      CompletedIsFinal(db, front, cfg, id);
      PurgedLast(run, db.jobs[id].key);
      StepKeepsSequence(before, last, cfg);
      if id in before.jobs { CompletedStep(before, last, cfg, id); } else { NewRowStep(before, last, cfg, id); }
    }
  }

  lemma PurgedLast(run: Run, key: Key)
    requires run != []
    ensures PurgedIn(run, key) <==> PurgedIn(run[..|run| - 1], key) || run[|run| - 1].event == Purges(key)
  {
    assert forall k :: 0 <= k < |run| - 1 ==> run[..|run| - 1][k] == run[k];
    if run[|run| - 1].event == Purges(key) { assert PurgedIn(run, key); }
  }

  lemma {:induction false} ExecConcat(db: Db, a: Run, b: Run, cfg: Config)
    ensures Exec(db, a + b, cfg) == Exec(Exec(db, a, cfg), b, cfg)
  {
    if b == [] {
      assert a + b == a;
    } else {
      ExecConcat(db, a, b[..|b| - 1], cfg);
      assert (a + b)[..|a + b| - 1] == a + b[..|b| - 1];
    }
  }

  lemma {:induction false} LegalSuffix(db: Db, run: Run, cfg: Config, k: nat)
    requires k <= |run| && Legal(db, run, cfg)
    ensures Legal(Exec(db, run[..k], cfg), run[k..], cfg) && Legal(db, run[..k], cfg)
    ensures Exec(Exec(db, run[..k], cfg), run[k..], cfg) == Exec(db, run, cfg)
  {
    hide Step, Enabled;
    if k == |run| {
      assert run[..k] == run && run[k..] == [];
    } else {
      var front := run[..|run| - 1];
      LegalSuffix(db, front, cfg, k);
      assert front[..k] == run[..k] && front[k..] == run[k..][..|run| - 1 - k];
    }
  }

  /** A row accepts at most one completion in any run, so the success branch of
      applyRefreshOutcome runs at most once per refresh. */
  lemma CompletesAtMostOnce(db: Db, run: Run, cfg: Config, id: JobId, i: nat, j: nat)
    requires WellFormed(db) && Legal(db, run, cfg)
    requires i < |run| && Completes(Before(db, run, cfg, i), run[i], id)
    requires j < |run| && Completes(Before(db, run, cfg, j), run[j], id)
    ensures i == j
  {
    if i < j {
      SecondCompletionRefused(db, run, cfg, id, i, j);
    } else if j < i {
      SecondCompletionRefused(db, run, cfg, id, j, i);
    }
  }

  lemma CompletesStep(db: Db, s: Stamped, cfg: Config, id: JobId)
    requires WellFormed(db) && Completes(db, s, id)
    ensures var after := Step(db, s, cfg).jobs;
            id in db.jobs && id in after && after[id].state == Completed
  {
    hide Step;
    RowStep(db, s, cfg, id);
  }

  lemma SecondCompletionRefused(db: Db, run: Run, cfg: Config, id: JobId, i: nat, j: nat)
    requires WellFormed(db) && Legal(db, run, cfg)
    requires i < j < |run| && Completes(Before(db, run, cfg, i), run[i], id)
    ensures !Completes(Before(db, run, cfg, j), run[j], id)
  {
    hide Step, Exec, WellFormed, Legal;
    LegalSuffix(db, run, cfg, i);
    RunWellFormed(db, run[..i], cfg);
    AfterStep(db, run, cfg, i);
    CompletesStep(Before(db, run, cfg, i), run[i], cfg, id);
    LegalSuffix(db, run, cfg, j);
    LegalSuffix(db, run[..j], cfg, i + 1);
    assert run[..j][..i + 1] == run[..i + 1];
    RunWellFormed(db, run[..i + 1], cfg);
    CompletedIsFinal(Before(db, run, cfg, i + 1), run[..j][i + 1..], cfg, id);
  }
}
