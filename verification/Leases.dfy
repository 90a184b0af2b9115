/** How long a lease keeps a job: a timed run in which the holder heartbeats. */
module Leases {
  import opened Prelude
  import opened JobRows
  import opened JobRuns
  import opened JobHistory

  /** A job in an agent's hands: the row, its key, the agent, and on which attempt. */
  datatype Hold = Hold(id: JobId, key: Key, agent: AgentId, attempt: nat)

  predicate Beat(s: Stamped, h: Hold) {
    s.event.Updates? && s.event.id == h.id && s.event.agent == h.agent && s.event.req.state == Known(InProgress)
  }

  /** The time of the holder's last heartbeat, or of the grant before the run. */
  function LastBeat(run: Run, h: Hold, granted: Time): Time {
    if run == [] then granted
    else if Beat(run[|run| - 1], h) then run[|run| - 1].now
    else LastBeat(run[..|run| - 1], h, granted)
  }

  /** Step s reaps and could lock the row, but only once the lease had lapsed. */
  predicate LateReap(s: Stamped, h: Hold, lastBeat: Time, cfg: Config) {
    s.event.Reaps? && h.id !in s.event.locked && lastBeat + cfg.lease < s.now
  }

  /** What takes a job from a holder that keeps working: a late reap, or the purge
      of its key (which only certificate exports ever suffer). */
  predicate Ends(s: Stamped, h: Hold, lastBeat: Time, cfg: Config) {
    LateReap(s, h, lastBeat, cfg) || s.event == Purges(h.key)
  }

  /** The holder reports no outcome during the run. */
  ghost predicate StillWorking(run: Run, h: Hold) {
    forall k :: 0 <= k < |run| ==>
      run[k].event.Updates? && run[k].event.id == h.id && run[k].event.agent == h.agent ==> Beat(run[k], h)
  }

  /** The job is the agent's, on this attempt, under a lease dated from `beat`. */
  predicate Keeps(db: Db, h: Hold, beat: Time, cfg: Config) {
    && h.id in db.jobs && Active(db.jobs[h.id]) && db.jobs[h.id].claimedBy == Some(h.agent)
    && db.jobs[h.id].attempt == h.attempt && db.jobs[h.id].lease == Some(beat + cfg.lease)
    && db.jobs[h.id].key == h.key
  }

  /** Nothing in the run ends the hold. */
  ghost predicate NeverEnds(run: Run, h: Hold, granted: Time, cfg: Config) {
    forall k :: 0 <= k < |run| ==> !Ends(run[k], h, LastBeat(run[..k], h, granted), cfg)
  }

  lemma KeepsStep(db: Db, s: Stamped, cfg: Config, h: Hold, beat: Time)
    requires WellFormed(db) && Enabled(db, s) && Keeps(db, h, beat, cfg)
    requires s.event.Updates? && s.event.id == h.id && s.event.agent == h.agent ==> Beat(s, h)
    ensures var after := Step(db, s, cfg);
            if Ends(s, h, beat, cfg) then
              h.id in after.jobs ==>
                (after.jobs[h.id].state == Dead || after.jobs[h.id].state == Pending)
                    && after.jobs[h.id].attempt == h.attempt
            else Keeps(after, h, if Beat(s, h) then s.now else beat, cfg)
  {
    hide Step;
    RowStep(db, s, cfg, h.id);
  }

  /** While no unlocked reap comes later than a lease after the holder's last
      heartbeat, and nobody purges the job's key, nothing takes the job from it:
      not the reaper, not other agents' claims or updates, in whatever order they
      come. */
  lemma {:induction false} HeartbeatsKeepTheJob(db: Db, run: Run, cfg: Config, h: Hold, granted: Time)
    requires WellFormed(db) && Legal(db, run, cfg) && Keeps(db, h, granted, cfg)
    requires StillWorking(run, h) && NeverEnds(run, h, granted, cfg)
    ensures Keeps(Exec(db, run, cfg), h, LastBeat(run, h, granted), cfg)
  {
    hide Step, WellFormed, Keeps;
    if run != [] {
      var front := run[..|run| - 1];
      RunWellFormed(db, front, cfg);
      assert NeverEnds(front, h, granted, cfg) by {
        forall k | 0 <= k < |front| ensures !Ends(front[k], h, LastBeat(front[..k], h, granted), cfg) {
          assert front[..k] == run[..k];
        }
      }
      HeartbeatsKeepTheJob(db, front, cfg, h, granted);
      KeepsStep(Exec(db, front, cfg), run[|run| - 1], cfg, h, LastBeat(front, h, granted));
    }
  }

  /** Off the attempt for good: deleted, on a later attempt, or waiting. */
  predicate Lost(db: Db, h: Hold) {
    && h.id < db.nextId
    && (h.id in db.jobs ==>
          || db.jobs[h.id].attempt > h.attempt
          || (db.jobs[h.id].attempt == h.attempt && (db.jobs[h.id].state == Pending || db.jobs[h.id].state == Dead)))
  }

  lemma LostStep(db: Db, s: Stamped, cfg: Config, h: Hold)
    requires WellFormed(db) && Enabled(db, s) && Lost(db, h)
    ensures Lost(Step(db, s, cfg), h)
  {
    hide Step;
    StepKeepsSequence(db, s, cfg);
    if h.id in db.jobs { RowStep(db, s, cfg, h.id); } else { NewRowStep(db, s, cfg, h.id); }
  }

  lemma {:induction false} LostForGood(db: Db, run: Run, cfg: Config, h: Hold)
    requires WellFormed(db) && Legal(db, run, cfg) && Lost(db, h)
    ensures Lost(Exec(db, run, cfg), h)
  {
    hide Step, WellFormed, Lost;
    if run != [] {
      RunWellFormed(db, run[..|run| - 1], cfg);
      LostForGood(db, run[..|run| - 1], cfg, h);
      LostStep(Exec(db, run[..|run| - 1], cfg), run[|run| - 1], cfg, h);
    }
  }

  /** The first late reap or purge takes the attempt away, whatever follows. */
  lemma EndTakesTheJob(db: Db, run: Run, cfg: Config, h: Hold, granted: Time, k: nat)
    requires WellFormed(db) && Legal(db, run, cfg) && Keeps(db, h, granted, cfg) && StillWorking(run, h)
    requires k < |run| && Ends(run[k], h, LastBeat(run[..k], h, granted), cfg)
    requires NeverEnds(run[..k], h, granted, cfg)
    ensures Lost(Exec(db, run, cfg), h)
  {
    hide Step, WellFormed, Legal, Exec, Keeps;
    LegalSuffix(db, run, cfg, k);
    HeartbeatsKeepTheJob(db, run[..k], cfg, h, granted);
    RunWellFormed(db, run[..k], cfg);
    var before := Before(db, run, cfg, k);
    assert Enabled(before, run[k]) by { LegalAt(db, run, cfg, k); }
    KeepsStep(before, run[k], cfg, h, LastBeat(run[..k], h, granted));
    AfterStep(db, run, cfg, k);
    LegalSuffix(db, run, cfg, k + 1);
    RunWellFormed(db, run[..k + 1], cfg);
    StepKeepsSequence(before, run[k], cfg);
    assert h.id < before.nextId by { KeptRowIsIssued(before, h, LastBeat(run[..k], h, granted), cfg); }
    LostForGood(Before(db, run, cfg, k + 1), run[k + 1..], cfg, h);
  }

  lemma LegalAt(db: Db, run: Run, cfg: Config, k: nat)
    requires k < |run| && Legal(db, run, cfg)
    ensures Enabled(Before(db, run, cfg, k), run[k])
  {
    hide Enabled;
    LegalSuffix(db, run, cfg, k + 1);
    assert run[..k + 1][..k] == run[..k];
  }

  lemma KeptRowIsIssued(db: Db, h: Hold, beat: Time, cfg: Config)
    requires WellFormed(db) && Keeps(db, h, beat, cfg)
    ensures h.id < db.nextId
  {
  }

  /** Exactly: the agent still has the job, on the same attempt, if and only if
      every unlocked reap came within a lease of its latest heartbeat and nobody
      purged the job's key. */
  lemma LeaseKeeping(db: Db, run: Run, cfg: Config, h: Hold, granted: Time)
    requires WellFormed(db) && Legal(db, run, cfg) && Keeps(db, h, granted, cfg) && StillWorking(run, h)
    ensures Keeps(Exec(db, run, cfg), h, LastBeat(run, h, granted), cfg) <==> NeverEnds(run, h, granted, cfg)
  {
    hide Step, WellFormed, Legal, Exec;
    if NeverEnds(run, h, granted, cfg) {
      HeartbeatsKeepTheJob(db, run, cfg, h, granted);
    } else {
      var k := FirstEnd(run, h, granted, cfg, |run|);
      EndTakesTheJob(db, run, cfg, h, granted, k);
    }
  }

  lemma {:induction false} FirstEnd(run: Run, h: Hold, granted: Time, cfg: Config, n: nat) returns (k: nat)
    requires n <= |run|
    requires exists j :: 0 <= j < n && Ends(run[j], h, LastBeat(run[..j], h, granted), cfg)
    ensures k < n && Ends(run[k], h, LastBeat(run[..k], h, granted), cfg)
    ensures NeverEnds(run[..k], h, granted, cfg)
  {
    hide LastBeat, Ends;
    if j :| 0 <= j < n - 1 && Ends(run[j], h, LastBeat(run[..j], h, granted), cfg) {
      k := FirstEnd(run, h, granted, cfg, n - 1);
    } else {
      k := n - 1;
      forall m | 0 <= m < k ensures !Ends(run[..k][m], h, LastBeat(run[..k][..m], h, granted), cfg) {
        assert run[..k][..m] == run[..m];
      }
    }
  }
}
