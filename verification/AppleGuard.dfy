/** The circuit breaker and hourly cap of the signing worker
    (`cmd/signing-worker/main.go`), and what they guarantee over whole runs of
    its claim loop, restarts included. */
module AppleGuard {
  import opened Prelude
  import opened Slices

  type Time = int // Unix seconds

  const COOLDOWN := 3600
  const HOUR := 3600
  const MAX_RUNS := 12
  const THRESHOLD := 3

  datatype State = State(failures: nat, breakerUntil: Time, attempts: seq<Time>)

  const NEW := State(0, 0, [])

  // ------------------------------------------------ the methods, on values

  function Pruned(s: State, now: Time): State { s.(attempts := Since(s.attempts, now - HOUR)) }

  /** allow reads the clock twice: for the breaker, then inside prune. */
  predicate Allows(s: State, t: Time, u: Time) {
    s.breakerUntil <= t && |Pruned(s, u).attempts| < MAX_RUNS
  }

  function Asked(s: State, t: Time, u: Time): State { if s.breakerUntil > t then s else Pruned(s, u) }

  /** noteRun reads the clock for the attempt, and again when it opens the breaker. */
  function Noted(s: State, succeeded: bool, authFailure: bool, t: Time, u: Time): State {
    var failures := if succeeded then 0 else if authFailure then s.failures + 1 else s.failures;
    State(failures,
          if !succeeded && authFailure && failures >= THRESHOLD then u + COOLDOWN else s.breakerUntil,
          s.attempts + [t])
  }

  class Guard {
    var failures: nat
    var breakerUntil: Time
    var attempts: array<Time>
    var count: nat
    var file: State // apple_guard.json; a missing one reads as the zero state

    constructor (file: State)
      ensures Valid() && fresh(attempts) && Mem() == file && this.file == file
    {
      failures, breakerUntil, count := file.failures, file.breakerUntil, |file.attempts|;
      attempts := new Time[|file.attempts|](i requires 0 <= i < |file.attempts| => file.attempts[i]);
      this.file := file;
      new;
      assert attempts[..count] == file.attempts;
    }

    predicate Valid()
      reads this
    {
      count <= attempts.Length
    }

    function Mem(): State
      requires Valid()
      reads this, attempts
    {
      State(failures, breakerUntil, attempts[..count])
    }

    method Prune(now: Time)
      requires Valid()
      modifies this`count, attempts
      ensures Valid() && Mem() == Pruned(old(Mem()), now)
    {
      count := Compact(attempts, count, now - HOUR);
    }

    method Allow(t: Time, u: Time) returns (ok: bool)
      requires Valid()
      modifies this`count, attempts
      ensures Valid() && Mem() == Asked(old(Mem()), t, u)
      ensures ok == Allows(old(Mem()), t, u)
    {
      if breakerUntil > t { return false; }
      Prune(u);
      return count < MAX_RUNS;
    }

    method NoteRun(succeeded: bool, authFailure: bool, t: Time, u: Time)
      requires Valid()
      modifies this, attempts
      ensures Valid() && (attempts == old(attempts) || fresh(attempts))
      ensures Mem() == Noted(old(Mem()), succeeded, authFailure, t, u) && file == Mem()
    {
      attempts := Append(attempts, count, t);
      count := count + 1;
      if succeeded {
        failures := 0;
      } else if authFailure {
        failures := failures + 1;
        if failures >= THRESHOLD {
          breakerUntil := u + COOLDOWN;
        }
      }
      file := Mem();
    }
  }

  // ------------------------------------------------------------ whole runs

  /** One recorded run: when it was recorded, how it went, and when the breaker
      read the clock. */
  datatype Record = Record(at: Time, succeeded: bool, authFailure: bool, until: Time)

  /** The claim loop asks, then makes at most one Apple run; a restart reads the
      file back and starts by asking. */
  datatype Event = Asks(t: Time, u: Time) | Notes(succeeded: bool, authFailure: bool, t: Time, u: Time) | Restarts

  /** `cleared`: the last thing that happened was an allow that said yes. */
  datatype Loop = Loop(mem: State, file: State, cleared: bool, clock: Time, history: seq<Record>)

  const BOOT := Loop(NEW, NEW, false, 0, [])

  predicate Possible(l: Loop, e: Event) {
    match e
    case Asks(t, u) => l.clock <= t <= u
    case Notes(_, _, t, u) => l.cleared && l.clock <= t <= u
    case Restarts => true
  }

  function Next(l: Loop, e: Event): Loop {
    match e
    case Asks(t, u) => l.(mem := Asked(l.mem, t, u), cleared := Allows(l.mem, t, u), clock := u)
    case Notes(succeeded, auth, t, u) =>
      var after := Noted(l.mem, succeeded, auth, t, u);
      Loop(after, after, false, u, l.history + [Record(t, succeeded, auth, u)])
    case Restarts => l.(mem := l.file, cleared := false)
  }

  function After(events: seq<Event>): Loop {
    if events == [] then BOOT else Next(After(events[..|events| - 1]), events[|events| - 1])
  }

  predicate Legal(events: seq<Event>) {
    events == [] || (Legal(events[..|events| - 1]) && Possible(After(events[..|events| - 1]), events[|events| - 1]))
  }

  /** A worker's life on the class itself, from no state file on: memory, file and
      last answer are what the run on values says. So every result below about
      After holds of the class. */
  method Live(events: seq<Event>) returns (guard: Guard, cleared: bool)
    requires Legal(events)
    ensures fresh(guard) && guard.Valid()
    ensures guard.Mem() == After(events).mem && guard.file == After(events).file && cleared == After(events).cleared
  {
    guard := new Guard(NEW);
    cleared := false;
    for i := 0 to |events|
      invariant fresh(guard) && fresh(guard.attempts) && guard.Valid()
      invariant var l := After(events[..i]); guard.Mem() == l.mem && guard.file == l.file && cleared == l.cleared
    {
      AfterNext(events, i);
      match events[i] {
        case Asks(t, u) => cleared := guard.Allow(t, u);
        case Notes(succeeded, auth, t, u) =>
          guard.NoteRun(succeeded, auth, t, u);
          cleared := false;
        case Restarts =>
          guard := new Guard(guard.file);
          cleared := false;
      }
    }
    assert events[..|events|] == events;
  }

  lemma AfterNext(events: seq<Event>, i: nat)
    requires i < |events|
    ensures After(events[..i + 1]) == Next(After(events[..i]), events[i])
  {
    assert events[..i + 1][..i] == events[..i];
  }

  // ------------------------------------- the same answers from full history

  /** Auth failures since the last success; other failures do not matter. */
  function Streak(history: seq<Record>): nat {
    if history == [] then 0
    else
      var r := history[|history| - 1];
      if r.succeeded then 0 else Streak(history[..|history| - 1]) + if r.authFailure then 1 else 0
  }

  /** When the last auth failure read the clock, if there was one since the last success. */
  function LastAuthFailure(history: seq<Record>): Option<Time> {
    if history == [] then None
    else
      var r := history[|history| - 1];
      if r.succeeded then None else if r.authFailure then Some(r.until) else LastAuthFailure(history[..|history| - 1])
  }

  predicate BreakerOpen(history: seq<Record>, t: Time) {
    Streak(history) >= THRESHOLD && LastAuthFailure(history).Some? && t < LastAuthFailure(history).value + COOLDOWN
  }

  function Times(history: seq<Record>): (times: seq<Time>)
    ensures |times| == |history|
  {
    seq(|history|, k requires 0 <= k < |history| => history[k].at)
  }

  /** How many runs were recorded in the closed window [from, to]. */
  function Recorded(history: seq<Record>, from: Time, to: Time): nat {
    if history == [] then 0
    else
      var r := history[|history| - 1];
      Recorded(history[..|history| - 1], from, to) + if from <= r.at <= to then 1 else 0
  }

  /** The hour that ends at `to`, both ends included. */
  function Window(history: seq<Record>, to: Time): nat { Recorded(history, to - HOUR, to) }

  /** What allow answers, computed from every run ever recorded. */
  predicate HistoryAllows(history: seq<Record>, t: Time, u: Time) {
    !BreakerOpen(history, t) && Window(history, u) < MAX_RUNS
  }

  // -------------------------------------------------------------- invariant

  ghost predicate Aged(s: State, history: seq<Record>, clock: Time) {
    && s.failures == Streak(history)
    && exists since :: since <= clock - HOUR && s.attempts == Since(Times(history), since)
  }

  ghost predicate Inv(l: Loop) {
    && (forall k :: 0 <= k < |l.history| ==> l.history[k].at <= l.history[k].until <= l.clock)
    && Aged(l.mem, l.history, l.clock) && Aged(l.file, l.history, l.clock)
    && l.mem.breakerUntil == l.file.breakerUntil
    && (Streak(l.history) >= THRESHOLD ==>
          LastAuthFailure(l.history).Some? && l.mem.breakerUntil == LastAuthFailure(l.history).value + COOLDOWN)
    && (Streak(l.history) < THRESHOLD ==> l.mem.breakerUntil <= l.clock)
    && (l.cleared ==> l.mem.breakerUntil <= l.clock && Window(l.history, l.clock) < MAX_RUNS)
    && (forall to :: Window(l.history, to) <= MAX_RUNS)
  }

  lemma {:induction false} CountSince(history: seq<Record>, u: Time)
    requires forall k :: 0 <= k < |history| ==> history[k].at <= u
    ensures |Since(Times(history), u - HOUR)| == Window(history, u)
  {
    if history != [] {
      CountSince(history[..|history| - 1], u);
      assert Times(history)[..|history| - 1] == Times(history[..|history| - 1]);
    }
  }

  lemma TimesAppend(history: seq<Record>, r: Record)
    ensures Times(history + [r]) == Times(history) + [r.at]
  {
  }

  /** Runs up to `clock` that a later window holds were in the window ending at `clock`. */
  lemma {:induction false} LaterWindow(history: seq<Record>, clock: Time, to: Time)
    requires clock <= to && forall k :: 0 <= k < |history| ==> history[k].at <= clock
    ensures Window(history, to) <= Window(history, clock)
  {
    if history != [] { LaterWindow(history[..|history| - 1], clock, to); }
  }

  /** Forgetting what is more than an hour old never changes what a later ask sees. */
  lemma AgedPrunes(s: State, history: seq<Record>, clock: Time, u: Time)
    requires Aged(s, history, clock) && clock <= u
    requires forall k :: 0 <= k < |history| ==> history[k].at <= u
    ensures Pruned(s, u).attempts == Since(Times(history), u - HOUR)
    ensures |Pruned(s, u).attempts| == Window(history, u)
    ensures Aged(Pruned(s, u), history, u) && Aged(s, history, u)
  {
    var since :| since <= clock - HOUR && s.attempts == Since(Times(history), since);
    SinceTwice(Times(history), since, u - HOUR);
    CountSince(history, u);
    assert since <= u - HOUR;
  }

  lemma AgedNote(s: State, history: seq<Record>, clock: Time, r: Record)
    requires Aged(s, history, clock) && clock <= r.at <= r.until
    ensures Aged(Noted(s, r.succeeded, r.authFailure, r.at, r.until), history + [r], r.until)
  {
    var since :| since <= clock - HOUR && s.attempts == Since(Times(history), since);
    var after := Noted(s, r.succeeded, r.authFailure, r.at, r.until);
    assert (history + [r])[..|history|] == history;
    TimesAppend(history, r);
    SinceAppend(Times(history), r.at, since);
    assert since <= r.until - HOUR && after.attempts == Since(Times(history + [r]), since);
  }

  lemma WindowsStayBounded(history: seq<Record>, clock: Time, r: Record)
    requires (forall k :: 0 <= k < |history| ==> history[k].at <= clock) && clock <= r.at
    requires Window(history, clock) < MAX_RUNS && forall to :: Window(history, to) <= MAX_RUNS
    ensures forall to :: Window(history + [r], to) <= MAX_RUNS
  {
    var longer := history + [r];
    assert longer[..|history|] == history;
    forall to ensures Window(longer, to) <= MAX_RUNS {
      assert Window(history, to) <= MAX_RUNS;
      if clock <= to { LaterWindow(history, clock, to); }
    }
  }

  lemma AskKeeps(l: Loop, t: Time, u: Time)
    requires Inv(l) && Possible(l, Asks(t, u))
    ensures Inv(Next(l, Asks(t, u)))
    ensures Allows(l.mem, t, u) <==> HistoryAllows(l.history, t, u)
  {
    AgedPrunes(l.mem, l.history, l.clock, u);
    AgedPrunes(l.file, l.history, l.clock, u);
  }

  lemma NoteKeeps(l: Loop, succeeded: bool, auth: bool, t: Time, u: Time)
    requires Inv(l) && Possible(l, Notes(succeeded, auth, t, u))
    ensures Inv(Next(l, Notes(succeeded, auth, t, u)))
  {
    hide Window, Aged;
    var r := Record(t, succeeded, auth, u);
    assert (l.history + [r])[..|l.history|] == l.history;
    AgedNote(l.mem, l.history, l.clock, r);
    WindowsStayBounded(l.history, l.clock, r);
    assert l.mem.failures == Streak(l.history) by { AgedCounts(l.mem, l.history, l.clock); }
  }

  lemma AgedCounts(s: State, history: seq<Record>, clock: Time)
    requires Aged(s, history, clock)
    ensures s.failures == Streak(history)
  {
  }

  lemma {:induction false} RunKeeps(events: seq<Event>)
    requires Legal(events)
    ensures Inv(After(events))
  {
    hide Possible, Next;
    if events == [] {
      assert Since(Times([]), -HOUR) == [];
      assert forall to :: Window([], to) == 0;
    } else {
      var front, last := events[..|events| - 1], events[|events| - 1];
      RunKeeps(front);
      EventKeeps(After(front), last);
    }
  }

  lemma EventKeeps(l: Loop, e: Event)
    requires Inv(l) && Possible(l, e)
    ensures Inv(Next(l, e))
  {
    match e
    case Asks(t, u) => AskKeeps(l, t, u);
    case Notes(succeeded, auth, t, u) => NoteKeeps(l, succeeded, auth, t, u);
    case Restarts =>
  }

  /** The k-th run was an auth failure and no run from it on succeeded. */
  predicate Counts(history: seq<Record>, k: int) {
    && 0 <= k < |history| && history[k].authFailure
    && forall j :: k <= j < |history| ==> !history[j].succeeded
  }

  /** The auth failures since the last success, as positions in the history. */
  function Counted(history: seq<Record>): set<int> { set k | 0 <= k < |history| && Counts(history, k) }

  lemma {:induction false} StreakMeans(history: seq<Record>)
    ensures Streak(history) == |Counted(history)|
    ensures LastAuthFailure(history).Some? <==> Counted(history) != {}
    ensures LastAuthFailure(history).Some? ==>
      exists k :: Counts(history, k) && LastAuthFailure(history).value == history[k].until
                  && forall j :: Counts(history, j) ==> j <= k
  {
    if history != [] {
      var n := |history| - 1;
      var front, last := history[..n], history[n];
      StreakMeans(front);
      if last.succeeded {
        forall k | 0 <= k < |history| ensures !Counts(history, k) { assert k <= n < |history| && history[n] == last; }
        assert Counted(history) == {};
      } else {
        assert forall k :: 0 <= k < n ==> (Counts(history, k) <==> Counts(front, k));
        assert Counts(history, n) <==> last.authFailure;
        assert Counted(history) == Counted(front) + if last.authFailure then {n} else {};
        if last.authFailure { assert Counts(history, n) && LastAuthFailure(history).value == history[n].until; }
      }
    }
  }

  /** The runs recorded in [from, to], as positions in the history. */
  function Within(history: seq<Record>, from: Time, to: Time): set<int> {
    set k | 0 <= k < |history| && from <= history[k].at <= to
  }

  lemma {:induction false} RecordedMeans(history: seq<Record>, from: Time, to: Time)
    ensures Recorded(history, from, to) == |Within(history, from, to)|
  {
    if history != [] {
      var n := |history| - 1;
      RecordedMeans(history[..n], from, to);
      assert Within(history, from, to)
          == Within(history[..n], from, to) + if from <= history[n].at <= to then {n} else {};
    }
  }

  /** Pruning and restarting never change an answer. It is no exactly while the last
      of three or more auth failures since the last success is less than an hour
      old, or the past hour, both ends included, holds twelve recorded runs. */
  lemma AnswersAsFullHistory(events: seq<Event>, t: Time, u: Time)
    requires Legal(events) && After(events).clock <= t <= u
    ensures Allows(After(events).mem, t, u) <==> HistoryAllows(After(events).history, t, u)
    ensures var h := After(events).history;
            Allows(After(events).mem, t, u) <==>
              && (|Counted(h)| >= 3 ==>
                    exists k :: Counts(h, k) && (forall j :: Counts(h, j) ==> j <= k) && t >= h[k].until + 3600)
              && |Within(h, u - 3600, u)| < 12
  {
    RunKeeps(events);
    AskKeeps(After(events), t, u);
    StreakMeans(After(events).history);
    RecordedMeans(After(events).history, u - 3600, u);
  }

  /** No hour, wherever it starts, holds more than twelve recorded runs. */
  lemma HourlyCap(events: seq<Event>, to: Time)
    requires Legal(events)
    ensures |Within(After(events).history, to - 3600, to)| <= 12
  {
    RunKeeps(events);
    RecordedMeans(After(events).history, to - 3600, to);
    assert Window(After(events).history, to) <= MAX_RUNS;
  }

  lemma {:induction false} FailureIsRecent(history: seq<Record>, k: nat)
    requires k < |history| && history[k].authFailure && forall j :: k <= j < |history| ==> !history[j].succeeded
    requires forall i, j :: 0 <= i < j < |history| ==> history[i].until <= history[j].until
    ensures LastAuthFailure(history).Some? && history[k].until <= LastAuthFailure(history).value
  {
    var n := |history| - 1;
    if !history[n].authFailure {
      FailureIsRecent(history[..n], k);
    }
  }

  lemma {:induction false} StreakGrows(history: seq<Record>, k: nat)
    requires k <= |history| && forall j :: k <= j < |history| ==> !history[j].succeeded
    ensures Streak(history[..k]) <= Streak(history)
  {
    if k < |history| {
      assert history[..|history| - 1][..k] == history[..k];
      StreakGrows(history[..|history| - 1], k);
    } else {
      assert history[..k] == history;
    }
  }

  lemma {:induction false} HistoryAscends(events: seq<Event>)
    requires Legal(events)
    ensures var h := After(events).history; forall i, j :: 0 <= i < j < |h| ==>
        h[i].until <= h[j].at && h[i].until <= h[j].until
  {
    if events != [] {
      HistoryAscends(events[..|events| - 1]);
      RunKeeps(events[..|events| - 1]);
    }
  }

  /** From the third auth failure since the last success on, an allowed ask comes
      at least an hour after each such failure. Failures of other kinds between
      them neither reset nor advance the count. */
  lemma BreakerSpacing(events: seq<Event>, k: nat, t: Time, u: Time)
    requires Legal(events) && After(events).clock <= t <= u
    requires var h := After(events).history;
             Counts(h, k) && |Counted(h[..k + 1])| >= 3
    requires Allows(After(events).mem, t, u)
    ensures t >= After(events).history[k].at + 3600
  {
    var h := After(events).history;
    RunKeeps(events);
    AnswersAsFullHistory(events, t, u);
    HistoryAscends(events);
    StreakMeans(h[..k + 1]);
    StreakGrows(h, k + 1);
    FailureIsRecent(h, k);
  }

  /** A success brings the streak to zero, and with fewer than three auth failures
      since the last one the breaker is closed: only the hourly cap can refuse. */
  lemma SuccessCloses(events: seq<Event>, t: Time, u: Time)
    requires Legal(events) && After(events).clock <= t <= u && |Counted(After(events).history)| < 3
    ensures Allows(After(events).mem, t, u) <==> |Within(After(events).history, u - 3600, u)| < 12
  {
    AnswersAsFullHistory(events, t, u);
  }
}
