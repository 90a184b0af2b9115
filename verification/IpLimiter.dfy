/** The per-IP limiter of the enrol endpoint (`internal/api/discovery.go`) against
    a limiter that remembers every attempt. */
module IpLimiter {
  import opened Prelude
  import opened Slices

  type Time = int // nanoseconds
  type Ip(==, !new)

  const EVICT_ABOVE := 4096

  datatype Slice = Slice(buf: array<Time>, len: nat)

  // ------------------------------------------------ the method, on values

  function Entry(log: map<Ip, seq<Time>>, ip: Ip): seq<Time> { if ip in log then log[ip] else [] }

  /** t.After(now - window), on whole nanoseconds. */
  function Kept(log: map<Ip, seq<Time>>, ip: Ip, window: Time, now: Time): seq<Time> {
    Since(Entry(log, ip), now - window + 1)
  }

  predicate Allows(log: map<Ip, seq<Time>>, max: int, window: Time, ip: Ip, now: Time) {
    |Kept(log, ip, window, now)| < max
  }

  function Evicted(log: map<Ip, seq<Time>>): map<Ip, seq<Time>> {
    if |log| > EVICT_ABOVE then map ip | ip in log && log[ip] != [] :: log[ip] else log
  }

  function Served(log: map<Ip, seq<Time>>, max: int, window: Time, ip: Ip, now: Time): map<Ip, seq<Time>> {
    var kept := Kept(log, ip, window, now);
    if |kept| >= max then log[ip := kept] else Evicted(log[ip := kept + [now]])
  }

  /** An attempt passes if and only if fewer than max of the times kept for its
      address are younger than the window. */
  lemma AllowsMeans(log: map<Ip, seq<Time>>, max: int, window: Time, ip: Ip, now: Time)
    ensures Allows(log, max, window, ip, now) <==>
              if ip in log then |set k | 0 <= k < |log[ip]| && log[ip][k] > now - window| < max else max > 0
  {
    SinceMeans(Entry(log, ip), [], now - window + 1);
    if ip in log {
      assert (set k | 0 <= k < |log[ip]| && log[ip][k] > now - window)
          == set k | 0 <= k < |Entry(log, ip)| && Entry(log, ip)[k] >= now - window + 1;
    }
  }

  lemma SameSize<K, V, W>(a: map<K, V>, b: map<K, W>)
    requires a.Keys == b.Keys
    ensures |a| == |b|
  {
    assert |a| == |a.Keys| && |b| == |b.Keys|;
  }

  lemma SameElsewhere<K, V>(a: map<K, V>, b: map<K, V>, k: K, v: V)
    requires a - {k} == b - {k}
    ensures a[k := v] == b[k := v]
  {
    assert a[k := v] == (a - {k})[k := v] && b[k := v] == (b - {k})[k := v];
  }

  class Limiter {
    const max: int
    const window: Time
    var hits: map<Ip, Slice>

    constructor (max: int, window: Time)
      ensures Valid() && Bufs() == {} && Log() == map[] && this.max == max && this.window == window
    {
      this.max, this.window, hits := max, window, map[];
    }

    function Bufs(): set<object>
      reads this
    {
      set ip | ip in hits :: hits[ip].buf
    }

    /** Every address has a backing array of its own. */
    ghost predicate Valid()
      reads this
    {
      && (forall ip :: ip in hits ==> hits[ip].len <= hits[ip].buf.Length)
      && (forall ip, other :: ip in hits && other in hits && ip != other ==> hits[ip].buf != hits[other].buf)
    }

    ghost function Log(): map<Ip, seq<Time>>
      requires Valid()
      reads this, Bufs()
    {
      map ip | ip in hits :: hits[ip].buf[..hits[ip].len]
    }

    /** s shares no array with any other address. */
    ghost predicate Own(ip: Ip, s: Slice)
      reads this
    {
      s.len <= s.buf.Length && forall other :: other in hits && other != ip ==> hits[other].buf != s.buf
    }

    /** hits[ip] = s */
    method Put(ip: Ip, s: Slice)
      requires Valid() && Own(ip, s)
      modifies this`hits
      ensures Valid() && Bufs() <= old(Bufs()) + {s.buf} && Log() == old(Log())[ip := s.buf[..s.len]]
    {
      hits := hits[ip := s];
    }

    /** hits[ip] = append(s, now) */
    method Record(ip: Ip, s: Slice, now: Time)
      requires Valid() && Own(ip, s)
      modifies this`hits, s.buf
      ensures Valid() && fresh(Bufs() - old(Bufs()) - {s.buf}) && Log() == old(Log())[ip := old(s.buf[..s.len]) + [now]]
    {
      ghost var before := Log();
      var buf := Append(s.buf, s.len, now);
      assert Log() - {ip} == before - {ip};
      Put(ip, Slice(buf, s.len + 1));
    }

    /** The filter loop: the recent times of ip, in the array they were in. */
    method KeepRecent(ip: Ip, now: Time) returns (s: Slice)
      requires Valid()
      modifies Bufs()
      ensures Valid() && Own(ip, s) && (s.buf in Bufs() || fresh(s.buf))
      ensures s.buf[..s.len] == Kept(old(Log()), ip, window, now) && Log() - {ip} == old(Log()) - {ip}
    {
      if ip in hits {
        s := hits[ip];
      } else {
        var none := new Time[0];
        s := Slice(none, 0);
      }
      assert s.buf[..s.len] == Entry(Log(), ip);
      var kept := Compact(s.buf, s.len, now - window + 1);
      s := Slice(s.buf, kept);
    }

    method Evict()
      requires Valid()
      modifies this`hits
      ensures Valid() && Bufs() <= old(Bufs()) && Log() == Evicted(old(Log()))
      ensures Log() == if |old(Log())| <= 4096 then old(Log())
                       else map ip | ip in old(Log()) && old(Log())[ip] != [] :: old(Log())[ip]
    {
      ghost var before := Log();
      SameSize(before, hits);
      if |hits| > EVICT_ABOVE {
        hits := map k | k in hits && hits[k].len != 0 :: hits[k];
      }
    }

    method Allow(ip: Ip, now: Time) returns (ok: bool)
      requires Valid()
      modifies this`hits, Bufs()
      ensures Valid() && fresh(Bufs() - old(Bufs()))
      ensures ok == Allows(old(Log()), max, window, ip, now)
      ensures Log() == Served(old(Log()), max, window, ip, now)
    {
      hide Since, Evicted;
      ghost var before := Log();
      var s := KeepRecent(ip, now);
      if s.len >= max {
        SameElsewhere(Log(), before, ip, s.buf[..s.len]);
        Put(ip, s);
        return false;
      }
      SameElsewhere(Log(), before, ip, s.buf[..s.len] + [now]);
      Record(ip, s, now);
      Evict();
      return true;
    }
  }

  // ------------------------------------------------------- whole histories

  datatype Attempt = Attempt(ip: Ip, at: Time)

  /** Attempts in the order the lock served them; `at` was read before the lock. */
  type History = seq<Attempt>

  /** The limiter's map after serving the attempts. */
  function LogAfter(history: History, max: int, window: Time): map<Ip, seq<Time>> {
    if history == [] then map[]
    else
      var a := history[|history| - 1];
      Served(LogAfter(history[..|history| - 1], max, window), max, window, a.ip, a.at)
  }

  /** The class serving a whole history, from an empty map on. So every result
      below about LogAfter and Granted holds of the class. */
  method ServeAll(history: History, max: int, window: Time) returns (limiter: Limiter, passed: seq<bool>)
    ensures fresh(limiter) && limiter.Valid() && limiter.Log() == LogAfter(history, max, window)
    ensures |passed| == |history|
    ensures forall k :: 0 <= k < |history| ==>
              passed[k] == Allows(LogAfter(history[..k], max, window), max, window, history[k].ip, history[k].at)
  {
    hide Since, Served, Evicted, Allows, LogAfter;
    limiter := new Limiter(max, window);
    passed := [];
    assert LogAfter(history[..0], max, window) == map[] by { LogStep(history, 0, max, window); }
    for i := 0 to |history|
      invariant fresh(limiter) && fresh(limiter.Bufs()) && limiter.Valid()
      invariant limiter.max == max && limiter.window == window
      invariant limiter.Log() == LogAfter(history[..i], max, window) && |passed| == i
      invariant forall k :: 0 <= k < i ==>
                  passed[k] == Allows(LogAfter(history[..k], max, window), max, window, history[k].ip, history[k].at)
    {
      LogStep(history, i + 1, max, window);
      var ok := limiter.Allow(history[i].ip, history[i].at);
      passed := passed + [ok];
    }
    assert history[..|history|] == history;
  }

  lemma LogStep(history: History, n: nat, max: int, window: Time)
    requires n <= |history|
    ensures LogAfter(history[..n], max, window)
         == if n == 0 then map[]
            else Served(LogAfter(history[..n - 1], max, window), max, window, history[n - 1].ip, history[n - 1].at)
  {
    if n > 0 { assert history[..n][..n - 1] == history[..n - 1]; }
  }

  /** The times at which the limiter let ip through. */
  function Granted(history: History, max: int, window: Time, ip: Ip): seq<Time> {
    if history == [] then []
    else
      var front, a := history[..|history| - 1], history[|history| - 1];
      if a.ip == ip && Allows(LogAfter(front, max, window), max, window, ip, a.at)
      then Granted(front, max, window, ip) + [a.at] else Granted(front, max, window, ip)
  }

  /** The latest clock reading among ip's attempts and `now`. */
  function Latest(history: History, ip: Ip, now: Time): Time {
    if history == [] then now
    else
      var a, rest := history[|history| - 1], Latest(history[..|history| - 1], ip, now);
      if a.ip == ip && a.at > rest then a.at else rest
  }

  function Later(a: Time, b: Time): Time { if a <= b then b else a }

  /** An address's attempts are served at most a window out of clock order. */
  predicate Prompt(history: History, ip: Ip, window: Time) {
    forall i, j :: 0 <= i < j < |history| && history[i].ip == ip && history[j].ip == ip ==>
      history[i].at < history[j].at + window
  }

  lemma OtherEntries(log: map<Ip, seq<Time>>, max: int, window: Time, ip: Ip, now: Time, other: Ip)
    requires other != ip
    ensures Entry(Served(log, max, window, ip, now), other) == Entry(log, other)
  {
  }

  lemma OwnEntry(log: map<Ip, seq<Time>>, max: int, window: Time, ip: Ip, now: Time)
    ensures var kept := Kept(log, ip, window, now);
            Entry(Served(log, max, window, ip, now), ip) == if |kept| >= max then kept else kept + [now]
  {
  }

  /** Cutting at `a` and then at `b`, in whichever order the clock gave them. */
  lemma {:induction false} SinceBoth(s: seq<int>, a: int, b: int)
    ensures Since(Since(s, a), b) == Since(s, if a <= b then b else a)
  {
    if s != [] { SinceBoth(s[..|s| - 1], a, b); }
  }

  lemma {:induction false} LatestSwap(history: History, ip: Ip, a: Time, b: Time)
    ensures Later(Latest(history, ip, a), b) == Later(a, Latest(history, ip, b))
  {
    if history != [] { LatestSwap(history[..|history| - 1], ip, a, b); }
  }

  lemma {:induction false} LatestBounds(history: History, ip: Ip, now: Time)
    ensures now <= Latest(history, ip, now)
    ensures forall k :: 0 <= k < |history| && history[k].ip == ip ==> history[k].at <= Latest(history, ip, now)
    ensures Latest(history, ip, now) == now
            || exists k :: 0 <= k < |history| && history[k].ip == ip && history[k].at == Latest(history, ip, now)
  {
    if history != [] {
      LatestBounds(history[..|history| - 1], ip, now);
      assert forall k :: 0 <= k < |history| - 1 ==> history[..|history| - 1][k] == history[k];
    }
  }

  /** What an attempt at `now` is measured against: the times granted to its own
      address since a window before the latest clock reading that address was
      ever served with. Nothing else is lost by compaction, eviction or other
      addresses. */
  lemma {:induction false} CountsGranted(history: History, max: int, window: Time, ip: Ip, now: Time)
    requires window > 0 && Prompt(history, ip, window)
    ensures Kept(LogAfter(history, max, window), ip, window, now)
         == Since(Granted(history, max, window, ip), Latest(history, ip, now) - window + 1)
  {
    hide Since, Served, Latest, Prompt;
    if history == [] {
      SinceNothing(now - window + 1);
      SinceNothing(Latest(history, ip, now) - window + 1);
    } else {
      var front, a := history[..|history| - 1], history[|history| - 1];
      PromptFront(history, ip, window);
      LatestStep(history, ip, now);
      if a.ip != ip {
        CountsGranted(front, max, window, ip, now);
        OtherEntries(LogAfter(front, max, window), max, window, a.ip, a.at, ip);
      } else {
        CountsGranted(front, max, window, ip, a.at);
        OwnEntry(LogAfter(front, max, window), max, window, ip, a.at);
        LatestSwap(front, ip, a.at, now);
        CutAgain(Granted(front, max, window, ip), a.at, Latest(front, ip, a.at), now, Latest(history, ip, now), window);
      }
    }
  }

  lemma SinceNothing(since: int)
    ensures Since([], since) == []
  {
  }

  lemma LatestStep(history: History, ip: Ip, now: Time)
    requires history != []
    ensures var a, rest := history[|history| - 1], Latest(history[..|history| - 1], ip, now);
            Latest(history, ip, now) == if a.ip == ip then Later(a.at, rest) else rest
  {
  }

  lemma PromptFront(history: History, ip: Ip, window: Time)
    requires window > 0 && history != [] && Prompt(history, ip, window)
    ensures var front, a := history[..|history| - 1], history[|history| - 1];
            Prompt(front, ip, window) && (a.ip == ip ==> a.at <= Latest(front, ip, a.at) < a.at + window)
  {
    LatestBounds(history[..|history| - 1], ip, history[|history| - 1].at);
  }

  /** Cutting after the attempt at `at`, then at `now`, is cutting once at the latest. */
  lemma CutAgain(granted: seq<Time>, at: Time, before: Time, now: Time, latest: Time, window: Time)
    requires at <= before < at + window && latest == Later(before, now)
    ensures var kept := Since(granted, before - window + 1);
            && Since(kept, now - window + 1) == Since(granted, latest - window + 1)
            && Since(kept + [at], now - window + 1) == Since(granted + [at], latest - window + 1)
  {
    hide Since;
    SinceBoth(granted, before - window + 1, now - window + 1);
    SinceAppend(Since(granted, before - window + 1), at, now - window + 1);
    SinceAppend(granted, at, latest - window + 1);
  }

  /** The limiter has forgotten grants that a limiter which never forgets would
      still count against this attempt, and they make the difference. */
  predicate Forgets(history: History, max: int, window: Time, ip: Ip, now: Time) {
    var granted := Granted(history, max, window, ip);
    |Since(granted, Latest(history, ip, now) - window + 1)| < max <= |Since(granted, now - window + 1)|
  }

  /** In any serving order less than a window out of clock order, an attempt is
      answered as a limiter that never forgets would answer it, if and only if
      what was forgotten makes no difference. */
  lemma AgreesExactly(history: History, max: int, window: Time, ip: Ip, now: Time)
    requires window > 0 && Prompt(history, ip, window)
    ensures (Allows(LogAfter(history, max, window), max, window, ip, now)
             <==> |Since(Granted(history, max, window, ip), now - window + 1)| < max)
            <==> !Forgets(history, max, window, ip, now)
  {
    hide LogAfter, Granted, Since, Latest, Kept, Prompt;
    CountsGranted(history, max, window, ip, now);
    LatestBounds(history, ip, now);
    SinceShorter(Granted(history, max, window, ip), now - window + 1, Latest(history, ip, now) - window + 1);
  }

  // ------------------------------------------------ the clock never goes back

  predicate Monotone(history: History, ip: Ip) {
    forall i, j :: 0 <= i < j < |history| && history[i].ip == ip && history[j].ip == ip ==>
        history[i].at <= history[j].at
  }

  /** The naive limiter's list: every attempt is checked against all times granted so far. */
  function Naive(history: History, max: int, window: Time, ip: Ip): seq<Time> {
    if history == [] then []
    else
      var a, granted := history[|history| - 1], Naive(history[..|history| - 1], max, window, ip);
      if a.ip == ip && |Since(granted, a.at - window + 1)| < max then granted + [a.at] else granted
  }

  /** One more attempt passes if and only if fewer than max grants of its address,
      out of all there ever were, are younger than the window. */
  lemma NaiveMeans(history: History, max: int, window: Time, a: Attempt, ip: Ip)
    ensures var granted := Naive(history, max, window, ip);
            Naive(history + [a], max, window, ip)
            == if a.ip == ip && |set k | 0 <= k < |granted| && granted[k] > a.at - window| < max
               then granted + [a.at] else granted
  {
    var granted := Naive(history, max, window, ip);
    SinceMeans(granted, [], a.at - window + 1);
    assert (set k | 0 <= k < |granted| && granted[k] > a.at - window)
        == set k | 0 <= k < |granted| && granted[k] >= a.at - window + 1;
    assert (history + [a])[..|history|] == history;
  }

  /** No attempt of ip met grants forgotten to its advantage. */
  predicate NeverForgets(history: History, max: int, window: Time, ip: Ip) {
    if history == [] then true
    else
      var front, a := history[..|history| - 1], history[|history| - 1];
      NeverForgets(front, max, window, ip) && (a.ip == ip ==> !Forgets(front, max, window, ip, a.at))
  }

  /** Up to every point of the history both limiters granted the same. */
  predicate AlwaysNaive(history: History, max: int, window: Time, ip: Ip) {
    Granted(history, max, window, ip) == Naive(history, max, window, ip)
    && (history == [] || AlwaysNaive(history[..|history| - 1], max, window, ip))
  }

  /** Over a whole history: the limiter has granted what the naive one grants, at
      every point, if and only if it never forgot a grant that mattered. */
  lemma {:induction false} NaiveExactly(history: History, max: int, window: Time, ip: Ip)
    requires window > 0 && Prompt(history, ip, window)
    ensures AlwaysNaive(history, max, window, ip) <==> NeverForgets(history, max, window, ip)
  {
    hide Since, LogAfter, Latest, Kept, Allows, Forgets, Prompt;
    if history != [] {
      var front, a := history[..|history| - 1], history[|history| - 1];
      PromptFront(history, ip, window);
      NaiveExactly(front, max, window, ip);
      if a.ip == ip {
        AgreesExactly(front, max, window, ip, a.at);
        var granted := Granted(front, max, window, ip);
        assert |granted + [a.at]| != |granted|;
      }
    }
  }

  /** Served in clock order, the limiter grants exactly what one that never
      forgets would: an attempt passes if and only if fewer than max of its
      address's grants are younger than the window. */
  lemma {:induction false} GrantsAsNaive(history: History, max: int, window: Time, ip: Ip)
    requires window > 0 && Monotone(history, ip)
    ensures Granted(history, max, window, ip) == Naive(history, max, window, ip)
  {
    hide Since, LogAfter, Latest, Kept;
    if history != [] {
      var front, a := history[..|history| - 1], history[|history| - 1];
      GrantsAsNaive(front, max, window, ip);
      if a.ip == ip { InOrderCounts(history, max, window); }
    }
  }

  lemma InOrderCounts(history: History, max: int, window: Time)
    requires history != [] && window > 0 && Monotone(history, history[|history| - 1].ip)
    ensures var front, a := history[..|history| - 1], history[|history| - 1];
            Kept(LogAfter(front, max, window), a.ip, window, a.at)
                == Since(Granted(front, max, window, a.ip), a.at - window + 1)
  {
    hide Since, LogAfter, Kept, Granted;
    var front, a := history[..|history| - 1], history[|history| - 1];
    CountsGranted(front, max, window, a.ip, a.at);
    LatestBounds(front, a.ip, a.at);
  }

  /** How many of the times lie in the half-open window (to - window, to]. */
  function InWindow(times: seq<Time>, window: Time, to: Time): nat {
    if times == [] then 0
    else
      var t := times[|times| - 1];
      InWindow(times[..|times| - 1], window, to) + if to - window < t <= to then 1 else 0
  }

  lemma {:induction false} InWindowMeans(times: seq<Time>, window: Time, to: Time)
    ensures InWindow(times, window, to) == |set k | 0 <= k < |times| && to - window < times[k] <= to|
  {
    if times != [] {
      var n := |times| - 1;
      InWindowMeans(times[..n], window, to);
      assert (set k | 0 <= k < |times| && to - window < times[k] <= to)
          == (set k | 0 <= k < n && to - window < times[..n][k] <= to)
             + if to - window < times[n] <= to then {n} else {};
    }
  }

  lemma {:induction false} WindowCounts(times: seq<Time>, window: Time, to: Time, now: Time)
    requires now <= to
    ensures InWindow(times, window, to) <= |Since(times, now - window + 1)|
  {
    if times != [] { WindowCounts(times[..|times| - 1], window, to, now); }
  }

  /** In whatever order attempts are served, a limiter that never forgets lets no
      more than max through in any window. */
  lemma {:induction false} NaiveBound(history: History, max: int, window: Time, ip: Ip, to: Time)
    requires max >= 0
    ensures InWindow(Naive(history, max, window, ip), window, to) <= max
  {
    hide Since;
    if history != [] {
      var front, a := history[..|history| - 1], history[|history| - 1];
      NaiveBound(front, max, window, ip, to);
      var granted := Naive(front, max, window, ip);
      assert (granted + [a.at])[..|granted|] == granted;
      if a.at <= to { WindowCounts(granted, window, to, a.at); }
    }
  }

  /** Served less than a window out of clock order, the limiter keeps every window
      (to - w, to] at max grants of one address, as long as it forgot no grant that
      mattered. */
  lemma PromptBound(history: History, max: int, window: Time, ip: Ip, to: Time)
    requires window > 0 && Prompt(history, ip, window) && NeverForgets(history, max, window, ip) && max >= 0
    ensures InWindow(Granted(history, max, window, ip), window, to) <= max
  {
    hide Granted, Naive, InWindow, Prompt, NeverForgets;
    NaiveExactly(history, max, window, ip);
    NaiveBound(history, max, window, ip, to);
  }

  /** In clock order no window ever holds more than max. */
  lemma WindowBound(history: History, max: int, window: Time, ip: Ip, to: Time)
    requires window > 0 && Monotone(history, ip) && max >= 0
    ensures InWindow(Granted(history, max, window, ip), window, to) <= max
  {
    hide Granted, Naive, InWindow;
    GrantsAsNaive(history, max, window, ip);
    NaiveBound(history, max, window, ip, to);
  }

  /** One more attempt. */
  lemma ServeOne(history: History, max: int, window: Time, a: Attempt)
    ensures LogAfter(history + [a], max, window) == Served(LogAfter(history, max, window), max, window, a.ip, a.at)
    ensures Granted(history + [a], max, window, a.ip)
         == Granted(history, max, window, a.ip)
             + if Allows(LogAfter(history, max, window), max, window, a.ip, a.at) then [a.at] else []
  {
    assert (history + [a])[..|history|] == history;
  }

  lemma SinceOne(t: Time, since: int)
    ensures Since([t], since) == if t >= since then [t] else []
  {
    SinceNothing(since);
    assert [t][..0] == [];
  }

  lemma SinceTwo(t: Time, u: Time, since: int)
    ensures Since([t, u], since) == (if t >= since then [t] else []) + if u >= since then [u] else []
  {
    SinceOne(t, since);
    assert [t, u][..1] == [t];
  }

  /** An attempt that passes, when no other address is remembered. */
  lemma ServeAlone(log: map<Ip, seq<Time>>, window: Time, ip: Ip, now: Time)
    requires log.Keys <= {ip} && |Kept(log, ip, window, now)| < 2
    ensures Served(log, 2, window, ip, now) == map[ip := Kept(log, ip, window, now) + [now]]
  {
    assert log[ip := Kept(log, ip, window, now) + [now]] == map[ip := Kept(log, ip, window, now) + [now]];
  }

  lemma FirstThree(ip: Ip)
    ensures var h := [Attempt(ip, 5)] + [Attempt(ip, 6)] + [Attempt(ip, 20)];
            LogAfter(h, 2, 10) == map[ip := [20]] && Granted(h, 2, 10, ip) == [5, 6, 20]
  {
    hide LogAfter, Granted, Since, Served;
    var a, b, c := Attempt(ip, 5), Attempt(ip, 6), Attempt(ip, 20);
    assert LogAfter([], 2, 10) == map[] && Granted([], 2, 10, ip) == [] by { NothingServed(2, 10, ip); }
    SinceNothing(-4);
    ServeOne([], 2, 10, a);
    ServeAlone(map[], 10, ip, 5);
    assert [] + [a] == [a] && [] + [5] == [5] && [5] + [6] == [5, 6] && [5, 6] + [20] == [5, 6, 20]
        && [] + [20] == [20];
    assert LogAfter([a], 2, 10) == map[ip := [5]] && Granted([a], 2, 10, ip) == [5];
    SinceOne(5, -3);
    ServeOne([a], 2, 10, b);
    ServeAlone(map[ip := [5]], 10, ip, 6);
    assert LogAfter([a] + [b], 2, 10) == map[ip := [5, 6]] && Granted([a] + [b], 2, 10, ip) == [5, 6];
    SinceTwo(5, 6, 11);
    ServeOne([a] + [b], 2, 10, c);
    ServeAlone(map[ip := [5, 6]], 10, ip, 20);
  }

  lemma NothingServed(max: int, window: Time, ip: Ip)
    ensures LogAfter([], max, window) == map[] && Granted([], max, window, ip) == []
  {
  }

  /** Served out of clock order, the bound fails: three grants within ten units
      where two are allowed, the last to a caller that read the clock early. */
  lemma OutOfOrderExceeds(ip: Ip)
    ensures var history := [Attempt(ip, 5)] + [Attempt(ip, 6)] + [Attempt(ip, 20)] + [Attempt(ip, 14)];
            InWindow(Granted(history, 2, 10, ip), 10, 14) == 3
  {
    hide LogAfter, Granted, Since;
    FirstThree(ip);
    SinceOne(20, 5);
    ServeOne([Attempt(ip, 5)] + [Attempt(ip, 6)] + [Attempt(ip, 20)], 2, 10, Attempt(ip, 14));
    assert [5, 6, 20] + [14] == [5, 6, 20, 14];
    assert [5, 6, 20, 14][..3] == [5, 6, 20] && [5, 6, 20][..2] == [5, 6] && [5, 6][..1] == [5] && [5][..0] == [];
  }

  /** Eviction finds nothing to evict: no address is ever left with an empty list. */
  lemma {:induction false} EvictionIdle(history: History, max: int, window: Time)
    requires max >= 1
    ensures forall ip :: ip in LogAfter(history, max, window) ==> LogAfter(history, max, window)[ip] != []
    ensures Evicted(LogAfter(history, max, window)) == LogAfter(history, max, window)
  {
    if history != [] { EvictionIdle(history[..|history| - 1], max, window); }
  }
}
