/** Go slices of times: a backing array and a length, compacted and appended to in place. */
module Slices {

  /** The elements from `since` on: the full history minus what has aged out. */
  function Since(s: seq<int>, since: int): seq<int> {
    if s == [] then []
    else
      var front := Since(s[..|s| - 1], since);
      if s[|s| - 1] >= since then front + [s[|s| - 1]] else front
  }

  lemma {:induction false} SinceMember(s: seq<int>, since: int)
    ensures |Since(s, since)| <= |s|
    ensures forall x :: x in Since(s, since) <==> x in s && x >= since
  {
    if s != [] {
      SinceMember(s[..|s| - 1], since);
      assert s == s[..|s| - 1] + [s[|s| - 1]];
    }
  }

  /** As many elements are kept as are recent enough, and they keep their order:
      what is kept of a sequence in two parts is what is kept of the parts. */
  lemma {:induction false} SinceMeans(s: seq<int>, t: seq<int>, since: int)
    ensures |Since(s, since)| == |set k | 0 <= k < |s| && s[k] >= since|
    ensures Since(s + t, since) == Since(s, since) + Since(t, since)
  {
    if s != [] {
      var n := |s| - 1;
      SinceMeans(s[..n], [], since);
      assert (set k | 0 <= k < |s| && s[k] >= since)
          == (set k | 0 <= k < n && s[..n][k] >= since) + if s[n] >= since then {n} else {};
    }
    SinceJoins(s, t, since);
  }

  lemma {:induction false} SinceJoins(s: seq<int>, t: seq<int>, since: int)
    ensures Since(s + t, since) == Since(s, since) + Since(t, since)
  {
    if t == [] {
      assert s + t == s;
    } else {
      var n := |t| - 1;
      SinceJoins(s, t[..n], since);
      assert (s + t)[..|s| + n] == s + t[..n];
    }
  }

  /** Dropping what is older than `a` and later what is older than `b` is dropping
      what is older than the later of the two. */
  lemma {:induction false} SinceTwice(s: seq<int>, a: int, b: int)
    requires a <= b
    ensures Since(Since(s, a), b) == Since(s, b)
  {
    if s != [] { SinceTwice(s[..|s| - 1], a, b); }
  }

  lemma SinceAppend(s: seq<int>, x: int, since: int)
    ensures Since(s + [x], since) == if x >= since then Since(s, since) + [x] else Since(s, since)
  {
    assert (s + [x])[..|s|] == s;
  }

  /** A later cut never keeps more. */
  lemma {:induction false} SinceShorter(s: seq<int>, a: int, b: int)
    requires a <= b
    ensures |Since(s, b)| <= |Since(s, a)|
  {
    if s != [] { SinceShorter(s[..|s| - 1], a, b); }
  }

  /** `kept := s[:0]; for _, t := range s { if t >= since { kept = append(kept, t) } }`:
      writes never run ahead of reads, so the array is reused as it is read. */
  method Compact(buf: array<int>, n: nat, since: int) returns (m: nat)
    requires n <= buf.Length
    modifies buf
    ensures m <= n && buf[..m] == Since(old(buf[..n]), since)
  {
    m := 0;
    var i := 0;
    while i < n
      invariant 0 <= m <= i <= n
      invariant buf[..m] == Since(old(buf[..i]), since)
      invariant forall k :: i <= k < n ==> buf[k] == old(buf[k])
    {
      assert old(buf[..i + 1])[..i] == old(buf[..i]);
      if buf[i] >= since {
        buf[m] := buf[i];
        m := m + 1;
      }
      i := i + 1;
    }
  }

  /** `append`: in place while there is capacity, else into a larger array. */
  method Append(buf: array<int>, n: nat, x: int) returns (longer: array<int>)
    requires n <= buf.Length
    modifies buf
    ensures n < longer.Length && longer[..n + 1] == old(buf[..n]) + [x]
    ensures longer == buf || fresh(longer)
  {
    if n < buf.Length {
      buf[n] := x;
      longer := buf;
    } else {
      longer := new int[2 * n + 1];
      forall k | 0 <= k < n { longer[k] := buf[k]; }
      longer[n] := x;
    }
  }
}
