/** Small shared vocabulary. */
module Prelude {

  datatype Option<+T> = None | Some(value: T)

  datatype Result<+T, +E> = Ok(value: T) | Err(error: E)

  /** strings.Contains */
  predicate Contains(s: string, part: string) { exists i :: 0 <= i <= |s| && part <= s[i..] }

  lemma ContainsMeans(s: string, part: string)
    ensures Contains(s, part) <==> exists a, b :: s == a + part + b
  {
    if Contains(s, part) {
      var i :| 0 <= i <= |s| && part <= s[i..];
      assert s == s[..i] + part + s[i + |part|..];
    }
    if a, b :| s == a + part + b {
      assert s[|a|..] == part + b;
      assert part <= s[|a|..];
    }
  }

  /** The elements of `s`, as a set. */
  function Elements<T>(s: seq<T>): set<T> { set x | x in s }

  lemma {:induction false} DistinctLength<T>(s: seq<T>)
    requires forall i, j :: 0 <= i < j < |s| ==> s[i] != s[j]
    ensures |Elements(s)| == |s|
  {
    if s != [] {
      var rest := s[..|s| - 1];
      DistinctLength(rest);
      assert Elements(s) == Elements(rest) + {s[|s| - 1]};
    }
  }

  predicate IsLeast(s: set<nat>, m: nat) {
    m in s && forall x :: x in s ==> m <= x
  }

  lemma LeastExists(s: set<nat>)
    requires s != {}
    ensures exists m :: IsLeast(s, m)
  {
    var y :| y in s;
    var rest := s - {y};
    if rest == {} {
      assert s == {y};
      assert IsLeast(s, y);
    } else {
      LeastExists(rest);
      var m :| IsLeast(rest, m);
      var least := if y <= m then y else m;
      forall x | x in s ensures least <= x { assert x == y || x in rest; }
      assert IsLeast(s, least);
    }
  }

  /** The least member of a nonempty set of naturals. */
  function Least(s: set<nat>): (m: nat)
    requires s != {}
    ensures m in s && forall x :: x in s ==> m <= x
  {
    LeastExists(s);
    var m :| IsLeast(s, m);
    m
  }

  predicate IsGreatest(s: set<nat>, m: nat) {
    m in s && forall x :: x in s ==> x <= m
  }

  lemma GreatestExists(s: set<nat>)
    requires s != {}
    ensures exists m :: IsGreatest(s, m)
  {
    var y :| y in s;
    var rest := s - {y};
    if rest == {} {
      assert s == {y};
      assert IsGreatest(s, y);
    } else {
      GreatestExists(rest);
      var m :| IsGreatest(rest, m);
      var greatest := if m <= y then y else m;
      forall x | x in s ensures x <= greatest { assert x == y || x in rest; }
      assert IsGreatest(s, greatest);
    }
  }

  function Greatest(s: set<nat>): (m: nat)
    requires s != {}
    ensures m in s && forall x :: x in s ==> x <= m
  {
    GreatestExists(s);
    var m :| IsGreatest(s, m);
    m
  }

  predicate StrictlyAscending(s: seq<nat>) {
    forall i, j :: 0 <= i < j < |s| ==> s[i] < s[j]
  }

  /** The members of `s` in increasing order. */
  function Ascending(s: set<nat>): (r: seq<nat>)
    ensures StrictlyAscending(r)
    ensures forall x :: x in r <==> x in s
  {
    if s == {} then []
    else
      var m := Least(s);
      [m] + Ascending(s - {m})
  }
}
