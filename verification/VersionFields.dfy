/** How a version string falls into segments, and what comparing two of them means. */
module VersionFields {
  import opened Prelude
  import opened Versions

  /** A segment: not empty, and without a character versions are split at. */
  predicate Whole(s: string) { s != "" && forall i :: 0 <= i < |s| ==> s[i] !in {'.', '-', '_', '+'} }

  // ------------------------------------------------------------ the splitting

  lemma Nothing()
    ensures Fields("") == []
  {
  }

  /** A string with none of the four characters in it is one segment. */
  lemma {:induction false} WholeIsOne(v: string)
    requires Whole(v)
    ensures Fields(v) == [v]
  {
    if |v| == 1 {
      assert v[1..] == "" && v[..1] == v;
    } else {
      WholeIsOne(v[1..]);
      assert v[..1] + v[1..] == v;
    }
  }

  /** A string that does not begin with one of them begins with a segment. */
  lemma StartsWhole(v: string)
    requires v != "" && v[0] !in {'.', '-', '_', '+'}
    ensures Fields(v) != []
  {
  }

  /** What one more character in front makes of the segments. */
  lemma OneMore(c: char, v: string)
    ensures var rest := Fields(v);
            if c in {'.', '-', '_', '+'} then Fields([c] + v) == rest
            else if v == "" || v[0] in {'.', '-', '_', '+'} then Fields([c] + v) == [[c]] + rest
            else rest != [] && Fields([c] + v) == [[c] + rest[0]] + rest[1..]
  {
    var w := [c] + v;
    assert w[1..] == v && w[..1] == [c];
    if v != "" { assert w[1] == v[0]; }
    if c !in {'.', '-', '_', '+'} && v != "" && v[0] !in {'.', '-', '_', '+'} { StartsWhole(v); }
  }

  /** Each of the four characters separates what is before it from what is after. */
  lemma {:induction false} SplitsAt(a: string, c: char, b: string)
    requires c in {'.', '-', '_', '+'}
    ensures Fields(a + [c] + b) == Fields(a) + Fields(b)
  {
    hide Fields;
    if a == "" {
      Nothing();
      OneMore(c, b);
      assert a + [c] + b == [c] + b && [] + Fields(b) == Fields(b);
    } else {
      var tail := a[1..] + [c] + b;
      SplitsAt(a[1..], c, b);
      OneMore(a[0], tail);
      OneMore(a[0], a[1..]);
      assert a + [c] + b == [a[0]] + tail && a == [a[0]] + a[1..];
      assert tail[0] == if |a| == 1 then c else a[1];
    }
  }

  /** Two neighbouring characters fall into one segment if and only if neither is
      one of the four: only then do the parts on either side share a segment. */
  lemma {:induction false} Neighbours(v: string, i: nat)
    requires 0 < i < |v|
    ensures var a, b := Fields(v[..i]), Fields(v[i..]);
            if v[i - 1] !in {'.', '-', '_', '+'} && v[i] !in {'.', '-', '_', '+'}
            then a != [] && b != [] && Fields(v) == a[..|a| - 1] + [a[|a| - 1] + b[0]] + b[1..]
            else Fields(v) == a + b
  {
    if v[i - 1] in {'.', '-', '_', '+'} {
      SplitsAt(v[..i - 1], v[i - 1], v[i..]);
      SplitsAt(v[..i - 1], v[i - 1], "");
      Nothing();
      assert v == v[..i - 1] + [v[i - 1]] + v[i..] && v[..i] == v[..i - 1] + [v[i - 1]] + "";
    } else if v[i] in {'.', '-', '_', '+'} {
      SplitsAt(v[..i], v[i], v[i + 1..]);
      SplitsAt("", v[i], v[i + 1..]);
      Nothing();
      assert v == v[..i] + [v[i]] + v[i + 1..] && v[i..] == "" + [v[i]] + v[i + 1..];
    } else {
      JoinsAt(v, i);
    }
  }

  lemma {:induction false} JoinsAt(v: string, i: nat)
    requires 0 < i < |v| && v[i - 1] !in {'.', '-', '_', '+'} && v[i] !in {'.', '-', '_', '+'}
    ensures var a, b := Fields(v[..i]), Fields(v[i..]);
            a != [] && b != [] && Fields(v) == a[..|a| - 1] + [a[|a| - 1] + b[0]] + b[1..]
  {
    hide Fields;
    var tail, c := v[1..], v[0];
    assert v == [c] + tail && v[..i] == [c] + tail[..i - 1] && v[i..] == tail[i - 1..];
    OneMore(c, tail);
    OneMore(c, tail[..i - 1]);
    StartsWhole(v[i..]);
    if i == 1 {
      Nothing();
      assert tail[..0] == "" && tail[0..] == tail;
    } else {
      JoinsAt(tail, i - 1);
      Regroup(c, Fields(tail[..i - 1]), Fields(v[i..]));
    }
  }

  lemma Regroup(c: char, a: seq<string>, b: seq<string>)
    requires a != [] && b != []
    ensures var joined, more := a[..|a| - 1] + [a[|a| - 1] + b[0]] + b[1..], [[c] + a[0]] + a[1..];
            && [[c] + joined[0]] + joined[1..] == more[..|a| - 1] + [more[|a| - 1] + b[0]] + b[1..]
            && [[c]] + joined == ([[c]] + a)[..|a|] + [([[c]] + a)[|a|] + b[0]] + b[1..]
  {
    if |a| == 1 { assert [c] + (a[0] + b[0]) == ([c] + a[0]) + b[0]; }
  }

  /** No segment is empty, and none contains one of the four. */
  lemma {:induction false} SegmentsAreWhole(v: string)
    ensures forall i :: 0 <= i < |Fields(v)| ==> Whole(Fields(v)[i])
  {
    if v != "" { SegmentsAreWhole(v[1..]); }
  }

  function Concat(fields: seq<string>): string { if fields == [] then "" else fields[0] + Concat(fields[1..]) }

  /** v without the four characters. */
  function Rest(v: string): string {
    if v == "" then "" else (if v[0] in {'.', '-', '_', '+'} then "" else [v[0]]) + Rest(v[1..])
  }

  /** Nothing else is lost: the segments put together are v without them. */
  lemma {:induction false} SegmentsJoin(v: string)
    ensures Concat(Fields(v)) == Rest(v)
  {
    if v != "" {
      SegmentsJoin(v[1..]);
      var rest := Fields(v[1..]);
      if !Separator(v[0]) {
        assert v[..1] == [v[0]];
        if |v| == 1 || Separator(v[1]) {
          assert ([v[..1]] + rest)[1..] == rest;
        } else {
          StartsWhole(v[1..]);
          assert ([v[..1] + rest[0]] + rest[1..])[1..] == rest[1..];
          assert (v[..1] + rest[0]) + Concat(rest[1..]) == v[..1] + (rest[0] + Concat(rest[1..]));
        }
      }
    }
  }

  // --------------------------------------------------- versions as one writes them

  /** Segments written one after the other, each joined to the next by a character. */
  function Written(segments: seq<string>, joints: seq<char>): string
    requires |joints| + 1 == |segments|
  {
    if joints == [] then segments[0] else segments[0] + [joints[0]] + Written(segments[1..], joints[1..])
  }

  /** They are read back as they were written, whichever of the four joined them. */
  lemma {:induction false} ReadsBack(segments: seq<string>, joints: seq<char>)
    requires |joints| + 1 == |segments| && forall i :: 0 <= i < |segments| ==> Whole(segments[i])
    requires forall i :: 0 <= i < |joints| ==> joints[i] in {'.', '-', '_', '+'}
    ensures Fields(Written(segments, joints)) == segments
  {
    WholeIsOne(segments[0]);
    if joints != [] {
      ReadsBack(segments[1..], joints[1..]);
      SplitsAt(segments[0], joints[0], Written(segments[1..], joints[1..]));
    }
  }

  lemma NumeralsAreWhole(s: string)
    requires Digits(s)
    ensures Whole(s)
  {
  }

  /** Versions written as numerals joined by any of the four characters compare as
      their lists of numbers, the shorter padded with zeros. */
  lemma WrittenOrder(a: seq<string>, b: seq<string>, s: seq<char>, t: seq<char>)
    requires |s| + 1 == |a| && |t| + 1 == |b|
    requires (forall i :: 0 <= i < |a| ==> Digits(a[i])) && forall i :: 0 <= i < |b| ==> Digits(b[i])
    requires forall i :: 0 <= i < |s| ==> s[i] in {'.', '-', '_', '+'}
    requires forall i :: 0 <= i < |t| ==> t[i] in {'.', '-', '_', '+'}
    ensures Compare(Written(a, s), Written(b, t)) == CompareNumbers(a, b, 0)
  {
    forall i | 0 <= i < |a| ensures Whole(a[i]) { NumeralsAreWhole(a[i]); }
    forall i | 0 <= i < |b| ensures Whole(b[i]) { NumeralsAreWhole(b[i]); }
    ReadsBack(a, s);
    ReadsBack(b, t);
    NumericFields(a, b, 0);
  }

  // ------------------------------------------------------ what decides a comparison

  /** Segment i of a version, "0" where it has none. */
  function Nth(v: string, i: nat): string { if i < |Fields(v)| then Fields(v)[i] else "0" }

  /** The first segments that compare unequal decide. */
  lemma FirstDifference(a: string, b: string, c: int)
    requires c != 0
    ensures Compare(a, b) == c <==>
      exists i: nat :: CompareSegment(Nth(a, i), Nth(b, i)) == c && forall k: nat :: k < i ==>
          CompareSegment(Nth(a, k), Nth(b, k)) == 0
  {
    FirstFrom(a, b, c, 0);
  }

  lemma {:induction false} FirstFrom(a: string, b: string, c: int, from: nat)
    requires c != 0 && forall k: nat :: k < from ==> CompareSegment(Nth(a, k), Nth(b, k)) == 0
    ensures CompareFields(Fields(a), Fields(b), from) == c <==>
      exists i: nat :: CompareSegment(Nth(a, i), Nth(b, i)) == c && forall k: nat :: k < i ==>
          CompareSegment(Nth(a, k), Nth(b, k)) == 0
    decreases |Fields(a)| + |Fields(b)| - from
  {
    hide CompareSegment, Fields;
    if from >= |Fields(a)| && from >= |Fields(b)| {
      forall i: nat | i >= from ensures CompareSegment(Nth(a, i), Nth(b, i)) == 0 { SameSegment("0"); }
    } else if CompareSegment(Nth(a, from), Nth(b, from)) == 0 {
      FirstFrom(a, b, c, from + 1);
    } else {
      forall i: nat | CompareSegment(Nth(a, i), Nth(b, i)) == c
                      && forall k: nat :: k < i ==> CompareSegment(Nth(a, k), Nth(b, k)) == 0
        ensures i == from
      {
      }
    }
  }

  lemma SameSegment(s: string)
    ensures CompareSegment(s, s) == 0
  {
    SegmentAntisymmetric(s, s);
  }

  /** Segments that are not both numerals compare as strings: the first differing
      character decides, and a proper beginning comes first. */
  lemma {:induction false} LexMeans(a: string, b: string)
    ensures LexCompare(a, b) == 0 <==> a == b
    ensures LexCompare(a, b) < 0 <==>
      exists k :: 0 <= k <= |a| && k < |b| && a[..k] == b[..k] && (k == |a| || a[k] < b[k])
  {
    LexAntisymmetric(a, b);
    if a != "" && b != "" && a[0] == b[0] {
      LexMeans(a[1..], b[1..]);
      var x, y := a[1..], b[1..];
      if k :| 0 <= k <= |x| && k < |y| && x[..k] == y[..k] && (k == |x| || x[k] < y[k]) {
        assert a[..k + 1] == [a[0]] + x[..k] && b[..k + 1] == [b[0]] + y[..k];
        assert k + 1 == |a| || a[k + 1] < b[k + 1];
      }
      if k :| 0 <= k <= |a| && k < |b| && a[..k] == b[..k] && (k == |a| || a[k] < b[k]) {
        assert k > 0;
        assert x[..k - 1] == a[..k][1..] && y[..k - 1] == b[..k][1..];
      }
    } else if a != "" && b != "" {
      forall k | 0 < k <= |a| && k < |b| ensures a[..k] != b[..k] { assert a[..k][0] != b[..k][0]; }
      assert a[..0] == b[..0];
    } else {
      assert a[..0] == b[..0];
    }
  }

  lemma WordsCompareAsStrings(a: string, b: string)
    requires !(Digits(a) && Digits(b))
    ensures CompareSegment(a, b) == LexCompare(a, b)
  {
  }

  lemma DigitsMean(s: string)
    ensures Digits(s) <==> s != "" && forall i :: 0 <= i < |s| ==>
        s[i] in {'0', '1', '2', '3', '4', '5', '6', '7', '8', '9'}
  {
    forall c: char ensures IsDigit(c) <==> c in {'0', '1', '2', '3', '4', '5', '6', '7', '8', '9'} { }
  }
}
