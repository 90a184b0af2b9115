/** Where compareVersions is an order: a total preorder on versions whose segments
    all take one side of the numbers, and on no others. */
module VersionOrder {
  import opened Versions

  /** Lexically below every numeral. */
  predicate Low(s: string) { s == "" || s[0] < '0' }

  /** Lexically above every numeral: some 9s, then a character past '9'. */
  predicate High(s: string) { s != "" && (s[0] > '9' || (s[0] == '9' && High(s[1..]))) }

  /** A segment that is a numeral, or lies beyond all of them. */
  predicate Fits(s: string) { Digits(s) || Low(s) || High(s) }

  function Class(s: string): nat { if Digits(s) then 1 else if Low(s) then 0 else 2 }

  lemma {:induction false} HighAboveDigits(d: string, x: string)
    requires OnlyDigits(d) && High(x)
    ensures LexCompare(d, x) == -1
  {
    if d != "" && x[0] == '9' && d[0] == '9' { HighAboveDigits(d[1..], x[1..]); }
  }

  lemma ClassesAreOrdered(a: string, b: string)
    requires Fits(a) && Fits(b) && Class(a) < Class(b)
    ensures CompareSegment(a, b) == -1
  {
    if Digits(a) { HighAboveDigits(a, b); }
  }

  lemma SegmentTransitive(a: string, b: string, c: string)
    requires Fits(a) && Fits(b) && Fits(c)
    requires CompareSegment(a, b) <= 0 && CompareSegment(b, c) <= 0
    ensures CompareSegment(a, c) <= 0
  {
    hide CompareSegment, Fits, Class, High;
    SegmentClasses(a, b);
    SegmentClasses(b, c);
    SegmentClasses(a, c);
    if Class(a) == Class(b) == Class(c) {
      assert Digits(a) <==> Digits(b) by { NumeralClass(a); NumeralClass(b); }
      assert Digits(b) <==> Digits(c) by { NumeralClass(b); NumeralClass(c); }
      if Digits(a) {
        DigitsCompareAsNumbers(a, b);
        DigitsCompareAsNumbers(b, c);
        DigitsCompareAsNumbers(a, c);
      } else {
        OthersCompareLexically(a, b);
        OthersCompareLexically(b, c);
        OthersCompareLexically(a, c);
        LexTransitive(a, b, c);
      }
    }
  }

  lemma NumeralClass(s: string)
    ensures Class(s) == 1 <==> Digits(s)
  {
  }

  lemma OthersCompareLexically(a: string, b: string)
    requires !Digits(a)
    ensures CompareSegment(a, b) == LexCompare(a, b)
  {
  }

  lemma SegmentClasses(a: string, b: string)
    requires Fits(a) && Fits(b)
    ensures Class(a) < Class(b) ==> CompareSegment(a, b) < 0
    ensures Class(a) > Class(b) ==> CompareSegment(a, b) > 0
  {
    hide CompareSegment, Fits, Class;
    if Class(a) < Class(b) {
      ClassesAreOrdered(a, b);
    } else if Class(a) > Class(b) {
      ClassesAreOrdered(b, a);
      SegmentAntisymmetric(a, b);
    }
  }

  predicate Fitting(v: string) { forall i :: 0 <= i < |Fields(v)| ==> Fits(Fields(v)[i]) }

  lemma Unfold(a: seq<string>, b: seq<string>, i: nat)
    ensures var c := CompareSegment(Segment(a, i), Segment(b, i));
            CompareFields(a, b, i) == if c != 0 then c else CompareFields(a, b, i + 1)
  {
    if i >= |a| && i >= |b| { SegmentAntisymmetric("0", "0"); }
  }

  lemma {:induction false} FieldsTransitive(a: seq<string>, b: seq<string>, c: seq<string>, i: nat)
    requires forall k :: 0 <= k < |a| ==> Fits(a[k])
    requires forall k :: 0 <= k < |b| ==> Fits(b[k])
    requires forall k :: 0 <= k < |c| ==> Fits(c[k])
    requires CompareFields(a, b, i) <= 0 && CompareFields(b, c, i) <= 0
    ensures CompareFields(a, c, i) <= 0
    decreases |a| + |b| + |c| - i
  {
    hide CompareFields, CompareSegment, Fits;
    if i < |a| || i < |b| || i < |c| {
      var x, y, z := Segment(a, i), Segment(b, i), Segment(c, i);
      assert Fits(x) && Fits(y) && Fits(z) by { ZeroFits(); }
      Unfold(a, b, i);
      Unfold(b, c, i);
      Unfold(a, c, i);
      SegmentTransitive(x, y, z);
      if CompareSegment(x, z) == 0 {
        SegmentAntisymmetric(x, y);
        SegmentAntisymmetric(y, z);
        SegmentAntisymmetric(x, z);
        SegmentTransitive(y, z, x);
        SegmentTransitive(z, x, y);
        FieldsTransitive(a, b, c, i + 1);
      }
    } else {
      PastTheEnd(a, c, i);
    }
  }

  lemma ZeroFits()
    ensures Fits("0")
  {
    assert Digits("0");
  }

  lemma PastTheEnd(a: seq<string>, b: seq<string>, i: nat)
    requires i >= |a| && i >= |b|
    ensures CompareFields(a, b, i) == 0
  {
  }

  /** compareVersions is transitive on fitting versions, so together with
      antisymmetry a total preorder there; all-digit versions are fitting. */
  lemma Transitive(a: string, b: string, c: string)
    requires Fitting(a) && Fitting(b) && Fitting(c)
    requires Compare(a, b) <= 0 && Compare(b, c) <= 0
    ensures Compare(a, c) <= 0
  {
    FieldsTransitive(Fields(a), Fields(b), Fields(c), 0);
  }

  lemma NumericFits(v: string)
    requires Numeric(v)
    ensures Fitting(v)
  {
  }

  // ----------------------------------------------- every other segment breaks it

  function Repeat(c: char, n: nat): string { if n == 0 then "" else [c] + Repeat(c, n - 1) }

  /** How many times c leads s. */
  function Leading(c: char, s: string): nat { if s != "" && s[0] == c then 1 + Leading(c, s[1..]) else 0 }

  lemma {:induction false} RepeatDigits(c: char, n: nat)
    requires IsDigit(c)
    ensures |Repeat(c, n)| == n && OnlyDigits(Repeat(c, n))
  {
    if n > 0 { RepeatDigits(c, n - 1); }
  }

  /** Between a run of one character and a string that leads with a shorter run,
      the character after that run decides. */
  lemma {:induction false} RunAgainst(c: char, n: nat, s: string, tail: string)
    requires n == Leading(c, s) && |s| > n && tail != "" && tail[0] != s[n]
    ensures s[n] != c
    ensures LexCompare(Repeat(c, n) + tail, s) == if tail[0] < s[n] then -1 else 1
  {
    var run := Repeat(c, n) + tail;
    if n > 0 {
      RunAgainst(c, n - 1, s[1..], tail);
      assert run[1..] == Repeat(c, n - 1) + tail;
    }
  }

  lemma {:induction false} RunIsPrefix(c: char, n: nat, s: string)
    requires n == Leading(c, s) && |s| > n
    ensures LexCompare(Repeat(c, n), s) == -1
  {
    if n > 0 {
      RunIsPrefix(c, n - 1, s[1..]);
      assert Repeat(c, n)[1..] == Repeat(c, n - 1);
    }
  }

  lemma {:induction false} LeadingBound(c: char, s: string)
    ensures Leading(c, s) <= |s|
    ensures Leading(c, s) == |s| && IsDigit(c) ==> OnlyDigits(s)
  {
    if s != "" && s[0] == c { LeadingBound(c, s[1..]); }
  }

  /** A string that is not High has, after its leading 9s, no character past '9'. */
  lemma {:induction false} NotHigh(s: string)
    requires !High(s) && Leading('9', s) < |s|
    ensures s[Leading('9', s)] < '9'
  {
    if s[0] == '9' { NotHigh(s[1..]); }
  }

  lemma {:induction false} ZerosAndTail(n: nat, tail: string)
    requires OnlyDigits(tail)
    ensures OnlyDigits(Repeat('0', n) + tail) && Value(Repeat('0', n) + tail) == Value(tail)
  {
    RepeatDigits('0', n);
    if n == 0 {
      assert Repeat('0', n) + tail == tail;
    } else {
      ZerosAndTail(n - 1, tail);
      var s := Repeat('0', n) + tail;
      assert s == ['0'] + (Repeat('0', n - 1) + tail) && s[1..] == Repeat('0', n - 1) + tail;
      ValueByFirst(s);
    }
  }

  lemma OneAndZeros(n: nat)
    ensures OnlyDigits("1" + Repeat('0', n)) && Value("1" + Repeat('0', n)) == Power10(n)
  {
    RepeatDigits('0', n);
    var s := "1" + Repeat('0', n);
    assert s[1..] == Repeat('0', n);
    ValueByFirst(s);
    ZerosAndTail(n, "");
    assert Repeat('0', n) + "" == Repeat('0', n);
  }

  /** x lies above the numeral `b` and below the numeral `a`, though a <= b as numbers. */
  predicate Breaks(x: string, a: string, b: string) {
    Digits(a) && Digits(b) && CompareSegment(a, b) <= 0 && CompareSegment(b, x) <= 0 && CompareSegment(a, x) > 0
  }

  lemma BreaksIf(x: string, a: string, b: string)
    requires !Digits(x) && Digits(a) && Digits(b) && Value(a) <= Value(b) && LexCompare(b, x) < 0
        && LexCompare(a, x) > 0
    ensures Breaks(x, a, b)
  {
    DigitsCompareAsNumbers(a, b);
  }

  /** x starts with 1 to 9: a run of 9s lies above it, 010...0 below. */
  lemma BreaksAtNines(x: string) returns (a: string, b: string)
    requires !Digits(x) && !High(x) && x != "" && '1' <= x[0] <= '9'
    ensures Breaks(x, a, b)
  {
    var k := Leading('9', x);
    LeadingBound('9', x);
    NotHigh(x);
    a, b := Repeat('9', k) + "9", "0" + ("1" + Repeat('0', k + 1));
    RunAgainst('9', k, x, "9");
    RepeatDigits('9', k);
    BelowPower(a);
    OneAndZeros(k + 1);
    ZerosAndTail(1, "1" + Repeat('0', k + 1));
    assert Repeat('0', 1) == "0" by { assert Repeat('0', 0) == ""; }
    BreaksIf(x, a, b);
  }

  /** x starts with 0: 9 lies above it and 0..010 below, or 0..00 above and 0..0 below. */
  lemma BreaksAtZeros(x: string) returns (a: string, b: string)
    requires !Digits(x) && x != "" && x[0] == '0'
    ensures Breaks(x, a, b)
  {
    var j := Leading('0', x);
    LeadingBound('0', x);
    RepeatDigits('0', j);
    if x[j] > '0' {
      a, b := "9", Repeat('0', j) + "010";
      RunAgainst('0', j, x, "010");
      ZerosAndTail(j, "010");
      OneAndZeros(1);
      ZerosAndTail(1, "1" + Repeat('0', 1));
      assert Repeat('0', 1) == "0" by { assert Repeat('0', 0) == ""; }
      assert "010" == "0" + ("1" + "0");
      assert Value("010") == Power10(1) == 10 by { assert Power10(0) == 1; }
      assert Value("9") == 9 by { assert "9"[..0] == ""; }
      BreaksIf(x, a, b);
    } else {
      assert x[j] != '0' by { RunAgainst('0', j, x, [if x[j] == 'a' then 'b' else 'a']); }
      a, b := Repeat('0', j) + "0", Repeat('0', j);
      RunAgainst('0', j, x, "0");
      RunIsPrefix('0', j, x);
      ZerosAndTail(j, "0");
      ZerosAndTail(j, "");
      assert b + "" == b && Value("0") == 0 by { assert "0"[..0] == ""; }
      BreaksIf(x, a, b);
    }
  }

  /** A segment takes its place among the numerals, consistently with their own
      order, exactly if it fits. */
  lemma FitsExactly(x: string)
    ensures Fits(x) <==> forall a, b :: !Breaks(x, a, b)
  {
    if Fits(x) {
      forall a, b ensures !Breaks(x, a, b) {
        if Breaks(x, a, b) { SegmentTransitive(a, b, x); }
      }
    } else if x[0] == '0' {
      var a, b := BreaksAtZeros(x);
    } else {
      var a, b := BreaksAtNines(x);
    }
  }

  lemma {:induction false} OneField(v: string)
    requires v != "" && forall i :: 0 <= i < |v| ==> !Separator(v[i])
    ensures Fields(v) == [v]
  {
    if |v| == 1 {
      assert v[..1] == v && Fields(v[1..]) == [];
    } else {
      OneField(v[1..]);
      assert v[..1] + v[1..] == v;
    }
  }

  /** 9 before 10 before 1a before 9. */
  lemma NotTransitive()
    ensures Compare("9", "10") < 0 && Compare("10", "1a") < 0 && Compare("1a", "9") < 0
  {
    OneField("9");
    OneField("10");
    OneField("1a");
    Unfold(["9"], ["10"], 0);
    Unfold(["10"], ["1a"], 0);
    Unfold(["1a"], ["9"], 0);
    assert CompareSegment("9", "10") == -1;
    assert !Digits("1a") by { assert !IsDigit("1a"[1]); }
  }
}
