/** Version order (`internal/api/store.go`): compareVersions, what it means on
    numbers, and where it is an order at all. */
module Versions {
  import opened Prelude

  // ------------------------------------------------------------- the code

  /** strings.Compare */
  function LexCompare(a: string, b: string): (c: int)
    ensures -1 <= c <= 1
  {
    if a == [] && b == [] then 0
    else if a == [] then -1
    else if b == [] then 1
    else if a[0] < b[0] then -1
    else if a[0] > b[0] then 1
    else LexCompare(a[1..], b[1..])
  }

  predicate IsDigit(c: char) { '0' <= c <= '9' }

  predicate OnlyDigits(s: string) { forall i :: 0 <= i < |s| ==> IsDigit(s[i]) }

  /** isVersionDigits */
  predicate Digits(s: string) { s != "" && OnlyDigits(s) }

  /** strings.TrimLeft(s, "0") */
  function TrimZeros(s: string): string {
    if s != "" && s[0] == '0' then TrimZeros(s[1..]) else s
  }

  function CompareSegment(a: string, b: string): (c: int)
    ensures -1 <= c <= 1
  {
    if Digits(a) && Digits(b) then
      var x, y := TrimZeros(a), TrimZeros(b);
      if |x| != |y| then (if |x| < |y| then -1 else 1) else LexCompare(x, y)
    else LexCompare(a, b)
  }

  predicate Separator(c: char) { c == '.' || c == '-' || c == '_' || c == '+' }

  /** strings.FieldsFunc: the maximal runs of other characters. */
  function Fields(v: string): seq<string> {
    if v == "" then []
    else if Separator(v[0]) then Fields(v[1..])
    else if |v| == 1 || Separator(v[1]) then [v[..1]] + Fields(v[1..])
    else
      var rest := Fields(v[1..]);
      if rest == [] then [v[..1]] else [v[..1] + rest[0]] + rest[1..]
  }

  /** Missing segments count as "0". */
  function Segment(fields: seq<string>, i: nat): string { if i < |fields| then fields[i] else "0" }

  function CompareFields(a: seq<string>, b: seq<string>, i: nat): (c: int)
    ensures -1 <= c <= 1
    decreases |a| + |b| - i
  {
    if i >= |a| && i >= |b| then 0
    else
      var c := CompareSegment(Segment(a, i), Segment(b, i));
      if c != 0 then c else CompareFields(a, b, i + 1)
  }

  function Compare(a: string, b: string): int { CompareFields(Fields(a), Fields(b), 0) }

  method IsVersionDigits(s: string) returns (yes: bool)
    ensures yes <==> Digits(s)
  {
    if s == "" { return false; }
    var i := 0;
    while i < |s|
      invariant 0 <= i <= |s| && forall k :: 0 <= k < i ==> IsDigit(s[k])
    {
      if s[i] < '0' || s[i] > '9' { return false; }
      i := i + 1;
    }
    return true;
  }

  method CompareVersions(a: string, b: string) returns (c: int)
    ensures c == Compare(a, b)
  {
    var fa, fb := Fields(a), Fields(b);
    var i := 0;
    while i < |fa| || i < |fb|
      invariant CompareFields(fa, fb, 0) == CompareFields(fa, fb, i)
      decreases |fa| + |fb| - i
    {
      var sa, sb := "0", "0";
      if i < |fa| { sa := fa[i]; }
      if i < |fb| { sb := fb[i]; }
      var x := CompareSegment(sa, sb);
      if x != 0 { return x; }
      i := i + 1;
    }
    return 0;
  }

  // --------------------------------------------------- true of all strings

  lemma {:induction false} LexAntisymmetric(a: string, b: string)
    ensures LexCompare(a, b) == -LexCompare(b, a)
    ensures LexCompare(a, b) == 0 <==> a == b
  {
    if a != [] && b != [] && a[0] == b[0] {
      LexAntisymmetric(a[1..], b[1..]);
      assert a == [a[0]] + a[1..] && b == [b[0]] + b[1..];
    }
  }

  lemma {:induction false} LexTransitive(a: string, b: string, c: string)
    requires LexCompare(a, b) <= 0 && LexCompare(b, c) <= 0
    ensures LexCompare(a, c) <= 0
  {
    if a != "" && b != "" && c != "" && a[0] == b[0] == c[0] { LexTransitive(a[1..], b[1..], c[1..]); }
  }

  lemma SegmentAntisymmetric(a: string, b: string)
    ensures CompareSegment(a, b) == -CompareSegment(b, a)
  {
    LexAntisymmetric(a, b);
    LexAntisymmetric(TrimZeros(a), TrimZeros(b));
  }

  lemma {:induction false} FieldsAntisymmetric(a: seq<string>, b: seq<string>, i: nat)
    ensures CompareFields(a, b, i) == -CompareFields(b, a, i)
    decreases |a| + |b| - i
  {
    if i < |a| || i < |b| {
      SegmentAntisymmetric(Segment(a, i), Segment(b, i));
      FieldsAntisymmetric(a, b, i + 1);
    }
  }

  /** Swapping the arguments flips the sign, whatever the strings. */
  lemma Antisymmetric(a: string, b: string)
    ensures Compare(a, b) == -Compare(b, a)
  {
    FieldsAntisymmetric(Fields(a), Fields(b), 0);
  }

  // ------------------------------------------------------ digits are numbers

  function DigitValue(c: char): nat
    requires IsDigit(c)
  {
    c as int - '0' as int
  }

  function Power10(k: nat): (p: nat)
    ensures p > 0
  {
    if k == 0 then 1 else 10 * Power10(k - 1)
  }

  /** The number a string of digits writes. */
  function Value(s: string): nat
    requires OnlyDigits(s)
  {
    if s == "" then 0 else 10 * Value(s[..|s| - 1]) + DigitValue(s[|s| - 1])
  }

  lemma {:induction false} ValueByFirst(s: string)
    requires Digits(s)
    ensures Value(s) == DigitValue(s[0]) * Power10(|s| - 1) + Value(s[1..])
    ensures Value(s[1..]) < Power10(|s| - 1)
  {
    if |s| == 1 {
      assert s[..0] == "" && s[1..] == "";
    } else {
      var n := |s| - 1;
      var front := s[..n];
      ValueByFirst(front);
      assert front[1..] == s[1..][..n - 1] && s[1..][n - 1] == s[n];
      TimesTen(DigitValue(s[0]), Power10(n - 1), Value(front[1..]));
      assert Power10(n) == 10 * Power10(n - 1);
    }
  }

  lemma TimesTen(d: nat, p: nat, rest: nat)
    ensures 10 * (d * p + rest) == d * (10 * p) + 10 * rest
  {
  }

  lemma {:induction false} TrimKeepsValue(s: string)
    requires OnlyDigits(s)
    ensures var t := TrimZeros(s);
            && OnlyDigits(t) && Value(t) == Value(s)
            && (t != "" ==> t[0] != '0')
  {
    if s != "" && s[0] == '0' {
      ValueByFirst(s);
      TrimKeepsValue(s[1..]);
    }
  }

  /** Of two numerals of one length the lexically smaller is the smaller number. */
  lemma {:induction false} LexIsValue(a: string, b: string)
    requires |a| == |b| && OnlyDigits(a) && OnlyDigits(b)
    ensures LexCompare(a, b) == Sign(Value(a) - Value(b))
  {
    if a != "" {
      ValueByFirst(a);
      ValueByFirst(b);
      LexIsValue(a[1..], b[1..]);
      FirstDigitDecides(DigitValue(a[0]), DigitValue(b[0]), Value(a[1..]), Value(b[1..]), Power10(|a| - 1));
    }
  }

  lemma FirstDigitDecides(x: nat, y: nat, a: nat, b: nat, p: nat)
    requires a < p && b < p
    ensures x < y ==> x * p + a < y * p + b
    ensures x > y ==> x * p + a > y * p + b
  {
    if x < y {
      assert (x + 1) * p <= y * p;
    } else if x > y {
      assert (y + 1) * p <= x * p;
    }
  }

  function Sign(x: int): int { if x < 0 then -1 else if x > 0 then 1 else 0 }

  /** A numeral without leading zeros that is shorter is smaller. */
  lemma ShorterIsSmaller(a: string, b: string)
    requires OnlyDigits(a) && Digits(b) && b[0] != '0' && |a| < |b|
    ensures Value(a) < Value(b)
  {
    hide Value, Power10;
    ValueByFirst(b);
    var p := Power10(|b| - 1);
    assert DigitValue(b[0]) * p >= p by { FirstDigitDecides(0, DigitValue(b[0]), 0, 0, p); }
    BelowPower(a);
    PowerGrows(|a|, |b| - 1);
  }

  lemma {:induction false} BelowPower(a: string)
    requires OnlyDigits(a)
    ensures Value(a) < Power10(|a|)
  {
    if |a| > 0 {
      BelowPower(a[..|a| - 1]);
    }
  }

  lemma {:induction false} PowerGrows(i: nat, j: nat)
    requires i <= j
    ensures Power10(i) <= Power10(j)
  {
    if i < j { PowerGrows(i, j - 1); }
  }

  /** Digit segments compare as the numbers they write, leading zeros or not. */
  lemma DigitsCompareAsNumbers(a: string, b: string)
    requires Digits(a) && Digits(b)
    ensures CompareSegment(a, b) == Sign(Value(a) - Value(b))
  {
    var x, y := TrimZeros(a), TrimZeros(b);
    TrimKeepsValue(a);
    TrimKeepsValue(b);
    if |x| < |y| {
      ShorterIsSmaller(x, y);
    } else if |y| < |x| {
      ShorterIsSmaller(y, x);
    } else {
      LexIsValue(x, y);
    }
  }

  predicate Numeric(v: string) { forall i :: 0 <= i < |Fields(v)| ==> Digits(Fields(v)[i]) }

  function Values(fields: seq<string>, i: nat): nat
    requires forall k :: 0 <= k < |fields| ==> Digits(fields[k])
  {
    assert i < |fields| ==> Digits(fields[i]);
    assert OnlyDigits(Segment(fields, i));
    Value(Segment(fields, i))
  }

  /** Lexicographic comparison of the segments' numbers, padded with zeros. */
  function CompareNumbers(a: seq<string>, b: seq<string>, i: nat): int
    requires forall k :: 0 <= k < |a| ==> Digits(a[k])
    requires forall k :: 0 <= k < |b| ==> Digits(b[k])
    decreases |a| + |b| - i
  {
    if i >= |a| && i >= |b| then 0
    else if Values(a, i) != Values(b, i) then Sign(Values(a, i) - Values(b, i))
    else CompareNumbers(a, b, i + 1)
  }

  lemma {:induction false} NumericFields(a: seq<string>, b: seq<string>, i: nat)
    requires forall k :: 0 <= k < |a| ==> Digits(a[k])
    requires forall k :: 0 <= k < |b| ==> Digits(b[k])
    ensures CompareFields(a, b, i) == CompareNumbers(a, b, i)
    decreases |a| + |b| - i
  {
    if i < |a| || i < |b| {
      assert Digits("0");
      DigitsCompareAsNumbers(Segment(a, i), Segment(b, i));
      NumericFields(a, b, i + 1);
    }
  }

  /** On all-digit segments compareVersions is the order of the number lists. */
  lemma NumericOrder(a: string, b: string)
    requires Numeric(a) && Numeric(b)
    ensures Compare(a, b) == CompareNumbers(Fields(a), Fields(b), 0)
  {
    NumericFields(Fields(a), Fields(b), 0);
  }
}
