/** The load-command patcher of `scripts/tvos-patch-ipa.py`: a bytearray walked
    and overwritten with Python's slice rules. */
module MachO {
  import opened Prelude

  type Byte = x: int | 0 <= x < 256

  const LC_BUILD_VERSION := 0x32
  const PLATFORM_IOS := 2
  const PLATFORM_TVOS: Byte := 3
  const HEADER := 32

  // ---------------------------------------------------------- Python's slices

  function Clamp(data: seq<Byte>, i: nat): nat { if i <= |data| then i else |data| }

  /** data[i:j] */
  function Slice(data: seq<Byte>, i: nat, j: nat): seq<Byte>
    requires i <= j
  {
    data[Clamp(data, i)..Clamp(data, j)]
  }

  /** data[i:j] = s, which may change the length */
  function Assign(data: seq<Byte>, i: nat, j: nat, s: seq<Byte>): seq<Byte>
    requires i <= j
  {
    data[..Clamp(data, i)] + s + data[Clamp(data, j)..]
  }

  /** int.from_bytes(s, "little") */
  function Little(s: seq<Byte>): nat { if s == [] then 0 else s[0] + 256 * Little(s[1..]) }

  function Word(data: seq<Byte>, i: nat): nat { Little(Slice(data, i, i + 4)) }

  function Commands(data: seq<Byte>): nat { Word(data, 16) }

  function Size(data: seq<Byte>, p: nat): nat { Word(data, p + 4) }

  // ------------------------------------------------------------- the walk

  /** The two checks before a command is read. */
  predicate Malformed(data: seq<Byte>, p: nat) {
    p + 8 > |data| || Size(data, p) < 8 || p + Size(data, p) > |data|
  }

  /** A build-version command whose platform word reads iOS. */
  predicate ForIos(data: seq<Byte>, p: nat) { Word(data, p) == LC_BUILD_VERSION && Word(data, p + 8) == PLATFORM_IOS }

  function Rewritten(data: seq<Byte>, p: nat): seq<Byte> {
    if ForIos(data, p) then Assign(data, p + 8, p + 12, [PLATFORM_TVOS, 0, 0, 0]) else data
  }

  /** The loop from its n-th last turn on: None where it returns early, else the
      buffer and whether it was patched. */
  function Loop(data: seq<Byte>, p: nat, n: nat, patched: bool): Option<(seq<Byte>, bool)>
    decreases n
  {
    if n == 0 then Some((data, patched))
    else if Malformed(data, p) then None
    else Loop(Rewritten(data, p), p + Size(data, p), n - 1, patched || ForIos(data, p))
  }

  /** Where the commands of an unmodified file start, if the walk gets through. */
  function Starts(data: seq<Byte>, p: nat, n: nat): Option<seq<nat>>
    decreases n
  {
    if n == 0 then Some([])
    else if Malformed(data, p) then None
    else
      var rest := Starts(data, p + Size(data, p), n - 1);
      if rest.None? then None else Some([p] + rest.value)
  }

  class File {
    var content: seq<Byte>

    constructor (content: seq<Byte>)
      ensures this.content == content
    {
      this.content := content;
    }

    method PatchPlatform() returns (patched: bool)
      modifies this
      ensures |old(content)| < HEADER ==> !patched && content == old(content)
      ensures |old(content)| >= HEADER ==>
        match Loop(old(content), HEADER, Commands(old(content)), false)
        case None => !patched && content == old(content)
        case Some((data, p)) => patched == p && content == if p then data else old(content)
    {
      hide Little, Slice, Assign;
      var data := content;
      if |data| < HEADER { return false; }
      var ncmds := Little(Slice(data, 16, 20));
      var pos: nat := HEADER;
      patched := false;
      var k := 0;
      while k < ncmds
        invariant 0 <= k <= ncmds && content == old(content)
        invariant Loop(data, pos, ncmds - k, patched) == Loop(content, HEADER, ncmds, false)
      {
        if pos + 8 > |data| { return false; }
        var cmd := Little(Slice(data, pos, pos + 4));
        var size := Little(Slice(data, pos + 4, pos + 8));
        if size < 8 || pos + size > |data| { return false; }
        if cmd == LC_BUILD_VERSION {
          var platform := Little(Slice(data, pos + 8, pos + 12));
          if platform == PLATFORM_IOS {
            data := Assign(data, pos + 8, pos + 12, [PLATFORM_TVOS, 0, 0, 0]);
            patched := true;
          }
        }
        pos := pos + size;
        k := k + 1;
      }
      if patched { content := data; }
    }
  }

  // ------------------------------------------------------ what one turn does

  /** Four bytes that read 2 are 2, 0, 0, 0. */
  lemma ReadsTwo(s: seq<Byte>)
    requires |s| == 4 && Little(s) == PLATFORM_IOS
    ensures s == [2, 0, 0, 0]
  {
    assert Little(s[1..]) == s[1] + 256 * Little(s[1..][1..]);
    assert Little(s[2..]) == s[2] + 256 * Little(s[3..]) && s[1..][1..] == s[2..] && s[2..][1..] == s[3..];
    assert Little(s[3..]) == s[3] + 256 * Little(s[3..][1..]) && s[3..][1..] == [];
  }

  /** With the whole word in the file, only its first byte changes. */
  lemma OneByte(data: seq<Byte>, p: nat)
    requires ForIos(data, p) && p + 12 <= |data|
    ensures data[p + 8] == 2 && Rewritten(data, p) == data[p + 8 := PLATFORM_TVOS]
  {
    var word := Slice(data, p + 8, p + 12);
    ReadsTwo(word);
    assert forall i :: 0 <= i < 4 ==> word[i] == data[p + 8 + i];
    var after := Rewritten(data, p);
    assert after == data[..p + 8] + [PLATFORM_TVOS, 0, 0, 0] + data[p + 12..];
    forall i | 0 <= i < |data| ensures after[i] == data[p + 8 := PLATFORM_TVOS][i] {
      if p + 8 < i < p + 12 { assert data[i] == word[i - p - 8]; }
    }
  }

  lemma SameWord(a: seq<Byte>, b: seq<Byte>, i: nat)
    requires |a| == |b| && forall k :: i <= k < i + 4 && k < |a| ==> a[k] == b[k]
    ensures Word(a, i) == Word(b, i)
  {
    assert Slice(a, i, i + 4) == Slice(b, i, i + 4);
  }

  predicate SameFrom(a: seq<Byte>, b: seq<Byte>, p: nat) { |a| == |b| && forall k :: p <= k < |a| ==> a[k] == b[k] }

  lemma SameCommand(a: seq<Byte>, b: seq<Byte>, p: nat)
    requires SameFrom(a, b, p)
    ensures Malformed(a, p) <==> Malformed(b, p)
    ensures Size(a, p) == Size(b, p)
    ensures ForIos(a, p) <==> ForIos(b, p)
  {
    SameWord(a, b, p);
    SameWord(a, b, p + 4);
    SameWord(a, b, p + 8);
  }

  lemma {:induction false} StartsLater(data: seq<Byte>, p: nat, n: nat)
    requires Starts(data, p, n).Some?
    ensures forall q :: q in Starts(data, p, n).value ==>
        p <= q && q + 8 <= |data| && q + 8 <= q + Size(data, q) <= |data|
    ensures forall q :: q in Starts(data, p, n).value ==> q == p || p + Size(data, p) <= q
    decreases n
  {
    hide Size, Word;
    if n > 0 {
      StartsLater(data, p + Size(data, p), n - 1);
      var rest := Starts(data, p + Size(data, p), n - 1).value;
      assert forall q :: q in [p] + rest <==> q == p || q in rest;
    }
  }

  // -------------------------------------------------- when the patch is safe

  /** A command that will be rewritten has its platform word in the file, and room
      for that word's first byte. */
  predicate Careful(data: seq<Byte>, p: nat) { ForIos(data, p) ==> Size(data, p) >= 9 && p + 12 <= |data| }

  predicate CarefulWalk(data: seq<Byte>, p: nat, n: nat)
    decreases n
  {
    n == 0 || Malformed(data, p) || (Careful(data, p) && CarefulWalk(data, p + Size(data, p), n - 1))
  }

  /** The walk from p on sees nothing before p. */
  lemma {:induction false} SameWalk(a: seq<Byte>, b: seq<Byte>, p: nat, n: nat)
    requires SameFrom(a, b, p)
    ensures Starts(a, p, n) == Starts(b, p, n)
    ensures CarefulWalk(a, p, n) <==> CarefulWalk(b, p, n)
    ensures Starts(a, p, n).Some? ==> forall q :: q in Starts(a, p, n).value ==> (ForIos(a, q) <==> ForIos(b, q))
    decreases n
  {
    hide Malformed, ForIos, Size;
    if n > 0 {
      SameCommand(a, b, p);
      if !Malformed(a, p) {
        SameWalk(a, b, p + Size(a, p), n - 1);
        var rest := Starts(a, p + Size(a, p), n - 1);
        if rest.Some? { assert forall q :: q in [p] + rest.value <==> q == p || q in rest.value; }
      }
    }
  }

  /** The first byte of an iOS platform word. */
  predicate PlatformByte(data: seq<Byte>, starts: seq<nat>, i: nat) {
    exists q :: q in starts && ForIos(data, q) && i == q + 8
  }

  /** d is data with every iOS platform word reading tvOS. */
  ghost predicate Retargeted(data: seq<Byte>, starts: seq<nat>, d: seq<Byte>) {
    |d| == |data| && forall i :: 0 <= i < |data| ==>
        d[i] == if PlatformByte(data, starts, i) then PLATFORM_TVOS else data[i]
  }

  lemma RetargetedStep(data: seq<Byte>, p: nat, n: nat, d: seq<Byte>)
    requires n > 0 && Starts(data, p, n).Some? && Careful(data, p)
    requires var data1, p1 := Rewritten(data, p), p + Size(data, p);
             Starts(data1, p1, n - 1).Some? && Retargeted(data1, Starts(data1, p1, n - 1).value, d)
    ensures Retargeted(data, Starts(data, p, n).value, d)
  {
    hide ForIos, Size, Word, Malformed, Assign;
    var data1, p1 := Rewritten(data, p), p + Size(data, p);
    if ForIos(data, p) { OneByte(data, p); }
    assert SameFrom(data, data1, p1);
    SameWalk(data, data1, p1, n - 1);
    var rest := Starts(data, p1, n - 1).value;
    StartsLater(data, p1, n - 1);
    assert Starts(data, p, n).value == [p] + rest;
    forall i | 0 <= i < |data| ensures d[i] == if PlatformByte(data, [p] + rest, i) then PLATFORM_TVOS else data[i] {
      PlatformBytes(data, data1, p, rest, i);
    }
  }

  lemma PlatformBytes(data: seq<Byte>, data1: seq<Byte>, p: nat, rest: seq<nat>, i: nat)
    requires forall q :: q in rest ==> (ForIos(data, q) <==> ForIos(data1, q))
    ensures PlatformByte(data, [p] + rest, i) <==> PlatformByte(data1, rest, i) || (ForIos(data, p) && i == p + 8)
  {
    assert forall q :: q in [p] + rest <==> q == p || q in rest;
    if PlatformByte(data1, rest, i) {
      var q :| q in rest && ForIos(data1, q) && i == q + 8;
      assert q in [p] + rest && ForIos(data, q);
    }
  }

  /** On a careful walk the loop gets through exactly if the plain walk does, and
      then retargets the file; it reports whether there was anything to do. */
  lemma {:induction false} CarefulLoop(data: seq<Byte>, p: nat, n: nat, patched: bool)
    requires CarefulWalk(data, p, n)
    ensures Loop(data, p, n, patched).Some? <==> Starts(data, p, n).Some?
    ensures Starts(data, p, n).Some? ==>
      var (d, done) := Loop(data, p, n, patched).value;
      && Retargeted(data, Starts(data, p, n).value, d)
      && (done <==> patched || exists q :: q in Starts(data, p, n).value && ForIos(data, q))
    decreases n
  {
    hide Malformed, ForIos, Retargeted, Size;
    if n > 0 && !Malformed(data, p) {
      var data1, p1 := Rewritten(data, p), p + Size(data, p);
      assert SameFrom(data, data1, p1) by { RewriteStaysInside(data, p); }
      SameWalk(data, data1, p1, n - 1);
      CarefulLoop(data1, p1, n - 1, patched || ForIos(data, p));
      if Starts(data, p1, n - 1).Some? {
        RetargetedStep(data, p, n, Loop(data, p, n, patched).value.0);
        var rest := Starts(data, p1, n - 1).value;
        assert forall q :: q in [p] + rest <==> q == p || q in rest;
      }
    } else if n == 0 {
      assert Retargeted(data, [], data) by { NothingToRetarget(data); }
    }
  }

  lemma NothingToRetarget(data: seq<Byte>)
    ensures Retargeted(data, [], data)
  {
  }

  lemma RewriteStaysInside(data: seq<Byte>, p: nat)
    requires Careful(data, p) && !Malformed(data, p)
    ensures SameFrom(data, Rewritten(data, p), p + Size(data, p))
  {
    if ForIos(data, p) { OneByte(data, p); }
  }

  // --------------------------------------------------------- what it comes to

  lemma RetargetedKeeps(data: seq<Byte>, starts: seq<nat>, d: seq<Byte>, i: nat)
    requires Retargeted(data, starts, d) && forall k :: i <= k < i + 4 ==> !PlatformByte(data, starts, k)
    ensures Word(d, i) == Word(data, i)
  {
    SameWord(d, data, i);
  }

  /** No platform byte of the walk lies in a command's first eight bytes. */
  lemma HeadersAreApart(data: seq<Byte>, p: nat, n: nat, q: nat, k: nat)
    requires Starts(data, p, n).Some? && CarefulWalk(data, p, n) && q in Starts(data, p, n).value && q <= k < q + 8
    ensures !PlatformByte(data, Starts(data, p, n).value, k)
    decreases n
  {
    hide Malformed, ForIos, Size;
    var rest := Starts(data, p + Size(data, p), n - 1).value;
    assert forall x :: x in [p] + rest <==> x == p || x in rest;
    StartsLater(data, p, n);
    StartsLater(data, p + Size(data, p), n - 1);
    if q != p { HeadersAreApart(data, p + Size(data, p), n - 1, q, k); }
  }

  /** The retargeted file has the same commands in the same places. */
  lemma {:induction false} SameStarts(data: seq<Byte>, all: seq<nat>, d: seq<Byte>, p: nat, n: nat)
    requires Starts(data, p, n).Some? && Retargeted(data, all, d)
    requires forall q :: q in Starts(data, p, n).value ==> Word(d, q) == Word(data, q) && Size(d, q) == Size(data, q)
    ensures Starts(d, p, n) == Starts(data, p, n)
    decreases n
  {
    hide Size, Word;
    if n > 0 {
      var rest := Starts(data, p + Size(data, p), n - 1).value;
      assert forall x :: x in [p] + rest <==> x == p || x in rest;
      SameStarts(data, all, d, p + Size(data, p), n - 1);
    }
  }

  lemma NoneLeft(data: seq<Byte>, starts: seq<nat>, d: seq<Byte>, q: nat)
    requires Retargeted(data, starts, d) && q in starts && q + 8 <= |data| && Careful(data, q)
    requires Word(d, q) == Word(data, q)
    requires forall x :: x in starts && x != q ==> x + 8 <= q || q + 8 <= x
    ensures !ForIos(d, q)
  {
    hide Little;
    if ForIos(data, q) {
      OneByte(data, q);
      assert PlatformByte(data, starts, q + 8);
      var s := Slice(d, q + 8, q + 12);
      assert s[0] == d[q + 8] == PLATFORM_TVOS;
      assert Little(s) == s[0] + 256 * Little(s[1..]) by { FirstByte(s); }
    } else {
      forall k | q + 8 <= k < q + 12 ensures !PlatformByte(data, starts, k) {
        forall x | x in starts && ForIos(data, x) ensures k != x + 8 { }
      }
      RetargetedKeeps(data, starts, d, q + 8);
    }
  }

  lemma FirstByte(s: seq<Byte>)
    requires s != []
    ensures Little(s) == s[0] + 256 * Little(s[1..])
  {
  }

  lemma {:induction false} StartsApart(data: seq<Byte>, p: nat, n: nat, q: nat, x: nat)
    requires Starts(data, p, n).Some? && q in Starts(data, p, n).value && x in Starts(data, p, n).value && x != q
    ensures x + 8 <= q || q + 8 <= x
    decreases n
  {
    hide Size;
    var rest := Starts(data, p + Size(data, p), n - 1).value;
    assert forall y :: y in [p] + rest <==> y == p || y in rest;
    StartsLater(data, p, n);
    StartsLater(data, p + Size(data, p), n - 1);
    if q != p && x != p { StartsApart(data, p + Size(data, p), n - 1, q, x); }
  }

  lemma {:induction false} EachIsCareful(data: seq<Byte>, p: nat, n: nat, q: nat)
    requires Starts(data, p, n).Some? && CarefulWalk(data, p, n) && q in Starts(data, p, n).value
    ensures Careful(data, q)
    decreases n
  {
    hide Size, Careful;
    var rest := Starts(data, p + Size(data, p), n - 1).value;
    assert forall y :: y in [p] + rest <==> y == p || y in rest;
    if q != p { EachIsCareful(data, p + Size(data, p), n - 1, q); }
  }

  lemma {:induction false} NothingToDo(data: seq<Byte>, p: nat, n: nat, patched: bool)
    requires Starts(data, p, n).Some? && forall q :: q in Starts(data, p, n).value ==> !ForIos(data, q)
    ensures Loop(data, p, n, patched) == Some((data, patched))
    decreases n
  {
    hide Size, ForIos;
    if n > 0 {
      var rest := Starts(data, p + Size(data, p), n - 1).value;
      assert forall x :: x in [p] + rest <==> x == p || x in rest;
      NothingToDo(data, p + Size(data, p), n - 1, patched);
    }
  }

  lemma RetargetedWords(data: seq<Byte>, d: seq<Byte>, q: nat, p: nat, n: nat)
    requires Starts(data, p, n).Some? && CarefulWalk(data, p, n) && Retargeted(data, Starts(data, p, n).value, d)
    requires q in Starts(data, p, n).value
    ensures Word(d, q) == Word(data, q) && Size(d, q) == Size(data, q) && !ForIos(d, q)
  {
    hide Word, ForIos, Starts, CarefulWalk, Careful, PlatformByte, Retargeted, Size;
    var starts := Starts(data, p, n).value;
    forall k | q <= k < q + 8 ensures !PlatformByte(data, starts, k) { HeadersAreApart(data, p, n, q, k); }
    RetargetedKeeps(data, starts, d, q);
    RetargetedKeeps(data, starts, d, q + 4);
    SizeIsWord(d, q);
    SizeIsWord(data, q);
    StartsLater(data, p, n);
    EachIsCareful(data, p, n, q);
    forall x | x in starts && x != q ensures x + 8 <= q || q + 8 <= x { StartsApart(data, p, n, q, x); }
    NoneLeft(data, starts, d, q);
  }

  lemma SizeIsWord(data: seq<Byte>, q: nat)
    ensures Size(data, q) == Word(data, q + 4)
  {
  }

  /** The patch of a well-formed file whose rewritten commands have room for their
      platform word: same length, same commands in the same places, nothing but
      iOS platform words of build-version commands changed, none of them left,
      and a second run finds nothing to do. */
  lemma PatchIsExact(data: seq<Byte>)
    requires |data| >= HEADER && CarefulWalk(data, HEADER, Commands(data)) && Starts(data, HEADER, Commands(data)).Some?
    ensures var n := Commands(data);
            && Loop(data, HEADER, n, false).Some?
            && var (d, patched) := Loop(data, HEADER, n, false).value;
               && Retargeted(data, Starts(data, HEADER, n).value, d)
               && (patched <==> d != data)
               && Commands(d) == n && Starts(d, HEADER, n) == Starts(data, HEADER, n)
               && (forall q :: q in Starts(data, HEADER, n).value ==> !ForIos(d, q))
               && Loop(d, HEADER, n, false) == Some((d, false))
  {
    hide Word, ForIos, Loop, Starts, CarefulWalk, Retargeted, Size, PlatformByte;
    var n := Commands(data);
    CarefulLoop(data, HEADER, n, false);
    var (d, patched) := Loop(data, HEADER, n, false).value;
    var starts := Starts(data, HEADER, n).value;
    forall q | q in starts ensures Word(d, q) == Word(data, q) && Size(d, q) == Size(data, q) && !ForIos(d, q) {
      RetargetedWords(data, d, q, HEADER, n);
    }
    StartsLater(data, HEADER, n);
    SameStarts(data, starts, d, HEADER, n);
    NothingToDo(d, HEADER, n, false);
    forall k | 16 <= k < 20 ensures !PlatformByte(data, starts, k) { HeaderIsApart(data, starts, k); }
    RetargetedKeeps(data, starts, d, 16);
    PatchedIfChanged(data, starts, d);
  }

  lemma HeaderIsApart(data: seq<Byte>, starts: seq<nat>, k: nat)
    requires k < HEADER && forall q :: q in starts ==> HEADER <= q
    ensures !PlatformByte(data, starts, k)
  {
  }

  lemma PatchedIfChanged(data: seq<Byte>, starts: seq<nat>, d: seq<Byte>)
    requires Retargeted(data, starts, d) && forall q :: q in starts ==> !ForIos(d, q)
    ensures (exists q :: q in starts && ForIos(data, q)) <==> d != data
  {
    hide ForIos;
  }

  /** Build-version commands of the documented size, twelve bytes or more, are careful. */
  lemma {:induction false} WideIsCareful(data: seq<Byte>, p: nat, n: nat)
    requires forall q: nat :: OnWalk(data, p, n, q) && Word(data, q) == LC_BUILD_VERSION ==> Size(data, q) >= 12
    ensures CarefulWalk(data, p, n)
    decreases n
  {
    hide Word, Size;
    if n > 0 && !Malformed(data, p) {
      assert OnWalk(data, p, n, p);
      forall q: nat | OnWalk(data, p + Size(data, p), n - 1, q) ensures OnWalk(data, p, n, q) { }
      WideIsCareful(data, p + Size(data, p), n - 1);
    }
  }

  /** A rewrite reaches at most the next command's first word, never its size; and
      when it makes the file longer, no room for a further command. */
  lemma RewriteSparesSizes(data: seq<Byte>, p: nat)
    requires p + 8 <= |data|
    ensures var d := Rewritten(data, p);
            if p + 12 <= |data| then |d| == |data| && forall k :: p + 12 <= k < |data| ==> d[k] == data[k]
            else |data| <= |d| <= p + 12
  {
  }

  /** So the walk over the buffer as it is rewritten gets through exactly if the walk
      over the file as it was does. */
  lemma {:induction false} WalksThrough(data: seq<Byte>, buffer: seq<Byte>, p: nat, n: nat, patched: bool)
    requires SameFrom(data, buffer, p + 4)
    ensures Loop(buffer, p, n, patched).Some? <==> Starts(data, p, n).Some?
    decreases n
  {
    hide Word, ForIos, Rewritten;
    SameWord(data, buffer, p + 4);
    SizeIsWord(data, p);
    SizeIsWord(buffer, p);
    if n > 0 && !Malformed(buffer, p) {
      var next, p1 := Rewritten(buffer, p), p + Size(buffer, p);
      RewriteSparesSizes(buffer, p);
      if p + 12 <= |buffer| {
        WalksThrough(data, next, p1, n - 1, patched || ForIos(buffer, p));
      } else {
        assert n > 1 ==> Malformed(next, p1) && Malformed(data, p1);
      }
    }
  }

  /** The patcher gives up, and writes nothing, if and only if the file's own walk
      meets a malformed command, whatever it has rewritten on the way. */
  lemma MalformedWritesNothing(data: seq<Byte>)
    requires |data| >= HEADER
    ensures Loop(data, HEADER, Commands(data), false).None? <==> Starts(data, HEADER, Commands(data)).None?
  {
    WalksThrough(data, data, HEADER, Commands(data), false);
  }

  // ------------------------------------------------ and when it is not safe

  /** The walk over the unmodified file reaches the command at q. */
  predicate OnWalk(data: seq<Byte>, p: nat, n: nat, q: nat)
    decreases n
  {
    n > 0 && !Malformed(data, p) && (q == p || OnWalk(data, p + Size(data, p), n - 1, q))
  }

  /** Only platform words inside their own build-version commands changed. */
  ghost predicate OnlyPlatforms(data: seq<Byte>, p: nat, n: nat, d: seq<Byte>) {
    && |d| == |data|
    && forall i :: 0 <= i < |data| && d[i] != data[i] ==>
         exists q: nat :: OnWalk(data, p, n, q) && i == q + 8 && Word(data, q) == LC_BUILD_VERSION
             && i < q + Size(data, q)
  }

  lemma {:induction false} WalkGoesOn(data: seq<Byte>, p: nat, n: nat, q: nat)
    requires OnWalk(data, p, n, q)
    ensures p <= q
    decreases n
  {
    hide Size;
    if q != p { WalkGoesOn(data, p + Size(data, p), n - 1, q); }
  }

  lemma {:induction false} SameReach(a: seq<Byte>, b: seq<Byte>, p: nat, n: nat, q: nat)
    requires SameFrom(a, b, p) && OnWalk(a, p, n, q)
    ensures OnWalk(b, p, n, q) && Word(a, q) == Word(b, q) && Size(a, q) == Size(b, q)
    decreases n
  {
    hide Size, Malformed, Word;
    SameCommand(a, b, p);
    if q == p {
      SameWord(a, b, p);
    } else {
      SameReach(a, b, p + Size(a, p), n - 1, q);
    }
  }

  lemma {:induction false} StartsAreReached(data: seq<Byte>, p: nat, n: nat, q: nat)
    requires Starts(data, p, n).Some? && q in Starts(data, p, n).value
    ensures OnWalk(data, p, n, q)
    decreases n
  {
    hide Size;
    var rest := Starts(data, p + Size(data, p), n - 1).value;
    assert forall x :: x in [p] + rest <==> x == p || x in rest;
    if q != p { StartsAreReached(data, p + Size(data, p), n - 1, q); }
  }

  lemma {:induction false} LoopPrefix(data: seq<Byte>, p: nat, n: nat, patched: bool)
    requires Loop(data, p, n, patched).Some? && p <= |data|
    ensures var d := Loop(data, p, n, patched).value.0; |d| >= |data| && d[..p] == data[..p]
    decreases n
  {
    hide Size, ForIos;
    if n > 0 {
      var after := Rewritten(data, p);
      assert |after| >= |data| && after[..p] == data[..p];
      LoopPrefix(after, p + Size(data, p), n - 1, patched || ForIos(data, p));
      var d := Loop(data, p, n, patched).value.0;
      assert d[..p] == d[..p + Size(data, p)][..p] && after[..p] == after[..p + Size(data, p)][..p];
    }
  }

  /** A command rewritten without care makes the file longer, or overwrites the
      first byte of what follows a command of size eight. */
  lemma CarelessTurn(data: seq<Byte>, p: nat, n: nat, patched: bool)
    requires n > 0 && !Malformed(data, p) && !Careful(data, p) && Loop(data, p, n, patched).Some?
    ensures var d := Loop(data, p, n, patched).value.0;
            |d| > |data| || (Size(data, p) == 8 && p + 12 <= |data| <= |d| && d[p + 8] == PLATFORM_TVOS
                && data[p + 8] == 2)
  {
    hide Size, Word;
    var after := Rewritten(data, p);
    var p1 := p + Size(data, p);
    LoopPrefix(after, p1, n - 1, patched || ForIos(data, p));
    if p + 12 <= |data| {
      OneByte(data, p);
      FirstByteSurvives(after, p1, n - 1, patched || ForIos(data, p));
    }
  }

  /** Once past a command, its first following byte keeps its value. */
  lemma FirstByteSurvives(data: seq<Byte>, p: nat, n: nat, patched: bool)
    requires Loop(data, p, n, patched).Some? && p < |data|
    ensures var d := Loop(data, p, n, patched).value.0; |d| >= |data| && d[p] == data[p]
  {
    hide Size, ForIos;
    if n > 0 {
      var after := Rewritten(data, p);
      LoopPrefix(after, p + Size(data, p), n - 1, patched || ForIos(data, p));
      var d := Loop(data, p, n, patched).value.0;
      assert d[..p + Size(data, p)][p] == after[..p + Size(data, p)][p];
    }
  }

  lemma {:induction false} CarelessDamages(data: seq<Byte>, p: nat, n: nat, patched: bool)
    requires Loop(data, p, n, patched).Some? && !CarefulWalk(data, p, n)
    ensures !OnlyPlatforms(data, p, n, Loop(data, p, n, patched).value.0)
    decreases n
  {
    hide Size, Word, Malformed, OnlyPlatforms;
    if !Careful(data, p) {
      CarelessTurn(data, p, n, patched);
      NotOnlyPlatforms(data, p, n, Loop(data, p, n, patched).value.0);
    } else {
      var after, p1 := Rewritten(data, p), p + Size(data, p);
      RewriteStaysInside(data, p);
      SameWalk(data, after, p1, n - 1);
      CarelessDamages(after, p1, n - 1, patched || ForIos(data, p));
      StillDamaged(data, p, n, patched);
    }
  }

  lemma NotOnlyPlatforms(data: seq<Byte>, p: nat, n: nat, d: seq<Byte>)
    requires |d| > |data| || (Size(data, p) == 8 && p + 12 <= |data| <= |d| && d[p + 8] == PLATFORM_TVOS
        && data[p + 8] == 2)
    ensures !OnlyPlatforms(data, p, n, d)
  {
    hide Word, Size;
  }

  lemma StillDamaged(data: seq<Byte>, p: nat, n: nat, patched: bool)
    requires n > 0 && Careful(data, p) && !Malformed(data, p) && Loop(data, p, n, patched).Some?
    requires !OnlyPlatforms(Rewritten(data, p), p + Size(data, p), n - 1, Loop(data, p, n, patched).value.0)
    ensures !OnlyPlatforms(data, p, n, Loop(data, p, n, patched).value.0)
  {
    hide Word, Size, Assign, Slice;
    var d, after, p1 := Loop(data, p, n, patched).value.0, Rewritten(data, p), p + Size(data, p);
    RewriteStaysInside(data, p);
    LoopPrefix(after, p1, n - 1, patched || ForIos(data, p));
    forall j | 0 <= j < p1 ensures d[j] == after[j] { assert d[..p1][j] == after[..p1][j]; }
    if OnlyPlatforms(data, p, n, d) {
      forall i | 0 <= i < |after| && d[i] != after[i]
        ensures exists q: nat ::
          OnWalk(after, p1, n - 1, q) && i == q + 8 && Word(after, q) == LC_BUILD_VERSION && i < q + Size(after, q)
      {
        var q: nat :| OnWalk(data, p, n, q) && i == q + 8 && Word(data, q) == LC_BUILD_VERSION && i < q + Size(data, q);
        SameReach(data, after, p1, n - 1, q);
      }
    }
  }

  /** When the loop gets through, it has changed nothing but platform words inside
      build-version commands if and only if the walk was careful: every command
      about to be rewritten has at least nine bytes and its whole word in the file. */
  lemma SafeExactlyWhenCareful(data: seq<Byte>)
    requires |data| >= HEADER && Loop(data, HEADER, Commands(data), false).Some?
    ensures CarefulWalk(data, HEADER, Commands(data))
            <==> OnlyPlatforms(data, HEADER, Commands(data), Loop(data, HEADER, Commands(data), false).value.0)
  {
    hide Loop, CarefulWalk, OnlyPlatforms, Retargeted, Starts;
    var n := Commands(data);
    var d := Loop(data, HEADER, n, false).value.0;
    if CarefulWalk(data, HEADER, n) {
      CarefulLoop(data, HEADER, n, false);
      var starts := Starts(data, HEADER, n).value;
      forall q | q in starts ensures Careful(data, q) && OnWalk(data, HEADER, n, q) {
        EachIsCareful(data, HEADER, n, q);
        StartsAreReached(data, HEADER, n, q);
      }
      RetargetedOnly(data, starts, n, d);
    } else {
      CarelessDamages(data, HEADER, n, false);
    }
  }

  lemma RetargetedOnly(data: seq<Byte>, starts: seq<nat>, n: nat, d: seq<Byte>)
    requires Retargeted(data, starts, d) && forall q :: q in starts ==> Careful(data, q) && OnWalk(data, HEADER, n, q)
    ensures OnlyPlatforms(data, HEADER, n, d)
  {
    hide Word, Size, OnWalk;
    forall i | 0 <= i < |data| && d[i] != data[i]
      ensures exists q: nat ::
        OnWalk(data, HEADER, n, q) && i == q + 8 && Word(data, q) == LC_BUILD_VERSION && i < q + Size(data, q)
    {
      var q :| q in starts && ForIos(data, q) && i == q + 8;
      assert OnWalk(data, HEADER, n, q) && i == q + 8 && Word(data, q) == LC_BUILD_VERSION && i < q + Size(data, q);
    }
  }

  /** An eight-byte build-version command followed by LC_SYMTAB, which is 2: the
      symbol table command is turned into a command of type 3. */
  const SHORT: seq<Byte> :=
    [0xcf, 0xfa, 0xed, 0xfe, 0, 0, 0, 0, 0, 0, 0, 0, 0, 0, 0, 0, 2, 0, 0, 0, 16, 0, 0, 0, 0, 0, 0, 0, 0, 0, 0, 0,
     0x32, 0, 0, 0, 8, 0, 0, 0,
     2, 0, 0, 0, 8, 0, 0, 0]

  lemma LittleFour(s: seq<Byte>)
    requires |s| == 4
    ensures Little(s) == s[0] as int + 256 * (s[1] as int + 256 * (s[2] as int + 256 * s[3] as int))
  {
    assert Little(s[1..]) == s[1] + 256 * Little(s[2..]) && s[1..][1..] == s[2..];
    assert Little(s[2..]) == s[2] + 256 * Little(s[3..]) && s[2..][1..] == s[3..];
    assert Little(s[3..]) == s[3] + 256 * Little([]) && s[3..][1..] == [];
  }

  lemma WordAt(data: seq<Byte>, i: nat)
    requires i + 4 <= |data|
    ensures Word(data, i) == data[i] as int + 256 * (data[i + 1] as int
        + 256 * (data[i + 2] as int + 256 * data[i + 3] as int))
  {
    LittleFour(Slice(data, i, i + 4));
  }

  lemma ShortWords()
    ensures Word(SHORT, 16) == 2 && Word(SHORT, 32) == LC_BUILD_VERSION && Word(SHORT, 36) == 8
    ensures Word(SHORT, 40) == 2 && Word(SHORT, 44) == 8
    ensures Word(SHORT[40 := 3], 40) == 3 && Word(SHORT[40 := 3], 44) == 8
  {
    hide Word;
    WordAt(SHORT, 16);
    WordAt(SHORT, 32);
    WordAt(SHORT, 36);
    WordAt(SHORT, 40);
    WordAt(SHORT, 44);
    WordAt(SHORT[40 := 3], 40);
    WordAt(SHORT[40 := 3], 44);
  }

  lemma SecondCommand(data: seq<Byte>)
    requires |data| == 48 && Word(data, 44) == 8 && Word(data, 40) < LC_BUILD_VERSION
    ensures Starts(data, 40, 1) == Some([40]) && Loop(data, 40, 1, true) == Some((data, true))
  {
    hide Word;
    SizeIsWord(data, 40);
    var none: seq<nat> := [];
    assert [40] + none == [40];
    assert Starts(data, 48, 0) == Some(none) && Loop(data, 48, 0, true) == Some((data, true));
  }

  lemma ShortCommandCorruptsNext()
    ensures Commands(SHORT) == 2 && Starts(SHORT, HEADER, 2) == Some([32, 40]) && Word(SHORT, 40) == 2
    ensures Loop(SHORT, HEADER, 2, false) == Some((SHORT[40 := 3], true)) && Word(SHORT[40 := 3], 40) == 3
  {
    hide Word;
    ShortWords();
    OneByte(SHORT, 32);
    SizeIsWord(SHORT, 32);
    SecondCommand(SHORT);
    SecondCommand(SHORT[40 := 3]);
    assert [32] + [40] == [32, 40];
  }

  // ------------------------------------------------------ the magic is not read

  /** What is before byte 16 never matters, and is never changed. */
  lemma {:induction false} LoopIgnores(a: seq<Byte>, b: seq<Byte>, p: nat, n: nat, patched: bool)
    requires 16 <= p && 16 <= |a| && SameFrom(a, b, 16)
    ensures Loop(a, p, n, patched).Some? <==> Loop(b, p, n, patched).Some?
    ensures Loop(a, p, n, patched).Some? ==>
      var (d, done), (e, done') := Loop(a, p, n, patched).value, Loop(b, p, n, patched).value;
      done == done' && 16 <= |d| && SameFrom(d, e, 16) && d[..16] == a[..16]
    decreases n
  {
    hide Malformed, ForIos, Size;
    if n > 0 {
      SameFromLater(a, b, p);
      SameCommand(a, b, p);
      if !Malformed(a, p) {
        RewrittenAlike(a, b, p);
        LoopIgnores(Rewritten(a, p), Rewritten(b, p), p + Size(a, p), n - 1, patched || ForIos(a, p));
      }
    }
  }

  lemma SameFromLater(a: seq<Byte>, b: seq<Byte>, p: nat)
    requires 16 <= p && SameFrom(a, b, 16)
    ensures SameFrom(a, b, p)
  {
  }

  lemma RewrittenAlike(a: seq<Byte>, b: seq<Byte>, p: nat)
    requires 16 <= p && 16 <= |a| && SameFrom(a, b, 16) && (ForIos(a, p) <==> ForIos(b, p))
    ensures SameFrom(Rewritten(a, p), Rewritten(b, p), 16) && 16 <= |Rewritten(a, p)|
        && Rewritten(a, p)[..16] == a[..16]
  {
    hide ForIos;
  }

  /** Two files that agree from byte 16 on are patched alike, whatever their magic:
      fat files included. */
  lemma MagicIgnored(a: seq<Byte>, b: seq<Byte>)
    requires |a| >= HEADER && SameFrom(a, b, 16)
    ensures Commands(a) == Commands(b)
    ensures var n := Commands(a);
            && (Loop(a, HEADER, n, false).Some? <==> Loop(b, HEADER, n, false).Some?)
            && (Loop(a, HEADER, n, false).Some? ==>
                  var (d, done), (e, done') := Loop(a, HEADER, n, false).value, Loop(b, HEADER, n, false).value;
                  done == done' && |e| >= 16 && d == a[..16] + e[16..])
  {
    hide Loop, Word;
    SameWord(a, b, 16);
    LoopIgnores(a, b, HEADER, Commands(a), false);
    if Loop(a, HEADER, Commands(a), false).Some? {
      var d, e := Loop(a, HEADER, Commands(a), false).value.0, Loop(b, HEADER, Commands(a), false).value.0;
      assert d == d[..16] + d[16..] && d[16..] == e[16..];
    }
  }

  /** A file with a fat magic that has the shape of one command for iOS. */
  function FatByte(i: nat): Byte {
    match i
    case 0 => 0xca
    case 1 => 0xfe
    case 2 => 0xba
    case 3 => 0xbe
    case 16 => 1
    case 20 => 12
    case 32 => LC_BUILD_VERSION
    case 36 => 12
    case 40 => 2
    case _ => 0
  }

  const FAT: seq<Byte> := seq(44, i requires 0 <= i < 44 => FatByte(i))

  lemma OneCommand(data: seq<Byte>)
    requires |data| == 44 && Word(data, 32) == LC_BUILD_VERSION && Word(data, 36) == 12
        && Word(data, 40) == PLATFORM_IOS
    ensures Loop(data, HEADER, 1, false) == Some((data[40 := 3], true)) && data[40] == 2
  {
    hide Word;
    SizeIsWord(data, 32);
    OneByte(data, 32);
    assert Loop(data[40 := 3], 44, 0, true) == Some((data[40 := 3], true));
  }

  lemma FatIsPatched()
    ensures FAT[0] == 0xca && FAT[1] == 0xfe && FAT[2] == 0xba && FAT[3] == 0xbe && Commands(FAT) == 1
    ensures Loop(FAT, HEADER, 1, false) == Some((FAT[40 := 3], true)) && FAT[40] == 2
  {
    hide Word, Loop;
    WordAt(FAT, 16);
    WordAt(FAT, 32);
    WordAt(FAT, 36);
    WordAt(FAT, 40);
    OneCommand(FAT);
  }

  // ------------------------------------------------------ the format, in bytes

  /** The four bytes at i as a little-endian number. */
  function Four(data: seq<Byte>, i: nat): nat
    requires i + 4 <= |data|
  {
    data[i] as int + 0x100 * data[i + 1] as int + 0x1_0000 * data[i + 2] as int + 0x100_0000 * data[i + 3] as int
  }

  lemma FourIsWord(data: seq<Byte>, i: nat)
    requires i + 4 <= |data|
    ensures Word(data, i) == Four(data, i)
  {
    WordAt(data, i);
  }

  /** A command of eight bytes or more lies inside the file, by its own account. */
  predicate Fits(data: seq<Byte>, p: nat) { p + 8 <= |data| && 8 <= Four(data, p + 4) <= |data| - p }

  /** The k-th command starts where the one before it ends. */
  predicate Follows(data: seq<Byte>, starts: seq<nat>, k: int) {
    0 < k < |starts| && Fits(data, starts[k - 1]) && starts[k] == starts[k - 1] + Four(data, starts[k - 1] + 4)
  }

  /** n commands follow one another from p on, starting at these places. */
  predicate LaidOut(data: seq<Byte>, p: nat, n: nat, starts: seq<nat>) {
    && |starts| == n && (n > 0 ==> starts[0] == p)
    && (forall k :: 0 <= k < n ==> Fits(data, starts[k]))
    && forall k :: 0 < k < n ==> Follows(data, starts, k)
  }

  lemma FitsMeans(data: seq<Byte>, p: nat)
    ensures Fits(data, p) <==> !Malformed(data, p)
    ensures Fits(data, p) ==> Size(data, p) == Four(data, p + 4)
  {
    hide Word;
    if p + 8 <= |data| { FourIsWord(data, p + 4); }
  }

  /** The walk gets through with these starts if and only if the file is laid out so. */
  lemma {:induction false} StartsMean(data: seq<Byte>, p: nat, n: nat, starts: seq<nat>)
    ensures Starts(data, p, n) == Some(starts) <==> LaidOut(data, p, n, starts)
    decreases n
  {
    hide Malformed, Size, LaidOut;
    if n == 0 {
      assert LaidOut(data, p, 0, starts) <==> starts == [] by { NothingLaidOut(data, p, starts); }
    } else {
      LaidOutFirst(data, p, n, starts);
      FitsMeans(data, p);
      if Fits(data, p) && starts != [] && starts[0] == p {
        StartsMean(data, p + Size(data, p), n - 1, starts[1..]);
        LaidOutMore(data, p, n, starts);
        assert starts == [p] + starts[1..];
      }
    }
  }

  lemma NothingLaidOut(data: seq<Byte>, p: nat, starts: seq<nat>)
    ensures LaidOut(data, p, 0, starts) <==> starts == []
  {
  }

  lemma LaidOutFirst(data: seq<Byte>, p: nat, n: nat, starts: seq<nat>)
    requires n > 0
    ensures LaidOut(data, p, n, starts) ==> starts != [] && starts[0] == p && Fits(data, p)
  {
    hide Fits;
  }

  lemma LaidOutMore(data: seq<Byte>, p: nat, n: nat, starts: seq<nat>)
    requires n > 0 && starts != [] && starts[0] == p && Fits(data, p)
    ensures LaidOut(data, p, n, starts) <==> LaidOut(data, p + Four(data, p + 4), n - 1, starts[1..])
  {
    hide Four;
    var rest, p1 := starts[1..], p + Four(data, p + 4);
    assert forall k :: 0 <= k < |rest| ==> rest[k] == starts[k + 1];
    if LaidOut(data, p1, n - 1, rest) {
      forall k | 0 <= k < n ensures Fits(data, starts[k]) {
        if k > 0 { assert Fits(data, rest[k - 1]); }
      }
      forall k | 0 < k < n ensures Follows(data, starts, k) {
        if k > 1 { assert Follows(data, rest, k - 1); }
      }
    }
    if LaidOut(data, p, n, starts) {
      assert n > 1 ==> Follows(data, starts, 1);
      forall k | 0 < k < n - 1 ensures Follows(data, rest, k) { assert Follows(data, starts, k + 1); }
    }
  }

  /** A build-version command for iOS, in bytes. */
  predicate BuildsForIos(data: seq<Byte>, p: nat) {
    p + 12 <= |data| && data[p..p + 4] == [0x32, 0, 0, 0] && data[p + 8..p + 12] == [2, 0, 0, 0]
  }

  /** A build-version command, in bytes. */
  predicate BuildVersion(data: seq<Byte>, p: nat) { p + 8 <= |data| && data[p..p + 4] == [0x32, 0, 0, 0] }

  lemma BytesOfSmall(data: seq<Byte>, i: nat, x: Byte)
    requires i + 4 <= |data|
    ensures Word(data, i) == x <==> data[i..i + 4] == [x, 0, 0, 0]
  {
    FourIsWord(data, i);
    assert data[i..i + 4] == [data[i], data[i + 1], data[i + 2], data[i + 3]];
  }

  lemma IosInBytes(data: seq<Byte>, p: nat)
    requires Fits(data, p)
    ensures Word(data, p) == LC_BUILD_VERSION <==> BuildVersion(data, p)
    ensures p + 12 <= |data| ==> (ForIos(data, p) <==> BuildsForIos(data, p))
  {
    hide Word, Four;
    BytesOfSmall(data, p, 0x32);
    if p + 12 <= |data| { BytesOfSmall(data, p + 8, 2); }
  }

  lemma DocumentedIsCareful(data: seq<Byte>, starts: seq<nat>)
    requires |data| >= 32 && LaidOut(data, 32, Four(data, 16), starts)
    requires forall k :: 0 <= k < |starts| && BuildVersion(data, starts[k]) ==> Four(data, starts[k] + 4) >= 12
    ensures CarefulWalk(data, 32, Commands(data)) && Starts(data, 32, Commands(data)) == Some(starts)
  {
    hide Word, Four, Malformed, Starts, BuildVersion, Size, CarefulWalk;
    FourIsWord(data, 16);
    var n := Commands(data);
    StartsMean(data, 32, n, starts);
    forall q: nat | OnWalk(data, 32, n, q) && Word(data, q) == LC_BUILD_VERSION ensures Size(data, q) >= 12 {
      OnWalkStarts(data, 32, n, q);
      var k :| 0 <= k < |starts| && starts[k] == q;
      IosInBytes(data, q);
      FitsMeans(data, q);
    }
    WideIsCareful(data, 32, n);
  }

  lemma {:induction false} OnWalkStarts(data: seq<Byte>, p: nat, n: nat, q: nat)
    requires Starts(data, p, n).Some? && OnWalk(data, p, n, q)
    ensures q in Starts(data, p, n).value
    decreases n
  {
    hide Malformed, Size;
    if q != p { OnWalkStarts(data, p + Size(data, p), n - 1, q); }
  }

  /** What the patcher makes of a 64-bit file, in bytes. The command count is at
      offset 16 and the commands lie one after the other from 32 on; every
      build-version command has the documented twelve bytes. Then exactly the first
      platform byte of each build-version command for iOS, at offset 8, changes, from
      2 to 3; and the file counts as patched if and only if there is one. */
  lemma PatchInBytes(data: seq<Byte>, starts: seq<nat>)
    requires |data| >= 32 && LaidOut(data, 32, Four(data, 16), starts)
    requires forall k :: 0 <= k < |starts| && BuildVersion(data, starts[k]) ==> Four(data, starts[k] + 4) >= 12
    ensures var end := Loop(data, HEADER, Commands(data), false);
            && end.Some? && |end.value.0| == |data|
            && (end.value.1 <==> exists k :: 0 <= k < |starts| && BuildsForIos(data, starts[k]))
            && forall i :: 0 <= i < |data| ==>
                 end.value.0[i] ==
                   if exists k :: 0 <= k < |starts| && starts[k] == i - 8 && BuildsForIos(data, starts[k])
                   then 3 else data[i]
  {
    hide Word, Four, Malformed, Starts, BuildsForIos, BuildVersion, Size, CarefulWalk, Loop, ForIos;
    DocumentedIsCareful(data, starts);
    CarefulLoop(data, 32, Commands(data), false);
    forall k | 0 <= k < |starts| ensures ForIos(data, starts[k]) <==> BuildsForIos(data, starts[k]) {
      WideInBytes(data, starts[k]);
    }
    var (d, patched) := Loop(data, 32, Commands(data), false).value;
    forall i | 0 <= i < |data|
      ensures PlatformByte(data, starts, i) <==>
              exists k :: 0 <= k < |starts| && starts[k] == i - 8 && BuildsForIos(data, starts[k])
    {
      if PlatformByte(data, starts, i) {
        var q :| q in starts && ForIos(data, q) && i == q + 8;
        var k :| 0 <= k < |starts| && starts[k] == q;
        assert starts[k] == i - 8 && BuildsForIos(data, starts[k]);
      }
    }
  }

  lemma WideInBytes(data: seq<Byte>, p: nat)
    requires Fits(data, p) && (BuildVersion(data, p) ==> Four(data, p + 4) >= 12)
    ensures ForIos(data, p) <==> BuildsForIos(data, p)
  {
    hide Word, Four;
    IosInBytes(data, p);
  }
}
