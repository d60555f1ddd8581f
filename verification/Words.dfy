/** Machine words and the chip mask that every part of the system shares. */
module Words {

  const TWO32: int := 0x1_0000_0000

  type u32 = x: int | 0 <= x < 0x1_0000_0000
  type i32 = x: int | -0x8000_0000 <= x < 0x8000_0000
  /** An eight-bit and a 32-bit pattern, wrapped so that bits only matter where they are looked at. */
  datatype Octet = Octet(bits: bv8)
  datatype Reg = Reg(bits: bv32)

  type byte = x: int | 0 <= x < 0x100

  datatype Option<+T> = None | Some(value: T)

  function Or<T>(o: Option<T>, default: T): T {
    if o.Some? then o.value else default
  }

  /** The value an unsigned 32-bit computation stores. */
  function Wrap(x: int): u32 {
    x % 0x1_0000_0000
  }

  /** The value a conversion to a signed 32-bit `int` stores. */
  function ToInt32(x: int): i32 {
    (x + 0x8000_0000) % 0x1_0000_0000 - 0x8000_0000
  }

  /** A signed value survives being passed as an unsigned one. */
  lemma SignedRoundTrip(x: i32)
    ensures ToInt32(Wrap(x)) == x
  {
  }

  /** `n * k` by repeated addition, so that offsets stay linear for the solver. */
  function Times(n: nat, k: nat): nat {
    if k == 0 then 0 else Times(n, k - 1) + n
  }

  lemma {:induction false} TimesIsProduct(n: nat, k: nat)
    ensures Times(n, k) == n * k
  {
    if k > 0 {
      TimesIsProduct(n, k - 1);
    }
  }

  lemma {:induction false} TimesScales(c: nat, n: nat, k: nat)
    ensures Times(c * n, k) == c * Times(n, k)
  {
    if k > 0 {
      TimesScales(c, n, k - 1);
      assert c * (Times(n, k - 1) + n) == c * Times(n, k - 1) + c * n;
    }
  }

  lemma {:induction false} TimesMonotone(n: nat, j: nat, k: nat)
    requires j <= k
    ensures Times(n, j) <= Times(n, k)
    decreases k
  {
    if j < k {
      TimesMonotone(n, j, k - 1);
    }
  }

  /** The four bytes of a word as the little-endian board lays them out in memory. */
  function WordBytes(w: u32): (bs: seq<byte>)
    ensures |bs| == 4
  {
    [w % 0x100, w / 0x100 % 0x100, w / 0x1_0000 % 0x100, w / 0x100_0000]
  }

  /** Memory image of a block of words. */
  function Bytes(ws: seq<u32>): (bs: seq<byte>)
    ensures |bs| == 4 * |ws|
  {
    if ws == [] then [] else Bytes(ws[..|ws| - 1]) + WordBytes(ws[|ws| - 1])
  }

  lemma {:induction false} BytesAppend(a: seq<u32>, b: seq<u32>)
    ensures Bytes(a + b) == Bytes(a) + Bytes(b)
  {
    if b == [] {
      assert a + b == a;
    } else {
      var init, last := b[..|b| - 1], b[|b| - 1];
      assert (a + b)[..|a + b| - 1] == a + init;
      BytesAppend(a, init);
    }
  }

  /** Cutting the memory image at word boundaries cuts the words. */
  lemma BytesSlice(ws: seq<u32>, lo: nat, len: nat, all: seq<byte>, part: seq<byte>)
    requires lo + len <= |ws|
    requires all == Bytes(ws) && part == Bytes(ws[lo..lo + len])
    ensures all[4 * lo..4 * lo + 4 * len] == part
  {
    var a, b, c := CutInThree(ws, lo, len);
    BytesAppend(a, b + c);
    BytesAppend(b, c);
    MiddleOf(Bytes(a), Bytes(b), Bytes(c), all);
  }

  lemma CutInThree<T>(s: seq<T>, lo: nat, len: nat) returns (a: seq<T>, b: seq<T>, c: seq<T>)
    requires lo + len <= |s|
    ensures s == a + (b + c) && |a| == lo && |b| == len && b == s[lo..lo + len]
  {
    a, b, c := s[..lo], s[lo..lo + len], s[lo + len..];
  }

  lemma MiddleOf<T>(a: seq<T>, b: seq<T>, c: seq<T>, all: seq<T>)
    requires all == a + (b + c)
    ensures all[|a|..|a| + |b|] == b
  {
  }

  /** The word that four little-endian bytes stand for. */
  function WordOf(bs: seq<byte>): u32
    requires |bs| == 4
  {
    bs[0] as int + 0x100 * (bs[1] as int + 0x100 * (bs[2] as int + 0x100 * bs[3] as int))
  }

  lemma WordOfBytes(w: u32)
    ensures WordOf(WordBytes(w)) == w
  {
    assert w / 0x1_0000 == w / 0x100 / 0x100;
    assert w / 0x100_0000 == w / 0x1_0000 / 0x100;
  }

  /** What a reader of the files sees in a block of bytes: one word after the other. */
  function Samples(bs: seq<byte>): seq<u32> {
    if |bs| < 4 then [] else Samples(bs[..|bs| - 4]) + [WordOf(bs[|bs| - 4..])]
  }

  /** The memory image determines the words: reading it gives them back. */
  lemma {:induction false} SamplesOfBytes(ws: seq<u32>)
    ensures Samples(Bytes(ws)) == ws
  {
    if ws != [] {
      var init, last := ws[..|ws| - 1], ws[|ws| - 1];
      var bs := Bytes(ws);
      SamplesOfBytes(init);
      assert bs[..|bs| - 4] == Bytes(init) && bs[|bs| - 4..] == WordBytes(last);
      WordOfBytes(last);
      assert ws == init + [last];
    }
  }
}

/** The eight-bit chip mask: which chips are read, and in which slot each lands. */
module ChipMask {
  import opened Words

  /** `1 << i`. */
  function Bit(i: nat): bv8
    requires i < 8
  {
    if i == 0 then 0x01 else if i == 1 then 0x02 else if i == 2 then 0x04 else if i == 3 then 0x08
    else if i == 4 then 0x10 else if i == 5 then 0x20 else if i == 6 then 0x40 else 0x80
  }

  predicate Enabled(mask: Octet, chip: nat) {
    chip < 8 && mask.bits & Bit(chip) != 0
  }

  /** Source 8 is the timestamp FIFO, which is always read. */
  predicate IsSource(mask: Octet, i: nat) {
    i == 8 || Enabled(mask, i)
  }

  /** Number of enabled chips below `i`. */
  function Rank(mask: Octet, i: nat): nat {
    if i == 0 then 0 else Rank(mask, i - 1) + (if Enabled(mask, i - 1) then 1 else 0)
  }

  /** The sources of one message, in the order of their slots: chips ascending, then the timestamps. */
  predicate InOrder(s: seq<nat>) {
    && |s| > 0 && s[|s| - 1] == 8
    && forall j, k :: 0 <= j < k < |s| ==> s[j] < s[k]
  }

  type SourceList = s: seq<nat> | InOrder(s) witness [8]

  lemma {:induction false} AscendingBound(s: SourceList, k: nat)
    requires k < |s|
    ensures k <= s[k] <= 8
    ensures s[k] == 8 <==> k == |s| - 1
  {
    if k > 0 {
      AscendingBound(s, k - 1);
    }
  }

  /** The enabled chips below `i`, in ascending order. */
  function Chips(mask: Octet, i: nat): (chips: seq<nat>)
    ensures |chips| == Rank(mask, i)
    ensures forall k :: 0 <= k < |chips| ==> chips[k] < i && Enabled(mask, chips[k])
    ensures forall j, k :: 0 <= j < k < |chips| ==> chips[j] < chips[k]
  {
    if i == 0 then [] else Chips(mask, i - 1) + (if Enabled(mask, i - 1) then [i - 1] else [])
  }

  function Sources(mask: Octet): SourceList {
    Chips(mask, 8) + [8]
  }

  lemma {:induction false} ChipAt(mask: Octet, i: nat, c: nat)
    requires c < i && Enabled(mask, c)
    ensures Rank(mask, c) < Rank(mask, i) && Chips(mask, i)[Rank(mask, c)] == c
  {
    if c < i - 1 {
      ChipAt(mask, i - 1, c);
    }
  }

  /** The slot of a source is the number of enabled chips below it. */
  lemma SlotOf(mask: Octet, i: nat)
    requires i <= 8
    ensures i in Sources(mask) <==> IsSource(mask, i)
    ensures IsSource(mask, i) ==> Rank(mask, i) < |Sources(mask)| && Sources(mask)[Rank(mask, i)] == i
  {
    if i < 8 && Enabled(mask, i) {
      ChipAt(mask, 8, i);
    }
  }

  ghost function EnabledBelow(mask: Octet, i: nat): set<nat> {
    set c: nat | c < i && Enabled(mask, c)
  }

  /** `Rank` counts them. */
  lemma {:induction false} RankCounts(mask: Octet, i: nat)
    ensures Rank(mask, i) == |EnabledBelow(mask, i)|
  {
    if i > 0 {
      RankCounts(mask, i - 1);
      var below := EnabledBelow(mask, i - 1);
      assert EnabledBelow(mask, i) == if Enabled(mask, i - 1) then below + {i - 1} else below;
    }
  }

  // What a mask selects, in terms of its bits alone.

  /** Bit `c` of the mask, `1 << c`, is set. */
  predicate BitSet(mask: Octet, c: nat) {
    c < 8 && mask.bits & ((1 as bv8) << c) != 0
  }

  lemma BitIsShift(i: nat)
    requires i < 8
    ensures Bit(i) == (1 as bv8) << i
  {
    match i
    case 0 =>
    case 1 =>
    case 2 =>
    case 3 =>
    case 4 =>
    case 5 =>
    case 6 =>
    case _ =>
  }

  lemma EnabledIsBit(mask: Octet, c: nat)
    ensures Enabled(mask, c) <==> BitSet(mask, c)
  {
    if c < 8 {
      BitIsShift(c);
    }
  }

  /** The sources are the chips whose bit `1 << i` is set in the mask, and the timestamps. */
  lemma SourcesAreBits(mask: Octet, i: nat)
    requires i <= 8
    ensures i in Sources(mask) <==> i == 8 || BitSet(mask, i)
  {
    SlotOf(mask, i);
    EnabledIsBit(mask, i);
  }

  /** The chips below `i` whose bit is set. */
  ghost function Selected(mask: Octet, i: nat): set<nat> {
    set c: nat | c < i && BitSet(mask, c)
  }

  /** ... and they are as many as the rank says. */
  lemma RankIsBits(mask: Octet, i: nat)
    ensures Rank(mask, i) == |Selected(mask, i)|
  {
    RankCounts(mask, i);
    forall c: nat
      ensures c in EnabledBelow(mask, i) <==> c in Selected(mask, i)
    {
      EnabledIsBit(mask, c);
    }
    assert EnabledBelow(mask, i) == Selected(mask, i);
  }

  /** All eight chips are enabled exactly when the mask is 0xff. */
  lemma FullMask(mask: Octet)
    ensures Rank(mask, 8) <= 8
    ensures Rank(mask, 8) == 8 <==> mask.bits == 0xff
  {
    assert Rank(mask, 1) == if Enabled(mask, 0) then 1 else 0;
    assert Rank(mask, 3) == Rank(mask, 1) + (if Enabled(mask, 1) then 1 else 0) + (if Enabled(mask, 2) then 1 else 0);
    assert Rank(mask, 5) == Rank(mask, 3) + (if Enabled(mask, 3) then 1 else 0) + (if Enabled(mask, 4) then 1 else 0);
    assert Rank(mask, 7) == Rank(mask, 5) + (if Enabled(mask, 5) then 1 else 0) + (if Enabled(mask, 6) then 1 else 0);
  }
}
