/** The linked ring of scatter-gather descriptors, as the flat word array that holds it. */
module SgRing {
  import opened Words
  import opened ChipMask

  const COMPLETE: u32 := 0x8000_0000

  /** What one call of `configureSGBuf` is given: both physical bases, the sources and the block length in bytes. */
  datatype Ring = Ring(sgBase: u32, dataBase: u32, srcs: SourceList, length: u32)

  /** The words of one descriptor that the engine reads; the upper address halves stay zero. */
  datatype Descriptor = Descriptor(next: u32, nextHi: u32, source: u32, sourceHi: u32,
                                   dest: u32, destHi: u32, control: u32, status: u32)

  function Desc(sg: seq<u32>, k: nat): Descriptor
    requires 32 * k + 8 <= |sg|
  {
    Descriptor(sg[32 * k], sg[32 * k + 1], sg[32 * k + 2], sg[32 * k + 3],
               sg[32 * k + 4], sg[32 * k + 5], sg[32 * k + 6], sg[32 * k + 7])
  }

  function FifoAddress(i: nat): u32
    requires i <= 8
  {
    0x7600_0000 + 0x1_0000 * i
  }

  // The three address computations, with the wrap-around of the 32-bit arithmetic that performs them.

  function DescAddress(g: Ring, k: nat): u32 {
    Wrap(g.sgBase + Wrap(k * 128))
  }

  /** The tail pointer of a ring of `count` descriptors. */
  function TailAddress(sgBase: u32, count: nat): u32 {
    Wrap(sgBase + Wrap((count - 1) * 128))
  }

  function DestAddress(g: Ring, k: nat): u32 {
    Wrap(g.dataBase + Wrap(g.length * k))
  }

  function SlotLength(g: Ring, i: nat): u32 {
    if i == 8 then Wrap(2 * g.length) else g.length
  }

  function Successor(g: Ring, k: nat): nat {
    if k + 1 == |g.srcs| then 0 else k + 1
  }

  /** Word `field` of descriptor `k`, whose next pointer is aimed at descriptor `next`. */
  function Field(g: Ring, k: nat, next: nat, field: nat): u32
    requires k < |g.srcs|
  {
    if field == 0 then DescAddress(g, next)
    else if field == 2 then FifoAddress(g.srcs[k])
    else if field == 4 then DestAddress(g, k)
    else if field == 6 then SlotLength(g, g.srcs[k])
    else 0
  }

  /** Word `w` of the finished ring: the last descriptor points back at the first, and whatever
      lies behind the ring has been cleared. */
  function RingWord(g: Ring, w: nat): u32 {
    var k := w / 32;
    if k < |g.srcs| then Field(g, k, Successor(g, k), w % 32) else 0
  }

  /** The descriptors and the data they describe lie inside the 32-bit address space. */
  ghost predicate Fits(g: Ring) {
    && g.sgBase + 128 * |g.srcs| < TWO32
    && g.dataBase + Times(g.length, |g.srcs| + 1) < TWO32
  }

  /** What descriptor `k` must say, in exact arithmetic. */
  ghost predicate Describes(ds: Descriptor, g: Ring, k: nat)
    requires k < |g.srcs|
  {
    && ds.next == g.sgBase + 128 * Successor(g, k)
    && ds.source == FifoAddress(g.srcs[k])
    && ds.dest == g.dataBase + Times(g.length, k)
    && ds.control == (if k + 1 == |g.srcs| then 2 * g.length else g.length)
    && ds.nextHi == ds.sourceHi == ds.destHi == 0
  }

  /** The words hold the ring of `g`; nothing is said about the status words. */
  ghost predicate Linked(sg: seq<u32>, g: Ring) {
    && Fits(g)
    && 32 * |g.srcs| <= |sg|
    && forall k :: 0 <= k < |g.srcs| ==> Describes(Desc(sg, k), g, k)
  }

  /** Every descriptor of the ring is ready to be processed. */
  ghost predicate Armed(sg: seq<u32>, g: Ring) {
    32 * |g.srcs| <= |sg| && forall k :: 0 <= k < |g.srcs| ==> Desc(sg, k).status == 0
  }

  /** The buffer holds the ring of `g` and nothing else. */
  ghost predicate HoldsRing(sg: seq<u32>, g: Ring) {
    forall w {:trigger RingWord(g, w)} :: 0 <= w < |sg| ==> sg[w] == RingWord(g, w)
  }

  function RingWords(size: nat, g: Ring): (sg: seq<u32>)
    ensures |sg| == size
    ensures HoldsRing(sg, g)
  {
    seq(size, w requires 0 <= w < size => RingWord(g, w))
  }

  lemma WordAt(sg: seq<u32>, g: Ring, k: nat, field: nat)
    requires HoldsRing(sg, g)
    requires k < |g.srcs| && field < 32 && 32 * k + field < |sg|
    ensures sg[32 * k + field] == Field(g, k, Successor(g, k), field)
  {
    assert (32 * k + field) / 32 == k && (32 * k + field) % 32 == field;
    assert sg[32 * k + field] == RingWord(g, 32 * k + field);
  }

  /** Descriptor `k` as `configureSGBuf` writes it, before asking whether its arithmetic wrapped. */
  ghost predicate Written(ds: Descriptor, g: Ring, k: nat)
    requires k < |g.srcs|
  {
    var next := Successor(g, k);
    ds == Descriptor(Field(g, k, next, 0), Field(g, k, next, 1), Field(g, k, next, 2), Field(g, k, next, 3),
                     Field(g, k, next, 4), Field(g, k, next, 5), Field(g, k, next, 6), Field(g, k, next, 7))
  }

  lemma RingIsWritten(sg: seq<u32>, g: Ring, k: nat)
    requires HoldsRing(sg, g)
    requires 32 * |g.srcs| <= |sg| && k < |g.srcs|
    ensures Written(Desc(sg, k), g, k)
  {
    WordAt(sg, g, k, 0); WordAt(sg, g, k, 1); WordAt(sg, g, k, 2); WordAt(sg, g, k, 3);
    WordAt(sg, g, k, 4); WordAt(sg, g, k, 5); WordAt(sg, g, k, 6); WordAt(sg, g, k, 7);
  }

  lemma WrittenDescribes(ds: Descriptor, g: Ring, k: nat)
    requires Fits(g) && k < |g.srcs|
    requires Written(ds, g, k)
    ensures Describes(ds, g, k) && ds.status == 0
  {
    ExactDescAddress(g, Successor(g, k));
    ExactDestAddress(g, k);
    ExactTimestampLength(g);
  }

  /** When nothing overflows, the words written are a ring, and it is armed. */
  lemma RingIsLinked(sg: seq<u32>, g: Ring)
    requires HoldsRing(sg, g)
    requires Fits(g) && 32 * |g.srcs| <= |sg|
    ensures Linked(sg, g) && Armed(sg, g)
  {
    forall k | 0 <= k < |g.srcs|
      ensures Describes(Desc(sg, k), g, k) && Desc(sg, k).status == 0
    {
      RingIsWritten(sg, g, k);
      WrittenDescribes(Desc(sg, k), g, k);
    }
  }

  lemma ExactDescAddress(g: Ring, k: nat)
    requires Fits(g) && k < |g.srcs|
    ensures DescAddress(g, k) == g.sgBase + 128 * k
  {
    assert k * 128 < TWO32;
  }

  lemma ExactDestAddress(g: Ring, k: nat)
    requires Fits(g) && k < |g.srcs|
    ensures DestAddress(g, k) == g.dataBase + Times(g.length, k)
  {
    TimesIsProduct(g.length, k);
    TimesMonotone(g.length, k, |g.srcs| + 1);
    WrapSum(g.dataBase, g.length * k, Times(g.length, k));
  }

  lemma WrapSum(base: nat, x: int, y: nat)
    requires x == y && base + y < TWO32
    ensures Wrap(base + Wrap(x)) == base + y
  {
  }

  lemma ExactTimestampLength(g: Ring)
    requires Fits(g)
    ensures SlotLength(g, 8) == 2 * g.length
  {
    TimesMonotone(g.length, 2, |g.srcs| + 1);
    assert Times(g.length, 2) == Times(g.length, 1) + g.length;
  }

  // ---------- following the next pointers ----------

  /** Which descriptor an address points at, or -1. */
  function DescIndex(base: u32, address: u32): int {
    if base <= address && (address - base) % 128 == 0 then (address - base) / 128 else -1
  }

  lemma DescIndexOf(base: u32, address: u32, k: nat)
    requires address == base + 128 * k
    ensures DescIndex(base, address) == k
  {
  }

  /** The address found in the descriptor at `address`, or `address` itself if no descriptor can be there. */
  function Follow(sg: seq<u32>, base: u32, address: u32): u32 {
    var k := DescIndex(base, address);
    if 0 <= k && 32 * k + 8 <= |sg| then Desc(sg, k).next else address
  }

  /** The address reached from the base after `hops` next pointers. */
  function Walk(sg: seq<u32>, base: u32, hops: nat): u32 {
    if hops == 0 then base else Follow(sg, base, Walk(sg, base, hops - 1))
  }

  lemma FollowLinked(sg: seq<u32>, g: Ring, k: nat)
    requires Linked(sg, g) && k < |g.srcs|
    ensures 0 <= g.sgBase + 128 * k < TWO32
    ensures Follow(sg, g.sgBase, g.sgBase + 128 * k) == g.sgBase + 128 * Successor(g, k)
  {
    DescIndexOf(g.sgBase, g.sgBase + 128 * k, k);
  }

  /** Which descriptor of the cycle is reached after `hops` hops. */
  ghost function RingIndex(g: Ring, hops: nat): (k: nat)
    ensures k < |g.srcs|
    ensures hops < |g.srcs| ==> k == hops
    ensures hops == |g.srcs| ==> k == 0
  {
    if hops == 0 then 0 else Successor(g, RingIndex(g, hops - 1))
  }

  /** However far the pointers are followed, they only ever visit the ring's own descriptors, in turn. */
  lemma {:induction false} WalkCycles(sg: seq<u32>, g: Ring, hops: nat, address: int)
    requires Linked(sg, g)
    requires address == g.sgBase + 128 * RingIndex(g, hops)
    ensures Walk(sg, g.sgBase, hops) == address
  {
    if hops > 0 {
      var k := RingIndex(g, hops - 1);
      FollowLinked(sg, g, k);
      WalkCycles(sg, g, hops - 1, g.sgBase + 128 * k);
    }
  }

  /** `address` is one of the first `n` addresses that the walk visits. */
  ghost predicate OnRing(sg: seq<u32>, g: Ring, address: u32) {
    exists k: nat :: k < |g.srcs| && Walk(sg, g.sgBase, k) == address
  }

  /** The walk visits exactly one descriptor per enabled chip plus one, all distinct, and closes on the base.
      A descriptor left over from an earlier, larger mask is never visited. */
  lemma WalkVisitsRing(sg: seq<u32>, g: Ring)
    requires Linked(sg, g)
    ensures Walk(sg, g.sgBase, |g.srcs|) == g.sgBase
    ensures forall i, j :: 0 <= i < j < |g.srcs| ==> Walk(sg, g.sgBase, i) != Walk(sg, g.sgBase, j)
    ensures forall hops: nat :: OnRing(sg, g, Walk(sg, g.sgBase, hops))
  {
    WalkCycles(sg, g, |g.srcs|, g.sgBase);
    forall i, j | 0 <= i < j < |g.srcs|
      ensures Walk(sg, g.sgBase, i) != Walk(sg, g.sgBase, j)
    {
      WalkCycles(sg, g, i, g.sgBase + 128 * i);
      WalkCycles(sg, g, j, g.sgBase + 128 * j);
    }
    forall hops: nat
      ensures OnRing(sg, g, Walk(sg, g.sgBase, hops))
    {
      WalkStays(sg, g, hops);
    }
  }

  lemma WalkStays(sg: seq<u32>, g: Ring, hops: nat)
    requires Linked(sg, g)
    ensures OnRing(sg, g, Walk(sg, g.sgBase, hops))
  {
    var k := RingIndex(g, hops);
    WalkCycles(sg, g, hops, g.sgBase + 128 * k);
    WalkCycles(sg, g, k, g.sgBase + 128 * k);
  }

  // ---------- destination ranges ----------

  /** Byte `b` of the data buffer belongs to the transfer of descriptor `k`. */
  ghost predicate InSlot(sg: seq<u32>, g: Ring, k: nat, b: nat)
    requires 32 * k + 8 <= |sg|
  {
    Desc(sg, k).dest <= g.dataBase + b < Desc(sg, k).dest + Desc(sg, k).control
  }

  /** The destination ranges tile the first (n + 1) * length bytes: every byte in exactly one range, none beyond. */
  lemma SlotsTile(sg: seq<u32>, g: Ring, b: nat)
    requires Linked(sg, g)
    ensures b < g.length * (|g.srcs| + 1) <==> exists k :: 0 <= k < |g.srcs| && InSlot(sg, g, k, b)
    ensures forall j, k :: 0 <= j < |g.srcs| && 0 <= k < |g.srcs| && InSlot(sg, g, j, b) && InSlot(sg, g, k, b)
              ==> j == k
  {
    var n := |g.srcs|;
    TimesIsProduct(g.length, n + 1);
    assert Times(g.length, n + 1) == Times(g.length, n) + g.length;
    forall k | 0 <= k < n
      ensures InSlot(sg, g, k, b) ==> b < Times(g.length, n + 1)
      ensures InSlot(sg, g, k, b) <==> SlotAt(g.length, n, b) == k && b < Times(g.length, n + 1)
    {
      SlotAtIs(g.length, n, b, k);
      assert Describes(Desc(sg, k), g, k);
    }
    if b < Times(g.length, n + 1) {
      assert 0 <= SlotAt(g.length, n, b) < n;
      assert InSlot(sg, g, SlotAt(g.length, n, b), b);
    }
  }

  /** The slot of byte `b` when `n` slots of `length` bytes follow each other, the last one open-ended. */
  ghost function SlotAt(length: nat, n: nat, b: nat): (k: nat)
    requires n > 0
    ensures k < n
  {
    if n == 1 || b >= Times(length, n - 1) then n - 1 else SlotAt(length, n - 1, b)
  }

  lemma {:induction false} SlotAtIs(length: nat, n: nat, b: nat, k: nat)
    requires k < n
    ensures SlotAt(length, n, b) == k <==> Times(length, k) <= b && (k + 1 < n ==> b < Times(length, k + 1))
  {
    if n > 1 {
      if k < n - 1 {
        SlotAtIs(length, n - 1, b, k);
        TimesMonotone(length, k + 1, n - 1);
      }
    }
  }

  /** The range of a source starts `length` times the number of enabled chips below it. */
  lemma SlotStart(sg: seq<u32>, g: Ring, mask: Octet, i: nat)
    requires Linked(sg, g) && g.srcs == Sources(mask) && i <= 8 && IsSource(mask, i)
    ensures Rank(mask, i) < |g.srcs|
    ensures Desc(sg, Rank(mask, i)).source == FifoAddress(i)
    ensures Desc(sg, Rank(mask, i)).dest == g.dataBase + g.length * Rank(mask, i)
    ensures Desc(sg, Rank(mask, i)).control == if i == 8 then 2 * g.length else g.length
  {
    SlotOf(mask, i);
    TimesIsProduct(g.length, Rank(mask, i));
    assert Describes(Desc(sg, Rank(mask, i)), g, Rank(mask, i));
  }

  // ---------- sizes ----------

  // The three byte counts computed for a message of n reads, on a board whose `size_t` has 32 bits.

  /** `reads_per_trigger_*(nChan_+2)*sizeof(uint32_t)`: the first product is of two signed integers, and beyond their
      range the language does not define it. */
  function MessageBytes(n: u32, nChan: nat): Option<u32> {
    var product := ToInt32(n) * (nChan + 2);
    if -0x8000_0000 <= product < 0x8000_0000 then Some(Wrap(Wrap(product) * 4)) else None
  }

  function CopyBytes(n: u32, nSGBuf: nat): u32 {
    Wrap(Wrap((nSGBuf + 1) * n) * 4)
  }

  function SyncBytes(n: u32): u32 {
    Wrap(Wrap(n * 10) * 4)
  }

  lemma WrapOfSigned(n: u32, k: nat)
    ensures Wrap(ToInt32(n) * k) == Wrap(k * n)
  {
    var x := ToInt32(n);
    if n >= 0x8000_0000 {
      assert x == n - 0x1_0000_0000;
      Distribute(n, k);
      WrapMinus(k * n, k);
    } else {
      assert x == n;
    }
  }

  lemma Distribute(n: int, k: nat)
    ensures (n - 0x1_0000_0000) * k == k * n - k * 0x1_0000_0000
  {
  }

  lemma {:induction false} WrapMinus(x: int, k: nat)
    ensures Wrap(x - k * 0x1_0000_0000) == Wrap(x)
  {
    if k > 0 {
      WrapMinus(x, k - 1);
    }
  }

  /** Wherever its size is defined at all, the message is as large as the copy into it, even when the unsigned
      arithmetic wraps. */
  lemma SizesAgree(mask: Octet, n: u32)
    ensures MessageBytes(n, Rank(mask, 8)).Some?
            ==> MessageBytes(n, Rank(mask, 8)).value == CopyBytes(n, |Sources(mask)|)
  {
    WrapOfSigned(n, Rank(mask, 8) + 2);
  }

  /** Below the wrap that size is the ring's, and it fills the synchronised window exactly when all eight
      chips are enabled. */
  lemma SizesFit(mask: Octet, n: u32)
    requires 0 < n && n * 40 < TWO32
    ensures MessageBytes(n, Rank(mask, 8)) == Some(CopyBytes(n, |Sources(mask)|))
    ensures CopyBytes(n, |Sources(mask)|) == 4 * Times(n, |Sources(mask)| + 1) <= SyncBytes(n) == 40 * n
    ensures CopyBytes(n, |Sources(mask)|) == SyncBytes(n) <==> mask.bits == 0xff
  {
    FullMask(mask);
    var k := |Sources(mask)| + 1;
    TimesIsProduct(n, k);
    ProductBound(n, k, 10);
    ExactBytes(k * n, Times(n, k));
    ExactBytes(n * 10, 10 * n);
    SizesAgree(mask, n);
  }

  lemma ExactBytes(x: int, y: nat)
    requires x == y && 4 * y < TWO32
    ensures Wrap(Wrap(x) * 4) == 4 * y
  {
  }

  lemma ProductBound(n: nat, k: nat, m: nat)
    requires 0 < n && k <= m
    ensures k * n == n * k <= n * m && (n * k == n * m <==> k == m)
  {
    assert n * m == n * k + n * (m - k);
  }
}
