/** The scatter-gather engine as a step machine, and the proof that over a linked ring it is a plain gather.

    The engine is hardware the repository only talks to.  What is assumed of it is exactly `Step`: it works
    through descriptors from the current pointer along the next pointers up to and including the tail; it
    refuses a descriptor whose completion bit is already set; it sets that bit when the transfer is done; and
    its current pointer is left at the tail's successor.  Reads are keyhole reads: a transfer pops its source. */
module Cdma {
  import opened Words
  import opened ChipMask
  import opened SgRing

  /** Everything a FIFO ever held, and how much of it has been popped. */
  datatype Fifo = Fifo(stream: seq<u32>, pos: nat)

  datatype Dma = Dma(
    sgBase: u32, dataBase: u32,       // physical bases of the two buffers
    sg: seq<u32>, data: seq<u32>,     // descriptor buffer and data buffer
    fifos: seq<Fifo>,                 // eight chips, then the timestamps
    cur: u32, tail: u32,              // registers 2 and 4
    busy: bool, fault: bool)

  ghost predicate WellFormed(d: Dma) {
    |d.fifos| == 9 && forall i :: 0 <= i < 9 ==> d.fifos[i].pos <= |d.fifos[i].stream|
  }

  // ---------- one step ----------

  /** Which FIFO answers at an address, or -1. */
  function FifoAt(a: u32): int {
    if 0x7600_0000 <= a <= 0x7608_0000 && (a - 0x7600_0000) % 0x1_0000 == 0 then (a - 0x7600_0000) / 0x1_0000 else -1
  }

  /** The word a byte address falls on, or -1 if it is not word-aligned or lies below the base. */
  function WordIndex(base: u32, a: u32): int {
    if base <= a && (a - base) % 4 == 0 then (a - base) / 4 else -1
  }

  /** The whole transfer of descriptor `ds` is possible. */
  predicate Transferable(d: Dma, ds: Descriptor) {
    var i, at, count := FifoAt(ds.source), WordIndex(d.dataBase, ds.dest), WordIndex(0, ds.control);
    && ds.status < COMPLETE
    && 0 <= i < |d.fifos| && 0 <= at && 0 <= count
    && d.fifos[i].pos + count <= |d.fifos[i].stream|
    && at + count <= |d.data|
  }

  /** The descriptor at the current pointer can be processed. */
  predicate CanTransfer(d: Dma) {
    var k := DescIndex(d.sgBase, d.cur);
    0 <= k && 32 * k + 8 <= |d.sg| && Transferable(d, Desc(d.sg, k))
  }

  /** Move `count` words of source `i` to offset `at` of the data buffer and retire descriptor `k`. */
  function Transfer(d: Dma, k: nat, i: nat, at: nat, count: nat): Dma
    requires 32 * k + 8 <= |d.sg| && i < |d.fifos| && at + count <= |d.data|
    requires d.fifos[i].pos + count <= |d.fifos[i].stream|
  {
    var f := d.fifos[i];
    d.(data := d.data[..at] + f.stream[f.pos..f.pos + count] + d.data[at + count..],
       fifos := d.fifos[i := f.(pos := f.pos + count)],
       sg := d.sg[32 * k + 7 := COMPLETE],
       cur := Desc(d.sg, k).next,
       busy := d.cur != d.tail)
  }

  function Step(d: Dma): Dma {
    if !d.busy then d
    else if !CanTransfer(d) then d.(busy := false, fault := true)
    else
      var k := DescIndex(d.sgBase, d.cur);
      var ds := Desc(d.sg, k);
      Transfer(d, k, FifoAt(ds.source), WordIndex(d.dataBase, ds.dest), WordIndex(0, ds.control))
  }

  function Steps(d: Dma, count: nat): Dma {
    if count == 0 then d else Step(Steps(d, count - 1))
  }

  /** Writing the tail pointer register starts the engine. */
  function Kick(d: Dma, tail: u32): Dma {
    d.(tail := tail, busy := true)
  }

  /** The ADC pushes words into one FIFO. */
  function Fill(d: Dma, i: nat, words: seq<u32>): Dma
    requires i < |d.fifos|
  {
    d.(fifos := d.fifos[i := d.fifos[i].(stream := d.fifos[i].stream + words)])
  }

  // ---------- the gather ----------

  /** Words that one read takes from source `i`: the timestamps are 64 bits wide. */
  function Share(n: nat, i: nat): nat {
    if i == 8 then 2 * n else n
  }

  /** From these positions on, every listed source holds a whole share. */
  ghost predicate Holds(fifos: seq<Fifo>, start: seq<nat>, srcs: SourceList, n: nat) {
    && |fifos| == |start| == 9
    && forall k :: 0 <= k < |srcs| ==> srcs[k] < 9 && start[srcs[k]] + Share(n, srcs[k]) <= |fifos[srcs[k]].stream|
  }

  /** The next share of source `i`. */
  function Block(fifos: seq<Fifo>, start: seq<nat>, n: nat, i: nat): seq<u32>
    requires i < |fifos| && i < |start| && start[i] + Share(n, i) <= |fifos[i].stream|
  {
    fifos[i].stream[start[i]..start[i] + Share(n, i)]
  }

  /** The first `slots` slots of a message: for each source in order, its next share. */
  ghost function Gather(fifos: seq<Fifo>, start: seq<nat>, srcs: SourceList, n: nat, slots: nat): seq<u32>
    requires Holds(fifos, start, srcs, n) && slots <= |srcs|
  {
    if slots == 0 then []
    else Gather(fifos, start, srcs, n, slots - 1) + Block(fifos, start, n, srcs[slots - 1])
  }

  /** A whole message. */
  ghost function Message(fifos: seq<Fifo>, start: seq<nat>, srcs: SourceList, n: nat): seq<u32>
    requires Holds(fifos, start, srcs, n)
  {
    Gather(fifos, start, srcs, n, |srcs|)
  }

  lemma {:induction false} GatherLength(fifos: seq<Fifo>, start: seq<nat>, srcs: SourceList, n: nat, slots: nat)
    requires Holds(fifos, start, srcs, n) && slots <= |srcs|
    ensures |Gather(fifos, start, srcs, n, slots)| == Times(n, slots) + (if slots == |srcs| then n else 0)
  {
    if slots > 0 {
      GatherLength(fifos, start, srcs, n, slots - 1);
      AscendingBound(srcs, slots - 1);
    }
  }

  /** Cutting a message at slot `k` gives exactly the next share of the source of that slot. */
  lemma {:induction false} GatherSlot(fifos: seq<Fifo>, start: seq<nat>, srcs: SourceList, n: nat, k: nat, slots: nat)
    requires Holds(fifos, start, srcs, n) && k < slots <= |srcs|
    ensures Times(n, k) + Share(n, srcs[k]) <= |Gather(fifos, start, srcs, n, slots)|
    ensures Gather(fifos, start, srcs, n, slots)[Times(n, k)..Times(n, k) + Share(n, srcs[k])]
            == Block(fifos, start, n, srcs[k])
  {
    GatherLength(fifos, start, srcs, n, slots - 1);
    var init, last := Gather(fifos, start, srcs, n, slots - 1), Block(fifos, start, n, srcs[slots - 1]);
    if k < slots - 1 {
      GatherSlot(fifos, start, srcs, n, k, slots - 1);
      SliceOfFirst(init, last, Times(n, k), Share(n, srcs[k]));
    } else {
      SliceOfSecond(init, last);
    }
  }

  lemma SliceOfFirst<T>(a: seq<T>, b: seq<T>, lo: nat, len: nat)
    requires lo + len <= |a|
    ensures (a + b)[lo..lo + len] == a[lo..lo + len]
  {
  }

  lemma SliceOfSecond<T>(a: seq<T>, b: seq<T>)
    ensures (a + b)[|a|..|a| + |b|] == b
  {
  }

  /** What the ADC pushes later does not change a message that could already be read. */
  lemma {:induction false} GatherStable(fifos: seq<Fifo>, later: seq<Fifo>, start: seq<nat>, srcs: SourceList, n: nat,
                                        slots: nat)
    requires Holds(fifos, start, srcs, n) && slots <= |srcs|
    requires Grown(fifos, later)
    ensures Holds(later, start, srcs, n)
    ensures Gather(later, start, srcs, n, slots) == Gather(fifos, start, srcs, n, slots)
  {
    if slots > 0 {
      GatherStable(fifos, later, start, srcs, n, slots - 1);
    }
  }

  ghost predicate Grown(fifos: seq<Fifo>, later: seq<Fifo>) {
    |later| == |fifos| && forall i :: 0 <= i < |fifos| ==> fifos[i].stream <= later[i].stream
  }

  // ---------- refinement ----------

  /** The descriptor buffer holds the ring for `n` reads of `srcs`, and the data buffer is large enough for it. */
  ghost predicate Configured(d: Dma, srcs: SourceList, n: nat) {
    && WellFormed(d)
    && 4 * n < TWO32
    && Linked(d.sg, Ring(d.sgBase, d.dataBase, srcs, 4 * n))
    && Times(n, |srcs| + 1) <= |d.data|
  }

  /** Where the configured ring ends. */
  function TailOf(d: Dma, srcs: SourceList): int {
    d.sgBase + 128 * (|srcs| - 1)
  }

  /** Where source `i` stands once the first `slots` slots are gathered. */
  function Advanced(start: nat, srcs: SourceList, n: nat, slots: nat, i: nat): nat
    requires slots <= |srcs|
  {
    if i in srcs[..slots] then start + Share(n, i) else start
  }

  /** The engine was kicked when the sources stood at `start`, and has since retired `slots` descriptors. */
  ghost predicate Gathering(d: Dma, srcs: SourceList, n: nat, start: seq<nat>, slots: nat) {
    && Configured(d, srcs, n)
    && Holds(d.fifos, start, srcs, n)
    && slots <= |srcs|
    && !d.fault && (d.busy <==> slots < |srcs|)
    && d.tail == TailOf(d, srcs)
    && d.cur == d.sgBase + 128 * (if slots < |srcs| then slots else 0)
    && (forall k :: 0 <= k < |srcs| ==> Desc(d.sg, k).status == if k < slots then COMPLETE else 0)
    && (forall i :: 0 <= i < 9 ==> d.fifos[i].pos == Advanced(start[i], srcs, n, slots, i))
    && Gather(d.fifos, start, srcs, n, slots) <= d.data
  }

  /** The engine is idle at the head of an armed ring. */
  ghost predicate Ready(d: Dma, srcs: SourceList, n: nat) {
    && Configured(d, srcs, n)
    && (forall k :: 0 <= k < |srcs| ==> Desc(d.sg, k).status == 0)
    && d.cur == d.sgBase && !d.busy && !d.fault
  }

  function Positions(fifos: seq<Fifo>): seq<nat> {
    seq(|fifos|, i requires 0 <= i < |fifos| => fifos[i].pos)
  }

  lemma KickStartsGathering(d: Dma, srcs: SourceList, n: nat)
    requires Ready(d, srcs, n)
    requires Holds(d.fifos, Positions(d.fifos), srcs, n)
    ensures TailOf(d, srcs) < TWO32
    ensures Gathering(Kick(d, TailOf(d, srcs)), srcs, n, Positions(d.fifos), 0)
  {
  }

  /** Setting a status word touches no other field of any descriptor. */
  lemma StatusFrame(sg: seq<u32>, k: nat, j: nat, v: u32)
    requires 32 * k + 8 <= |sg| && 32 * j + 8 <= |sg|
    ensures Desc(sg[32 * k + 7 := v], j) == if j == k then Desc(sg, j).(status := v) else Desc(sg, j)
  {
  }

  lemma StatusKeepsLinked(sg: seq<u32>, marked: seq<u32>, g: Ring, k: nat, v: u32)
    requires Linked(sg, g) && k < |g.srcs|
    requires marked == sg[32 * k + 7 := v]
    ensures Linked(marked, g)
    ensures forall j :: 0 <= j < |g.srcs| ==> Desc(marked, j).status == if j == k then v else Desc(sg, j).status
  {
    forall j | 0 <= j < |g.srcs|
      ensures Describes(Desc(marked, j), g, j)
      ensures Desc(marked, j).status == if j == k then v else Desc(sg, j).status
    {
      StatusFrame(sg, k, j, v);
      assert Describes(Desc(sg, j), g, j);
    }
  }

  /** Where a slot lies in the data buffer. */
  lemma SlotInBuffer(n: nat, srcs: SourceList, slots: nat)
    requires slots < |srcs|
    ensures Times(n, slots) + Share(n, srcs[slots]) <= Times(n, |srcs| + 1)
  {
    AscendingBound(srcs, slots);
    TimesMonotone(n, slots + 1, |srcs|);
    assert Times(n, |srcs| + 1) == Times(n, |srcs|) + n;
  }

  /** The descriptor of a slot, decoded the way the engine decodes it. */
  lemma DescribesSlot(ds: Descriptor, g: Ring, n: nat, k: nat)
    requires k < |g.srcs| && g.length == 4 * n
    requires Describes(ds, g, k)
    ensures FifoAt(ds.source) == g.srcs[k] <= 8
    ensures WordIndex(g.dataBase, ds.dest) == Times(n, k)
    ensures WordIndex(0, ds.control) == Share(n, g.srcs[k])
  {
    var i := g.srcs[k];
    AscendingBound(g.srcs, k);
    assert (0x1_0000 * i) / 0x1_0000 == i && (0x1_0000 * i) % 0x1_0000 == 0;
    TimesScales(4, n, k);
    assert (4 * Times(n, k)) / 4 == Times(n, k) && (4 * Share(n, i)) / 4 == Share(n, i);
  }

  /** What the engine does at the current pointer in the middle of a gather. */
  lemma StepTransfers(d: Dma, srcs: SourceList, n: nat, start: seq<nat>, slots: nat)
    requires Gathering(d, srcs, n, start, slots) && slots < |srcs|
    ensures Times(n, slots) + Share(n, srcs[slots]) <= |d.data|
    ensures srcs[slots] < 9 && d.fifos[srcs[slots]].pos == start[srcs[slots]]
    ensures start[srcs[slots]] + Share(n, srcs[slots]) <= |d.fifos[srcs[slots]].stream|
    ensures Step(d) == Transfer(d, slots, srcs[slots], Times(n, slots), Share(n, srcs[slots]))
  {
    DescribesSlot(Desc(d.sg, slots), Ring(d.sgBase, d.dataBase, srcs, 4 * n), n, slots);
    SlotInBuffer(n, srcs, slots);
    DescIndexOf(d.sgBase, d.cur, slots);
    assert srcs[slots] !in srcs[..slots];
  }

  lemma StepKeepsRing(d: Dma, srcs: SourceList, n: nat, start: seq<nat>, slots: nat)
    requires Gathering(d, srcs, n, start, slots) && slots < |srcs|
    ensures Configured(Step(d), srcs, n)
    ensures forall k :: 0 <= k < |srcs| ==> Desc(Step(d).sg, k).status == if k < slots + 1 then COMPLETE else 0
  {
    StepTransfers(d, srcs, n, start, slots);
    StatusKeepsLinked(d.sg, Step(d).sg, Ring(d.sgBase, d.dataBase, srcs, 4 * n), slots, COMPLETE);
  }

  lemma StepMovesOn(d: Dma, srcs: SourceList, n: nat, start: seq<nat>, slots: nat)
    requires Gathering(d, srcs, n, start, slots) && slots < |srcs|
    ensures var e := Step(d);
            && !e.fault && (e.busy <==> slots + 1 < |srcs|) && e.tail == d.tail
            && e.cur == d.sgBase + 128 * (if slots + 1 < |srcs| then slots + 1 else 0)
            && |e.fifos| == 9
            && forall i :: 0 <= i < 9 ==> e.fifos[i].pos == Advanced(start[i], srcs, n, slots + 1, i)
  {
    StepTransfers(d, srcs, n, start, slots);
    assert Describes(Desc(d.sg, slots), Ring(d.sgBase, d.dataBase, srcs, 4 * n), slots);
    assert srcs[..slots + 1] == srcs[..slots] + [srcs[slots]];
  }

  lemma StepAppendsBlock(d: Dma, srcs: SourceList, n: nat, start: seq<nat>, slots: nat)
    requires Gathering(d, srcs, n, start, slots) && slots < |srcs|
    ensures Holds(Step(d).fifos, start, srcs, n)
    ensures Gather(Step(d).fifos, start, srcs, n, slots + 1) <= Step(d).data
  {
    StepTransfers(d, srcs, n, start, slots);
    GatherStable(d.fifos, Step(d).fifos, start, srcs, n, slots + 1);
    GatherLength(d.fifos, start, srcs, n, slots);
    WriteExtends(d.data, Gather(d.fifos, start, srcs, n, slots), Block(d.fifos, start, n, srcs[slots]));
  }

  /** One step of the engine adds one slot to what is gathered. */
  lemma StepGathers(d: Dma, srcs: SourceList, n: nat, start: seq<nat>, slots: nat)
    requires Gathering(d, srcs, n, start, slots) && slots < |srcs|
    ensures Gathering(Step(d), srcs, n, start, slots + 1)
  {
    StepTransfers(d, srcs, n, start, slots);
    StepKeepsRing(d, srcs, n, start, slots);
    StepMovesOn(d, srcs, n, start, slots);
    StepAppendsBlock(d, srcs, n, start, slots);
  }

  lemma WriteExtends<T>(data: seq<T>, done: seq<T>, block: seq<T>)
    requires |done| + |block| <= |data| && done <= data
    ensures done + block <= data[..|done|] + block + data[|done| + |block|..]
  {
  }
}
