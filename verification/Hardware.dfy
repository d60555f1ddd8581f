/** The front end as a value: the DMA engine with its buffers, the registers, and what the driver remembers. */
module Hardware {
  import opened Words
  import opened ChipMask
  import opened SgRing
  import opened Cdma
  import opened Reads
  import opened Registers

  datatype Hw = Hw(
    dma: Dma,
    control: Reg,                               // DMA register 0
    nSGBuf: nat, lastTail: u32,                  // DMACtrl
    srcs: SourceList, nEvents: u32,              // LTC2333: the sources of chipMask_, and nEvents_
    readReg: Reg, readEvents: u32, numSum: u32, // read_[0], read_[2], read_[3]
    writeReg: Reg, period: u32, depth: u32,     // write_[1], write_[2], write_[3]
    retired: nat)                                // the engine's count of descriptors since the last kick

  /** The ring that `LTC2333::configure` asks for. */
  function RingFor(hw: Hw, mask: Octet, n: u32): Ring {
    Ring(hw.dma.sgBase, hw.dma.dataBase, Sources(mask), Wrap(n * 4))
  }

  /** `DMACtrl::configureSGBuf`. */
  function ConfigureSG(hw: Hw, g: Ring): Hw
    requires |g.srcs| <= 9
  {
    hw.(dma := hw.dma.(sg := RingWords(|hw.dma.sg|, g), cur := hw.dma.sgBase),
        nSGBuf := |g.srcs|,
        lastTail := TailAddress(hw.dma.sgBase, |g.srcs|),
        control := SetCoalescing(hw.control, |g.srcs|))
  }

  /** `LTC2333::configure` with mode 0, the only mode the server passes. */
  function Configure(hw: Hw, mask: Octet, chanMask: Octet, range: Octet, n: u32): Hw {
    AtMostNine(Sources(mask));
    ConfigureSG(hw, RingFor(hw, mask, n)).(
      nEvents := n, srcs := Sources(mask), readEvents := n,
      writeReg := WriteWord(chanMask, range, false))
  }

  lemma AtMostNine(srcs: SourceList)
    ensures |srcs| <= 9
  {
    AscendingBound(srcs, |srcs| - 1);
  }

  function SetReadMode(hw: Hw, mode: bool): Hw {
    hw.(writeReg := SetMode(hw.writeReg, mode))
  }

  function EnableRead(hw: Hw, enable: bool): Hw {
    hw.(readReg := Reg(if enable then 0x2 else 0x0))
  }

  /** `LTC2333::reset`: the FIFOs drop some or all of what they hold, leaving every source at `flush`. */
  function ResetRead(hw: Hw, flush: seq<nat>): Hw
    requires |flush| == |hw.dma.fifos|
  {
    hw.(readReg := WithReset(hw.readReg),
        dma := hw.dma.(fifos := seq(|flush|, i requires 0 <= i < |flush| => hw.dma.fifos[i].(pos := flush[i]))))
  }

  predicate Flushable(fifos: seq<Fifo>, flush: seq<nat>) {
    |flush| == |fifos| && forall i :: 0 <= i < |fifos| ==> fifos[i].pos <= flush[i] <= |fifos[i].stream|
  }

  function StartSG(hw: Hw): Hw {
    hw.(dma := Kick(hw.dma, hw.lastTail), retired := 0)
  }

  function EngineStep(hw: Hw): Hw {
    hw.(dma := Step(hw.dma), retired := if hw.dma.busy then hw.retired + 1 else hw.retired)
  }

  /** Words that `read` copies out. */
  function CopyWords(hw: Hw): nat {
    Times(hw.nEvents, hw.nSGBuf + 1)
  }

  /** The copy at the end of `read`, out of the data buffer. */
  function CopyOut(hw: Hw): seq<u32>
    requires CopyWords(hw) <= |hw.dma.data|
  {
    hw.dma.data[..CopyWords(hw)]
  }

  /** The last loop of `read`. */
  function ResetStatus(hw: Hw): Hw
    requires 32 * hw.nSGBuf <= |hw.dma.sg|
  {
    hw.(dma := hw.dma.(sg := Rearmed(hw.dma.sg, hw.nSGBuf)))
  }

  /** The DMA engine's interrupt is up: it is enabled, and as many descriptors have been retired since the kick as the
      coalescing field asks for. */
  predicate Interrupt(hw: Hw) {
    IrqEnabled(hw.control) && Threshold(hw.control) <= hw.retired
  }

  // ---------- what a configuration establishes ----------

  /** Sizes for which nothing overflows, whatever the mask: enough descriptor words for nine descriptors,
      enough data words for ten shares, and both buffers inside the 32-bit address space. */
  ghost predicate Roomy(d: Dma, n: nat) {
    && 32 * 9 <= |d.sg| && d.sgBase + 128 * 9 < TWO32
    && 10 * n <= |d.data| && d.dataBase + 40 * n < TWO32
  }

  /** The driver's fields describe the ring in the descriptor buffer, and the interrupt is due when it is done. */
  ghost predicate Driven(hw: Hw) {
    && hw.nSGBuf == |hw.srcs|
    && hw.lastTail == TailOf(hw.dma, hw.srcs)
    && Threshold(hw.control) == hw.nSGBuf
    && CopyWords(hw) <= |hw.dma.data|
  }

  lemma TimesRoomy(n: nat, k: nat)
    requires k <= 10
    ensures Times(n, k) <= 10 * n
  {
    TimesMonotone(n, k, 10);
    TimesIsProduct(n, 10);
  }

  lemma RoomyFits(d: Dma, srcs: SourceList, n: u32)
    requires Roomy(d, n)
    ensures |srcs| <= 9 && Wrap(n * 4) == 4 * n
    ensures Fits(Ring(d.sgBase, d.dataBase, srcs, 4 * n))
    ensures Times(n, |srcs| + 1) <= |d.data|
    ensures TailAddress(d.sgBase, |srcs|) == TailOf(d, srcs)
  {
    AtMostNine(srcs);
    TimesRoomy(n, |srcs| + 1);
    TimesScales(4, n, |srcs| + 1);
  }

  /** While a gather is under way over a ring that the driver knows, the interrupt means that it is done, and with the
      interrupt enabled it is up as soon as that is so. */
  lemma InterruptIsDone(hw: Hw, n: nat, start: seq<nat>)
    requires Driven(hw) && Gathering(hw.dma, hw.srcs, n, start, hw.retired)
    ensures Interrupt(hw) ==> hw.retired == |hw.srcs|
    ensures hw.dma.busy <==> hw.retired < |hw.srcs|
    ensures IrqEnabled(hw.control) && !hw.dma.busy ==> Interrupt(hw)
  {
  }

  /** From any idle state, with any mask, `configure` leaves the engine ready at the head of exactly the new
      ring; nothing of an earlier configuration survives. */
  lemma ConfigureReady(hw: Hw, mask: Octet, chanMask: Octet, range: Octet, n: u32)
    requires WellFormed(hw.dma) && Roomy(hw.dma, n)
    requires !hw.dma.busy && !hw.dma.fault
    ensures Ready(Configure(hw, mask, chanMask, range, n).dma, Sources(mask), n)
    ensures Driven(Configure(hw, mask, chanMask, range, n))
  {
    var g := RingFor(hw, mask, n);
    RoomyFits(hw.dma, Sources(mask), n);
    RingIsLinked(RingWords(|hw.dma.sg|, g), g);
    ReadyAfter(hw.dma, RingWords(|hw.dma.sg|, g), g.srcs, n);
    CoalescingSet(hw.control, |g.srcs|);
  }

  lemma ReadyAfter(d: Dma, sg: seq<u32>, srcs: SourceList, n: u32)
    requires WellFormed(d) && 4 * n < TWO32 && !d.busy && !d.fault && Times(n, |srcs| + 1) <= |d.data|
    requires Linked(sg, Ring(d.sgBase, d.dataBase, srcs, 4 * n)) && Armed(sg, Ring(d.sgBase, d.dataBase, srcs, 4 * n))
    ensures Ready(d.(sg := sg, cur := d.sgBase), srcs, n)
  {
  }

  /** Both are the same board: same bases, same sizes. */
  predicate SameBoard(d: Dma, e: Dma) {
    && e.sgBase == d.sgBase && e.dataBase == d.dataBase
    && |e.sg| == |d.sg| && |e.data| == |d.data| && |e.fifos| == |d.fifos|
  }

  /** `configure` replaces the ring and the driver's fields, and nothing else of the engine's world. */
  lemma ConfigureFrame(hw: Hw, mask: Octet, chanMask: Octet, range: Octet, n: u32)
    ensures var c := Configure(hw, mask, chanMask, range, n);
            && |c.srcs| <= 9
            && c.dma == hw.dma.(sg := c.dma.sg, cur := hw.dma.sgBase) && SameBoard(hw.dma, c.dma)
            && c.srcs == Sources(mask) && c.nEvents == n && c.readReg == hw.readReg
            && c.writeReg == WriteWord(chanMask, range, false)
            && c.control == SetCoalescing(hw.control, |c.srcs|)
  {
    AtMostNine(Sources(mask));
  }

  /** Resetting the front end leaves the engine ready and the sources at `flush`. */
  lemma FlushedReady(hw: Hw, srcs: SourceList, n: nat, flush: seq<nat>)
    requires Ready(hw.dma, srcs, n) && Flushable(hw.dma.fifos, flush)
    ensures Ready(ResetRead(hw, flush).dma, srcs, n)
    ensures Positions(ResetRead(hw, flush).dma.fifos) == flush
    ensures Grown(hw.dma.fifos, ResetRead(hw, flush).dma.fifos)
  {
  }
}
