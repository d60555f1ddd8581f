/** The driver classes: the DMA controller and the LTC2333 front end, over the board they are wired to. */
module Driver {
  import opened Words
  import opened ChipMask
  import opened SgRing
  import opened Cdma
  import opened Reads
  import opened Registers
  import opened Hardware

  /** What the FIFOs hold once these words have been pushed. */
  function Arrive(fifos: seq<Fifo>, arrivals: seq<seq<u32>>): seq<Fifo>
    requires |fifos| == |arrivals|
  {
    seq(|fifos|, i requires 0 <= i < |fifos| => fifos[i].(stream := fifos[i].stream + arrivals[i]))
  }

  /** A write to one of the three control registers, in the order in which the drivers make them. */
  datatype Access = DmaControl(value: Reg) | ReadControl(value: Reg) | WriteControl(value: Reg)

  /** The hardware: two buffers in memory, the FIFOs, and the registers that the drivers map. */
  class Board {
    const sg: array<u32>
    const data: array<u32>
    const sgPhys: u32
    const dataPhys: u32
    var fifos: seq<Fifo>
    var control: Reg
    var cur: u32
    var tail: u32
    var busy: bool
    var fault: bool
    var retired: nat
    var readReg: Reg
    var readEvents: u32
    var numSum: u32
    var writeReg: Reg
    var period: u32
    var depth: u32
    ghost var log: seq<Access>

    constructor (sg: array<u32>, data: array<u32>, sgPhys: u32, dataPhys: u32, fifos: seq<Fifo>, control: Reg,
                 writeReg: Reg)
      ensures this.sg == sg && this.data == data && this.sgPhys == sgPhys && this.dataPhys == dataPhys
      ensures this.fifos == fifos && this.control == control && this.writeReg == writeReg && !busy && !fault
    {
      this.sg, this.data, this.sgPhys, this.dataPhys := sg, data, sgPhys, dataPhys;
      this.fifos, this.control, this.writeReg := fifos, control, writeReg;
      cur, tail, busy, fault, retired := 0, 0, false, false, 0;
      log := [];
      readReg, readEvents, numSum, period, depth := Reg(0), 0, 0, 0, 0;
    }

    /** The engine and its buffers as a value. */
    function Engine(): Dma
      reads this, sg, data
    {
      Dma(sgPhys, dataPhys, sg[..], data[..], fifos, cur, tail, busy, fault)
    }

    /** The ADC pushes words into the FIFOs. */
    method Fill(arrivals: seq<seq<u32>>)
      requires |arrivals| == |fifos|
      modifies this`fifos
      ensures fifos == Arrive(old(fifos), arrivals)
    {
      fifos := Arrive(fifos, arrivals);
    }

    /** The transfer of one descriptor, in place. */
    method Move(k: nat, i: nat, at: nat, count: nat)
      requires sg != data
      requires 32 * k + 8 <= sg.Length && i < |fifos| && at + count <= data.Length
      requires fifos[i].pos + count <= |fifos[i].stream|
      modifies this`fifos, this`cur, this`busy, sg, data
      ensures Engine() == Transfer(old(Engine()), k, i, at, count)
    {
      var f, next := fifos[i], sg[32 * k];
      forall j | 0 <= j < count {
        data[at + j] := f.stream[f.pos + j];
      }
      assert data[..] == old(data[..at]) + f.stream[f.pos..f.pos + count] + old(data[at + count..]);
      fifos := fifos[i := f.(pos := f.pos + count)];
      sg[32 * k + 7] := COMPLETE;
      busy := cur != tail;
      cur := next;
    }

    /** The engine's interrupt is up. */
    predicate Interrupted()
      reads this
    {
      IrqEnabled(control) && Threshold(control) <= retired
    }

    /** One step of the engine, in place. */
    method EngineStep()
      requires sg != data
      modifies this`fifos, this`cur, this`busy, this`fault, this`retired, sg, data
      ensures Engine() == Step(old(Engine()))
      ensures retired == old(retired) + (if old(busy) then 1 else 0)
    {
      if busy {
        retired := retired + 1;
        var k := DescIndex(sgPhys, cur);
        if k < 0 || sg.Length < 32 * k + 8 {
          busy, fault := false, true;
        } else {
          var i, at, count := FifoAt(sg[32 * k + 2]), WordIndex(dataPhys, sg[32 * k + 4]), WordIndex(0, sg[32 * k + 6]);
          if sg[32 * k + 7] < COMPLETE && 0 <= i < |fifos| && 0 <= at && 0 <= count
             && fifos[i].pos + count <= |fifos[i].stream| && at + count <= data.Length {
            Move(k, i, at, count);
          } else {
            busy, fault := false, true;
          }
        }
      }
    }
  }

  // ---------- building the ring ----------

  /** The four words written for descriptor `k`. */
  function Described(sg: seq<u32>, g: Ring, k: nat): seq<u32>
    requires 32 * k + 8 <= |sg| && k < |g.srcs|
  {
    sg[32 * k := Field(g, k, k + 1, 0)][32 * k + 2 := Field(g, k, k + 1, 2)]
      [32 * k + 4 := Field(g, k, k + 1, 4)][32 * k + 6 := Field(g, k, k + 1, 6)]
  }

  /** Word `w` when `built` descriptors have been written and the ring is not closed yet. */
  function OpenWord(g: Ring, built: nat, w: nat): u32
    requires built <= |g.srcs|
  {
    if w / 32 < built then Field(g, w / 32, w / 32 + 1, w % 32) else 0
  }

  ghost predicate Built(sg: seq<u32>, g: Ring, built: nat)
    requires built <= |g.srcs|
  {
    forall w {:trigger OpenWord(g, built, w)} :: 0 <= w < |sg| ==> sg[w] == OpenWord(g, built, w)
  }

  lemma BuildOne(sg: seq<u32>, g: Ring, k: nat)
    requires k < |g.srcs| && 32 * |g.srcs| <= |sg| && Built(sg, g, k)
    ensures Built(Described(sg, g, k), g, k + 1)
  {
    forall w | 0 <= w < |sg|
      ensures Described(sg, g, k)[w] == OpenWord(g, k + 1, w)
    {
      assert sg[w] == OpenWord(g, k, w);
      assert w == 32 * (w / 32) + w % 32;
    }
  }

  /** Closing the finished chain gives the ring. */
  lemma CloseRing(sg: seq<u32>, g: Ring)
    requires 32 * |g.srcs| <= |sg| && Built(sg, g, |g.srcs|)
    ensures HoldsRing(sg[32 * (|g.srcs| - 1) := g.sgBase], g)
  {
    var n := |g.srcs|;
    forall w | 0 <= w < |sg|
      ensures sg[32 * (n - 1) := g.sgBase][w] == RingWord(g, w)
    {
      assert sg[w] == OpenWord(g, n, w);
      assert w == 32 * (w / 32) + w % 32;
    }
  }

  lemma RingIsUnique(a: seq<u32>, g: Ring)
    requires HoldsRing(a, g)
    ensures a == RingWords(|a|, g)
  {
    forall w | 0 <= w < |a|
      ensures a[w] == RingWords(|a|, g)[w]
    {
      assert a[w] == RingWord(g, w);
    }
  }

  /** Source `i` is the next one to get a descriptor after those below it. */
  lemma NextSource(mask: Octet, i: nat)
    requires i <= 8 && IsSource(mask, i)
    ensures Rank(mask, i) < |Sources(mask)| && Sources(mask)[Rank(mask, i)] == i
    ensures i < 8 ==> Rank(mask, i + 1) == Rank(mask, i) + 1
  {
    SlotOf(mask, i);
  }

  lemma RankBelow(mask: Octet, i: nat)
    requires i <= 8
    ensures Rank(mask, i) < |Sources(mask)|
  {
    RankMonotone(mask, i, 8);
  }

  lemma {:induction false} RankMonotone(mask: Octet, i: nat, j: nat)
    requires i <= j
    ensures Rank(mask, i) <= Rank(mask, j)
    decreases j
  {
    if i < j {
      RankMonotone(mask, i, j - 1);
    }
  }

  lemma FieldsAre(g: Ring, k: nat, i: nat)
    requires k < |g.srcs| && g.srcs[k] == i <= 8
    ensures Field(g, k, k + 1, 0) == Wrap(g.sgBase + Wrap((k + 1) * 128))
    ensures Field(g, k, k + 1, 2) == FifoAddress(i)
    ensures Field(g, k, k + 1, 4) == Wrap(g.dataBase + Wrap(g.length * k))
    ensures Field(g, k, k + 1, 6) == if i == 8 then Wrap(2 * g.length) else g.length
  {
  }

  /** A kicked engine is busy for exactly as many steps as the ring has descriptors. */
  lemma BusyUntil(d: Dma, srcs: SourceList, n: nat, start: seq<nat>, count: nat)
    requires Gathering(d, srcs, n, start, 0) && count <= |srcs|
    ensures Steps(d, count).busy <==> count < |srcs|
  {
    RunGathers(d, srcs, n, start, count);
  }

  lemma StepsNext(d: Dma, count: nat, next: nat)
    requires next == count + 1
    ensures Steps(d, next) == Step(Steps(d, count))
  {
  }

  /** What is to be copied out after a read is the message. */
  lemma ReadCopies(d: Dma, srcs: SourceList, n: nat, words: nat)
    requires Ready(d, srcs, n) && Holds(d.fifos, Positions(d.fifos), srcs, n) && words == Times(n, |srcs| + 1)
    ensures words <= |ReadOnce(d, srcs, n).data|
    ensures ReadOnce(d, srcs, n).data[..words] == Message(d.fifos, Positions(d.fifos), srcs, n)
  {
    ReadRefinesGather(d, srcs, n);
    GatherLength(d.fifos, Positions(d.fifos), srcs, n, |srcs|);
  }

  class DMACtrl {
    const board: Board
    var nSGBuf: nat
    var lastTailPtr: u32

    constructor (board: Board)
      ensures this.board == board && nSGBuf == 0 && lastTailPtr == 0
    {
      this.board, nSGBuf, lastTailPtr := board, 0, 0;
    }

    function RingOf(length: u32, chipMask: Octet): Ring {
      Ring(board.sgPhys, board.dataPhys, Sources(chipMask), length)
    }

    /** One descriptor of the ring, as the four stores of the loop body. */
    method WriteDescriptor(g: Ring, i: nat)
      requires g.sgBase == board.sgPhys && g.dataBase == board.dataPhys
      requires nSGBuf < |g.srcs| && g.srcs[nSGBuf] == i <= 8 && 32 * |g.srcs| <= board.sg.Length
      modifies this`nSGBuf, board.sg
      ensures board.sg[..] == Described(old(board.sg[..]), g, old(nSGBuf))
      ensures nSGBuf == old(nSGBuf) + 1
    {
      var next := Wrap(board.sgPhys + Wrap((nSGBuf + 1) * 128));
      var source := FifoAddress(i);
      var dest := Wrap(board.dataPhys + Wrap(g.length * nSGBuf));
      var bytes := if i == 8 then Wrap(2 * g.length) else g.length;
      FieldsAre(g, nSGBuf, i);
      board.sg[0 + nSGBuf * 32] := next;
      board.sg[2 + nSGBuf * 32] := source;
      board.sg[4 + nSGBuf * 32] := dest;
      board.sg[6 + nSGBuf * 32] := bytes;
      nSGBuf := nSGBuf + 1;
    }

    method ClearSGBuf()
      modifies board.sg
      ensures forall w :: 0 <= w < board.sg.Length ==> board.sg[w] == 0
    {
      var i := 0;
      while i < board.sg.Length
        invariant 0 <= i <= board.sg.Length
        invariant forall w :: 0 <= w < i ==> board.sg[w] == 0
      {
        board.sg[i] := 0;
        i := i + 1;
      }
    }

    /** One descriptor per enabled chip and one for the timestamps, each pointing at the next. */
    method WriteDescriptors(g: Ring, chipMask: Octet)
      requires g.sgBase == board.sgPhys && g.dataBase == board.dataPhys && g.srcs == Sources(chipMask)
      requires 32 * |g.srcs| <= board.sg.Length && nSGBuf == 0 && Built(board.sg[..], g, 0)
      modifies this`nSGBuf, board.sg
      ensures nSGBuf == |g.srcs| && Built(board.sg[..], g, nSGBuf)
    {
      var i := 0;
      assert Rank(chipMask, 0) == 0;
      while i <= 8
        invariant 0 <= i <= 9
        invariant nSGBuf == if i <= 8 then Rank(chipMask, i) else |g.srcs|
        invariant nSGBuf <= |g.srcs| && Built(board.sg[..], g, nSGBuf)
      {
        if Enabled(chipMask, i) || i == 8 {
          NextSource(chipMask, i);
          BuildOne(board.sg[..], g, nSGBuf);
          WriteDescriptor(g, i);
        }
        i := i + 1;
        if i <= 8 {
          RankBelow(chipMask, i);
        }
      }
    }

    /** Closes the ring: the last descriptor points back at the first. */
    method CloseSGBuf(g: Ring)
      requires g.sgBase == board.sgPhys && nSGBuf == |g.srcs| && 32 * nSGBuf <= board.sg.Length
      requires Built(board.sg[..], g, nSGBuf)
      modifies board.sg
      ensures board.sg[..] == RingWords(board.sg.Length, g)
    {
      CloseRing(board.sg[..], g);
      board.sg[0 + (nSGBuf - 1) * 32] := board.sgPhys;
      RingIsUnique(board.sg[..], g);
    }

    /** Clears the descriptor buffer, fills it and closes the ring.  Afterwards the buffer holds exactly the ring of
        these arguments, whatever it held before. */
    method ConfigureSGBuf(length: u32, chipMask: Octet)
      requires 32 * |Sources(chipMask)| <= board.sg.Length
      modifies this, board`cur, board`control, board`log, board.sg
      ensures board.log == old(board.log) + [DmaControl(board.control)]
      ensures board.sg[..] == RingWords(board.sg.Length, RingOf(length, chipMask))
      ensures nSGBuf == |Sources(chipMask)| <= 9
      ensures lastTailPtr == TailAddress(board.sgPhys, nSGBuf)
      ensures board.cur == board.sgPhys
      ensures board.control == SetCoalescing(old(board.control), nSGBuf)
    {
      var g := RingOf(length, chipMask);
      AtMostNine(g.srcs);
      nSGBuf := 0;
      ClearSGBuf();
      assert Built(board.sg[..], g, 0);
      WriteDescriptors(g, chipMask);
      CloseSGBuf(g);
      board.cur := board.sgPhys;
      lastTailPtr := TailAddress(board.sgPhys, nSGBuf);
      board.control := SetCoalescing(board.control, nSGBuf);
      board.log := board.log + [DmaControl(board.control)];
    }

    method StartSG()
      modifies board`tail, board`busy, board`retired
      ensures board.Engine() == Kick(old(board.Engine()), lastTailPtr) && board.retired == 0
    {
      board.tail := lastTailPtr;
      board.busy, board.retired := true, 0;
    }

    /** Waits for the engine's interrupt, and for nothing else: a kicked engine that is to interrupt after as many
        descriptors as the ring has is then done with all of them. */
    method IRQWait(ghost srcs: SourceList, ghost n: nat, ghost start: seq<nat>)
      requires board.sg != board.data
      requires Gathering(board.Engine(), srcs, n, start, 0) && board.retired == 0
      requires IrqEnabled(board.control) && Threshold(board.control) == |srcs|
      modifies board`fifos, board`cur, board`busy, board`fault, board`retired, board.sg, board.data
      ensures board.Engine() == Steps(old(board.Engine()), |srcs|)
    {
      ghost var d := board.Engine();
      while !board.Interrupted()
        invariant 0 <= board.retired <= |srcs|
        invariant board.Engine() == Steps(d, board.retired)
        decreases |srcs| - board.retired
      {
        ghost var steps := board.retired;
        BusyUntil(d, srcs, n, start, steps);
        board.EngineStep();
        StepsNext(d, steps, board.retired);
      }
    }

    method SgBufReset(bufNum: nat)
      requires 32 * bufNum + 8 <= board.sg.Length
      modifies board.sg
      ensures board.sg[..] == old(board.sg[..])[32 * bufNum + 7 := 0]
    {
      board.sg[bufNum * 32 + 7] := 0;
    }

    /** The engine is reset; the hardware clears the reset bit again and leaves `after` in the register. */
    method Reset(after: Reg)
      modifies board`control, board`log
      ensures board.control == after && board.log == old(board.log) + [DmaControl(Reg(0x4))]
    {
      board.control := Reg(RESET);
      board.log := board.log + [DmaControl(board.control)];
      board.control := after;
    }

    method EnableSG(enable: bool)
      modifies board`control, board`log
      ensures BitIs(old(board.control), board.control, SG_ENABLE, enable)
      ensures board.log == old(board.log) + [DmaControl(board.control)]
    {
      SetBitIs(board.control, SG_ENABLE, enable);
      board.control := SetBit(board.control, SG_ENABLE, enable);
      board.log := board.log + [DmaControl(board.control)];
    }

    method KeyholeRead(enable: bool)
      modifies board`control, board`log
      ensures BitIs(old(board.control), board.control, KEYHOLE_READ, enable)
      ensures board.log == old(board.log) + [DmaControl(board.control)]
    {
      SetBitIs(board.control, KEYHOLE_READ, enable);
      board.control := SetBit(board.control, KEYHOLE_READ, enable);
      board.log := board.log + [DmaControl(board.control)];
    }

    method IRQEnable(enable: bool)
      modifies board`control, board`log
      ensures BitIs(old(board.control), board.control, IRQ_ENABLE, enable)
      ensures board.log == old(board.log) + [DmaControl(board.control)]
    {
      SetBitIs(board.control, IRQ_ENABLE, enable);
      board.control := SetBit(board.control, IRQ_ENABLE, enable);
      board.log := board.log + [DmaControl(board.control)];
    }
  }

  lemma SameFields(e: Dma, d: Dma, sg: seq<u32>)
    requires e.sgBase == d.sgBase && e.dataBase == d.dataBase && e.sg == sg && e.data == d.data && e.fifos == d.fifos
    requires e.cur == d.sgBase && e.tail == d.tail && e.busy == d.busy && e.fault == d.fault
    ensures e == d.(sg := sg, cur := d.sgBase)
  {
  }

  lemma ConfigureFields(h: Hw, mask: Octet, chanMask: Octet, range: Octet, n: u32, e: Hw)
    requires e.dma == h.dma.(sg := RingWords(|h.dma.sg|, RingFor(h, mask, n)), cur := h.dma.sgBase)
    requires e.nSGBuf == |Sources(mask)| <= 9 && e.lastTail == TailAddress(h.dma.sgBase, e.nSGBuf)
    requires e.control == SetCoalescing(h.control, e.nSGBuf)
    requires e.nEvents == n && e.srcs == Sources(mask) && e.retired == h.retired
    requires e.readReg == h.readReg && e.numSum == h.numSum && e.period == h.period && e.depth == h.depth
    ensures e == Hardware.Configure(h, mask, chanMask, range, n).(writeReg := e.writeReg, readEvents := e.readEvents)
  {
  }

  class LTC2333 {
    const board: Board
    const dmaCtrl: DMACtrl
    var nEvents: u32
    var chipMask: Octet

    /** The object and the board as one value. */
    function State(): Hw
      reads this, dmaCtrl, board, board.sg, board.data
    {
      Hw(board.Engine(), board.control, dmaCtrl.nSGBuf, dmaCtrl.lastTailPtr, Sources(chipMask), nEvents,
         board.readReg, board.readEvents, board.numSum, board.writeReg, board.period, board.depth, board.retired)
    }

    predicate Wired()
      reads this, board
    {
      dmaCtrl.board == board && board.sg != board.data
    }

    /** Clears the data buffer and switches the engine on.  `after` is what the hardware leaves in the control
        register when its reset is over. */
    constructor (board: Board, dmaCtrl: DMACtrl, after: Reg)
      requires dmaCtrl.board == board && board.sg != board.data
      requires after.bits & RESET == 0
      modifies board`control, board`log, board.data
      ensures old(board.log) <= board.log && |board.log| == |old(board.log)| + 4
      ensures board.log[|old(board.log)|] == DmaControl(Reg(0x4))
      ensures board.log[|board.log| - 1] == DmaControl(board.control)
      ensures this.board == board && this.dmaCtrl == dmaCtrl && Wired()
      ensures Operational(board.control)
      ensures forall w :: 0 <= w < board.data.Length ==> board.data[w] == 0
    {
      this.board, this.dmaCtrl, nEvents, chipMask := board, dmaCtrl, 0, Octet(0);
      new;
      var i := 0;
      while i < board.data.Length
        invariant 0 <= i <= board.data.Length
        invariant forall w :: 0 <= w < i ==> board.data[w] == 0
        invariant board.log == old(board.log)
      {
        board.data[i] := 0;
        i := i + 1;
      }
      dmaCtrl.Reset(after);
      dmaCtrl.EnableSG(true);
      ghost var sg := board.control;
      dmaCtrl.KeyholeRead(true);
      ghost var keyhole := board.control;
      dmaCtrl.IRQEnable(true);
      SwitchedOn(after, sg, keyhole, board.control);
    }

    method Configure(chipMask: Octet, chanMask: Octet, range: Octet, mode: bool, n: u32)
      requires Wired() && 32 * |Sources(chipMask)| <= board.sg.Length
      modifies this, dmaCtrl, board, board.sg
      ensures board.log == old(board.log) + [DmaControl(board.control)] + [WriteControl(board.writeReg)]
      ensures State() == Hardware.Configure(old(State()), chipMask, chanMask, range, n)
                         .(writeReg := WriteWord(chanMask, range, mode))
    {
      ghost var h := State();
      ConfigureEngine(n, chipMask);
      ConfigureFrontEnd(n, WriteWord(chanMask, range, mode));
    }

    method ConfigureFrontEnd(n: u32, word: Reg)
      modifies board`writeReg, board`readEvents, board`log
      ensures board.log == old(board.log) + [WriteControl(board.writeReg)]
      ensures State() == old(State()).(writeReg := word, readEvents := n)
    {
      board.writeReg := word;
      board.log := board.log + [WriteControl(board.writeReg)];
      board.readEvents := n;
    }

    /** The driver's own fields and the ring. */
    method ConfigureEngine(n: u32, chipMask: Octet)
      requires Wired() && 32 * |Sources(chipMask)| <= board.sg.Length
      modifies this, dmaCtrl, board`cur, board`control, board`log, board.sg
      ensures board.log == old(board.log) + [DmaControl(board.control)]
      ensures forall chanMask, range ::
                State() == Hardware.Configure(old(State()), chipMask, chanMask, range, n)
                           .(writeReg := old(board.writeReg), readEvents := old(board.readEvents))
    {
      ghost var h := State();
      nEvents := n;
      this.chipMask := chipMask;
      dmaCtrl.ConfigureSGBuf(Wrap(n * 4), chipMask);
      ghost var sg := RingWords(|h.dma.sg|, RingFor(h, chipMask, n));
      assert board.sg[..] == sg && board.data[..] == h.dma.data;
      SameFields(board.Engine(), h.dma, sg);
      forall chanMask, range
        ensures State() == Hardware.Configure(h, chipMask, chanMask, range, n)
                           .(writeReg := h.writeReg, readEvents := h.readEvents)
      {
        ConfigureFields(h, chipMask, chanMask, range, n, State());
      }
    }

    method SetReadDepth(depth: u32)
      modifies board`depth
      ensures board.depth == depth
    {
      board.depth := depth;
    }

    method SetReadPeriod(period: u32)
      modifies board`period
      ensures board.period == period
    {
      board.period := period;
    }

    method SetNumSum(numSum: u32)
      modifies board`numSum
      ensures board.numSum == numSum
    {
      board.numSum := numSum;
    }

    method SetMode(mode: bool)
      modifies board`writeReg, board`log
      ensures State() == SetReadMode(old(State()), mode)
      ensures board.log == old(board.log) + [WriteControl(board.writeReg)]
    {
      board.writeReg := Registers.SetMode(board.writeReg, mode);
      board.log := board.log + [WriteControl(board.writeReg)];
    }

    method EnableRead(enable: bool)
      modifies board`readReg, board`log
      ensures State() == Hardware.EnableRead(old(State()), enable)
      ensures board.readReg == Reg(if enable then 0x2 else 0x0) && (Reading(board.readReg) <==> enable)
      ensures board.log == old(board.log) + [ReadControl(board.readReg)]
    {
      ReadWords(enable);
      board.readReg := Reg(if enable then 0x2 else 0x0);
      board.log := board.log + [ReadControl(board.readReg)];
    }

    /** The reset bit is set, and no other bit of the register changes. */
    method SetReset()
      modifies board`readReg, board`log
      ensures board.readReg == WithReset(old(board.readReg)) && ResetSet(old(board.readReg), board.readReg)
      ensures board.log == old(board.log) + [ReadControl(board.readReg)]
    {
      ResetSets(board.readReg);
      board.readReg := WithReset(board.readReg);
      board.log := board.log + [ReadControl(board.readReg)];
    }

    /** Resets the front end; `flush` is where the hardware leaves the FIFOs. */
    method Reset(flush: seq<nat>)
      requires |flush| == |board.fifos|
      modifies board`readReg, board`fifos, board`log
      ensures State() == ResetRead(old(State()), flush)
      ensures board.log == old(board.log) + [ReadControl(board.readReg)]
    {
      var fifos := board.fifos;
      SetReset();
      board.fifos := seq(|flush|, i requires 0 <= i < |flush| => fifos[i].(pos := flush[i]));
    }

    /** Which FIFO `wait` polls: the lowest enabled chip, or none. */
    method Polled() returns (chip: int)
      ensures chip == if |Sources(chipMask)| > 1 then Sources(chipMask)[0] else -1
    {
      chip := -1;
      var i := 0;
      while i < 8
        invariant 0 <= i <= 8 && chip == -1
        invariant Rank(chipMask, i) == 0
      {
        if Enabled(chipMask, i) {
          SlotOf(chipMask, i);
          return i;
        }
        i := i + 1;
      }
    }

    /** The message, out of the data buffer. */
    method CopyOut(buff: array<u32>)
      requires Wired() && buff != board.sg && buff != board.data
      requires CopyWords(State()) <= buff.Length && CopyWords(State()) <= board.data.Length
      modifies buff
      ensures buff[..CopyWords(State())] == board.data[..CopyWords(State())]
      ensures buff[CopyWords(State())..] == old(buff[CopyWords(State())..])
    {
      var words := Times(nEvents, dmaCtrl.nSGBuf + 1);
      forall j | 0 <= j < words {
        buff[j] := board.data[j];
      }
    }

    /** Clears the status words of the ring. */
    method Rearm()
      requires Wired() && 32 * dmaCtrl.nSGBuf <= board.sg.Length
      modifies board.sg
      ensures board.Engine() == old(board.Engine()).(sg := Rearmed(old(board.sg[..]), dmaCtrl.nSGBuf))
    {
      ghost var sg := board.sg[..];
      var i := 0;
      while i < dmaCtrl.nSGBuf
        invariant 0 <= i <= dmaCtrl.nSGBuf
        invariant board.sg[..] == Rearmed(sg, i)
      {
        dmaCtrl.SgBufReset(i);
        i := i + 1;
      }
    }

    /** Kicks the ring and waits for the engine. */
    method Gather()
      requires Wired()
      requires Ready(board.Engine(), Sources(chipMask), nEvents) && Driven(State()) && IrqEnabled(board.control)
      requires Holds(board.fifos, Positions(board.fifos), Sources(chipMask), nEvents)
      modifies board`fifos, board`cur, board`tail, board`busy, board`fault, board`retired, board.sg, board.data
      ensures board.Engine()
              == Steps(Kick(old(board.Engine()), dmaCtrl.lastTailPtr), |Sources(chipMask)|)
    {
      KickStartsGathering(board.Engine(), Sources(chipMask), nEvents);
      ghost var start := Positions(board.fifos);
      dmaCtrl.StartSG();
      dmaCtrl.IRQWait(Sources(chipMask), nEvents, start);
    }

    /** Kicks the ring, waits for the engine, copies the message out and re-arms the ring: the message is the gather
        of the next shares, and the engine ends where it began. */
    method Read(buff: array<u32>)
      requires Wired() && buff != board.sg && buff != board.data
      requires Ready(board.Engine(), Sources(chipMask), nEvents) && Driven(State()) && IrqEnabled(board.control)
      requires Holds(board.fifos, Positions(board.fifos), Sources(chipMask), nEvents)
      requires CopyWords(State()) <= buff.Length
      modifies board`fifos, board`cur, board`tail, board`busy, board`fault, board`retired, board.sg, board.data, buff
      ensures State() == old(State()).(dma := ReadOnce(old(board.Engine()), Sources(chipMask), nEvents),
                                       retired := board.retired)
      ensures buff[..CopyWords(State())]
              == old(Message(board.fifos, Positions(board.fifos), Sources(chipMask), nEvents))
      ensures buff[CopyWords(State())..] == old(buff[CopyWords(State())..])
    {
      ReadCopies(board.Engine(), Sources(chipMask), nEvents, CopyWords(State()));
      Gather();
      CopyOut(buff);
      Rearm();
    }
  }
}
