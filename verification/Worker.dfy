/** The worker thread of a run, one shared-memory access at a time, together with the engine and the ADC that
    move underneath it. */
module Worker {
  import opened Words
  import opened ChipMask
  import opened SgRing
  import opened Cdma
  import opened Reads
  import opened Registers
  import opened Hardware

  /** The fields of `DAQ_Thread` that a run reads. */
  datatype Fields = Fields(nReads: u32, numTriggers: i32, nsum: u32, nChan: nat)

  /** What the two threads share.  `raised` and `cleared` are history: how often the flag went up and down. */
  datatype Shared = Shared(fields: Fields, hw: Hw, stop: bool, raised: nat, cleared: nat)

  datatype Pc =
    | Entry
    | AllReset | AllEnable
    | SumMode0 | SumDisable | SumReset | SumEnable | SumMode1
    | Head | Clear | Wait | Start | Transferring | Send(message: seq<u32>)
    | LeaveMode | LeaveRead | Done

  /** A worker.  `iTrig` and `sum` are its locals; the rest is history: the snapshot taken when it was spawned,
      where the sources stood after its reset, the values of `stop_` its loop heads saw, the messages it sent. */
  datatype Thread = Thread(
    pc: Pc, sum: bool, iTrig: nat,
    fields: Fields, srcs: SourceList, base: Reg,
    start: seq<nat>, heads: seq<bool>, msgs: seq<seq<u32>>)

  function Spawn(sh: Shared): Thread {
    Thread(Entry, false, 0, sh.fields, sh.hw.srcs, sh.hw.writeReg, [0, 0, 0, 0, 0, 0, 0, 0, 0], [], [])
  }

  function Leave(t: Thread): Thread {
    t.(pc := if t.sum then LeaveMode else LeaveRead)
  }

  /** `LTC2333::wait` in the all-events loop: it polls the lowest enabled chip only, and nothing for an empty mask. */
  predicate PollPasses(hw: Hw) {
    |hw.srcs| > 1 ==> Occupancy(hw.dma.fifos, hw.srcs[0]) >= hw.nEvents
  }

  function Occupancy(fifos: seq<Fifo>, i: nat): int {
    if i < |fifos| then |fifos[i].stream| - fifos[i].pos else 0
  }

  /** Hypothesis on the board: the enabled FIFOs fill in lockstep, the timestamps with two words per sample. */
  ghost predicate Lockstep(hw: Hw) {
    exists level: nat :: AtLevel(hw, level)
  }

  ghost predicate AtLevel(hw: Hw, level: nat) {
    forall k :: 0 <= k < |hw.srcs| ==> Occupancy(hw.dma.fifos, hw.srcs[k]) == Share(level, hw.srcs[k])
  }

  /** A whole block is waiting in every enabled FIFO. */
  ghost predicate BlockWaiting(hw: Hw) {
    Holds(hw.dma.fifos, Positions(hw.dma.fifos), hw.srcs, hw.nEvents)
  }

  /** The wait at the head of a trigger is over.  With `num_sum` set the worker waits for the front end's interrupt,
      taken to mean that a block is waiting; otherwise it polls one FIFO of a board that fills in lockstep. */
  ghost predicate WaitOver(sh: Shared, t: Thread) {
    if t.sum then BlockWaiting(sh.hw)
    else PollPasses(sh.hw) && Lockstep(sh.hw) && |sh.hw.srcs| > 1
  }

  /** On a board that fills in lockstep, with at least one chip enabled, polling the lowest chip is enough. */
  lemma PollSuffices(hw: Hw)
    requires |hw.dma.fifos| == 9
    requires PollPasses(hw) && Lockstep(hw) && |hw.srcs| > 1
    ensures BlockWaiting(hw)
  {
    var level: nat :| AtLevel(hw, level);
    AscendingBound(hw.srcs, 0);
    assert level >= hw.nEvents;
    forall k | 0 <= k < |hw.srcs|
      ensures hw.srcs[k] < 9
      ensures Positions(hw.dma.fifos)[hw.srcs[k]] + Share(hw.nEvents, hw.srcs[k]) <= |hw.dma.fifos[hw.srcs[k]].stream|
    {
      AscendingBound(hw.srcs, k);
      assert Occupancy(hw.dma.fifos, hw.srcs[k]) == Share(level, hw.srcs[k]);
    }
  }

  /** The worker can take its next step. */
  ghost predicate CanStep(sh: Shared, t: Thread, flush: seq<nat>) {
    match t.pc
    case AllReset => Flushable(sh.hw.dma.fifos, flush)
    case SumReset => Flushable(sh.hw.dma.fifos, flush)
    case Wait => WaitOver(sh, t)
    case Transferring =>
      Interrupt(sh.hw) && CopyWords(sh.hw) <= |sh.hw.dma.data| && 32 * sh.hw.nSGBuf <= |sh.hw.dma.sg|
    case Done => false
    case _ => true
  }

  /** What a step at `pc` does to the hardware.  `flush` is where the FIFOs are left when the front end is reset. */
  function HwAfter(hw: Hw, pc: Pc, flush: seq<nat>): Hw
    requires pc.AllReset? || pc.SumReset? ==> |flush| == |hw.dma.fifos|
    requires pc.Transferring? ==> 32 * hw.nSGBuf <= |hw.dma.sg|
  {
    match pc
    case AllReset => ResetRead(hw, flush)
    case SumReset => ResetRead(hw, flush)
    case AllEnable => EnableRead(hw, true)
    case SumEnable => EnableRead(hw, true)
    case SumDisable => EnableRead(hw, false)
    case LeaveRead => EnableRead(hw, false)
    case SumMode0 => SetReadMode(hw, false)
    case SumMode1 => SetReadMode(hw, true)
    case LeaveMode => SetReadMode(hw, false)
    case Start => StartSG(hw)
    case Transferring => ResetStatus(hw)
    case _ => hw
  }

  /** What one step of the worker does to the shared state. */
  function SharedOf(sh: Shared, t: Thread, flush: seq<nat>): Shared
    requires CanStep(sh, t, flush)
  {
    sh.(hw := HwAfter(sh.hw, t.pc, flush),
        stop := sh.stop && !t.pc.Clear?,
        cleared := if t.pc.Clear? then sh.cleared + 1 else sh.cleared)
  }

  /** What the step does to the worker itself. */
  function ThreadOf(sh: Shared, t: Thread, flush: seq<nat>): Thread
    requires CanStep(sh, t, flush)
  {
    match t.pc
    case Entry => t.(sum := sh.fields.nsum != 0, pc := if sh.fields.nsum == 0 then AllReset else SumMode0)
    // daq_thread_all
    case AllReset => t.(start := flush, pc := AllEnable)
    case AllEnable => t.(pc := Head)
    // daq_thread_sum
    case SumMode0 => t.(pc := SumDisable)
    case SumDisable => t.(pc := SumReset)
    case SumReset => t.(start := flush, pc := SumEnable)
    case SumEnable => t.(pc := SumMode1)
    case SumMode1 => t.(pc := Head)
    // the loop of both
    case Head =>
      if t.iTrig < sh.fields.numTriggers || sh.fields.numTriggers < 0
      then t.(heads := t.heads + [sh.stop], pc := if sh.stop then Clear else Wait)
      else Leave(t)
    case Clear => Leave(t)
    case Wait => t.(pc := Start)
    case Start => t.(pc := Transferring)
    case Transferring => t.(pc := Send(CopyOut(sh.hw)))
    case Send(m) => t.(msgs := t.msgs + [m], iTrig := t.iTrig + 1, pc := Head)
    // the end of both
    case LeaveMode => t.(pc := LeaveRead)
    case LeaveRead => t.(pc := Done)
    case Done => t
  }

  /** No step of a worker reaches the DMA control register or the readout registers, or changes the selected sources. */
  lemma HwAfterFrame(hw: Hw, pc: Pc, flush: seq<nat>)
    requires pc.AllReset? || pc.SumReset? ==> |flush| == |hw.dma.fifos|
    requires pc.Transferring? ==> 32 * hw.nSGBuf <= |hw.dma.sg|
    ensures HwAfter(hw, pc, flush).control == hw.control
    ensures HwAfter(hw, pc, flush).srcs == hw.srcs
    ensures SameReadout(hw, HwAfter(hw, pc, flush))
  {
  }

  predicate SameReadout(a: Hw, b: Hw) {
    b.readEvents == a.readEvents && b.depth == a.depth && b.period == a.period && b.numSum == a.numSum
  }

  /** A worker never changes what it was started with. */
  lemma ThreadKeeps(sh: Shared, t: Thread, flush: seq<nat>)
    requires CanStep(sh, t, flush)
    ensures var t' := ThreadOf(sh, t, flush); t'.fields == t.fields && t'.srcs == t.srcs && t'.base == t.base
  {
  }

  // ---------- the data path of a run ----------

  /** The hardware is still set up the way it was when the worker was spawned. */
  ghost predicate Owned(sh: Shared, t: Thread) {
    && sh.fields == t.fields && sh.hw.srcs == t.srcs && sh.hw.nEvents == t.fields.nReads
    && t.fields.nChan == |t.srcs| - 1
    && Driven(sh.hw)
  }

  predicate BeforeReset(t: Thread) {
    t.pc.Entry? || t.pc.AllReset? || t.pc.SumMode0? || t.pc.SumDisable? || t.pc.SumReset?
  }

  predicate BeforeLoop(t: Thread) {
    BeforeReset(t) || t.pc.AllEnable? || t.pc.SumEnable? || t.pc.SumMode1?
  }

  predicate Leaving(t: Thread) {
    t.pc.LeaveMode? || t.pc.LeaveRead? || t.pc.Done?
  }

  /** Where the sources stand when `t` has taken `r` messages. */
  function StandsAt(t: Thread, r: nat): (at: seq<nat>)
    ensures |at| == |t.start|
  {
    Later(t.start, t.srcs, t.fields.nReads, r)
  }

  /** What holds of the engine and the FIFOs at each point of a run. */
  ghost predicate DataInv(sh: Shared, t: Thread) {
    var d, n := sh.hw.dma, t.fields.nReads;
    && Owned(sh, t)
    && |t.start| == 9
    && (if t.pc.Transferring? then Gathering(d, t.srcs, n, StandsAt(t, |t.msgs|), sh.hw.retired)
        else Ready(d, t.srcs, n))
    && (BeforeLoop(t) ==> t.msgs == [])
    && (!BeforeReset(t) && !Leaving(t) && !t.pc.Transferring? && !t.pc.Send? ==>
          Positions(d.fifos) == StandsAt(t, |t.msgs|))
    && (t.pc.Start? ==> Holds(d.fifos, Positions(d.fifos), t.srcs, n))
    && (t.pc.Send? ==> Positions(d.fifos) == StandsAt(t, |t.msgs| + 1)
                       && IsMessage(t.pc.message, d.fifos, StandsAt(t, |t.msgs|), t.srcs, n))
  }

  /** Everything the worker has sent is what the FIFOs held, in order. */
  ghost predicate SentInv(sh: Shared, t: Thread) {
    && |t.start| == |sh.hw.dma.fifos| == 9
    && (forall i :: 0 <= i < 9 ==> t.start[i] <= |sh.hw.dma.fifos[i].stream|)
    && Produced(t.msgs, sh.hw.dma.fifos, t.start, t.srcs, t.fields.nReads)
  }

  lemma StartKicks(sh: Shared, t: Thread)
    requires DataInv(sh, t) && t.pc.Start?
    ensures Gathering(StartSG(sh.hw).dma, t.srcs, t.fields.nReads, StandsAt(t, |t.msgs|), 0)
  {
    KickStartsGathering(sh.hw.dma, t.srcs, t.fields.nReads);
  }

  /** The engine is done: what is copied out is the message. */
  lemma CopiesMessage(sh: Shared, t: Thread)
    requires DataInv(sh, t) && t.pc.Transferring? && !sh.hw.dma.busy
    ensures IsMessage(CopyOut(sh.hw), sh.hw.dma.fifos, StandsAt(t, |t.msgs|), t.srcs, t.fields.nReads)
  {
    GatherLength(sh.hw.dma.fifos, StandsAt(t, |t.msgs|), t.srcs, t.fields.nReads, |t.srcs|);
  }

  /** Every source has moved on by one share. */
  lemma ReadMovesOn(sh: Shared, t: Thread)
    requires DataInv(sh, t) && t.pc.Transferring? && !sh.hw.dma.busy
    ensures Positions(sh.hw.dma.fifos) == StandsAt(t, |t.msgs| + 1)
  {
    assert t.srcs[..|t.srcs|] == t.srcs;
  }

  /** Re-arming makes the ring ready again. */
  lemma ReadRearms(sh: Shared, t: Thread)
    requires DataInv(sh, t) && t.pc.Transferring? && !sh.hw.dma.busy
    ensures 32 * sh.hw.nSGBuf <= |sh.hw.dma.sg|
    ensures Ready(ResetStatus(sh.hw).dma, t.srcs, t.fields.nReads)
  {
    RearmReady(sh.hw.dma, t.srcs, t.fields.nReads, StandsAt(t, |t.msgs|));
  }

  /** Steps that leave the engine and the FIFOs alone and only move the program counter. */
  predicate Bookkeeping(t: Thread) {
    !t.pc.AllReset? && !t.pc.SumReset? && !t.pc.Start? && !t.pc.Transferring? && !t.pc.Send?
  }

  lemma BookkeepingShared(sh: Shared, t: Thread, flush: seq<nat>)
    requires Bookkeeping(t) && CanStep(sh, t, flush)
    ensures var hw, hw' := sh.hw, SharedOf(sh, t, flush).hw;
            && SharedOf(sh, t, flush).fields == sh.fields
            && hw'.dma == hw.dma && hw'.srcs == hw.srcs && hw'.nEvents == hw.nEvents
            && hw'.nSGBuf == hw.nSGBuf && hw'.lastTail == hw.lastTail && hw'.control == hw.control
  {
  }

  lemma BookkeepingThread(sh: Shared, t: Thread, flush: seq<nat>)
    requires Bookkeeping(t) && CanStep(sh, t, flush)
    ensures var t' := ThreadOf(sh, t, flush);
            && t'.fields == t.fields && t'.srcs == t.srcs && t'.start == t.start && t'.msgs == t.msgs
            && !t'.pc.Transferring? && !t'.pc.Send? && (t'.pc.Start? <==> t.pc.Wait?)
            && (BeforeLoop(t') ==> BeforeLoop(t)) && (BeforeReset(t) && !Leaving(t') ==> BeforeReset(t'))
            && (Leaving(t) ==> Leaving(t'))
  {
  }

  lemma DataBookkeeping(sh: Shared, t: Thread, flush: seq<nat>)
    requires DataInv(sh, t) && Bookkeeping(t) && CanStep(sh, t, flush)
    ensures DataInv(SharedOf(sh, t, flush), ThreadOf(sh, t, flush))
  {
    BookkeepingShared(sh, t, flush);
    BookkeepingThread(sh, t, flush);
    if t.pc.Wait? && !t.sum {
      PollSuffices(sh.hw);
    }
  }

  lemma DataReset(sh: Shared, t: Thread, flush: seq<nat>)
    requires DataInv(sh, t) && (t.pc.AllReset? || t.pc.SumReset?) && CanStep(sh, t, flush)
    ensures DataInv(SharedOf(sh, t, flush), ThreadOf(sh, t, flush))
    ensures Grown(sh.hw.dma.fifos, SharedOf(sh, t, flush).hw.dma.fifos)
  {
    FlushedReady(sh.hw, t.srcs, t.fields.nReads, flush);
  }

  lemma DataStart(sh: Shared, t: Thread, flush: seq<nat>)
    requires DataInv(sh, t) && t.pc.Start?
    ensures DataInv(SharedOf(sh, t, flush), ThreadOf(sh, t, flush))
  {
    StartKicks(sh, t);
  }

  lemma DataTransferred(sh: Shared, t: Thread, flush: seq<nat>)
    requires DataInv(sh, t) && t.pc.Transferring? && CanStep(sh, t, flush)
    ensures DataInv(SharedOf(sh, t, flush), ThreadOf(sh, t, flush))
  {
    InterruptIsDone(sh.hw, t.fields.nReads, StandsAt(t, |t.msgs|));
    CopiesMessage(sh, t);
    ReadMovesOn(sh, t);
    ReadRearms(sh, t);
  }

  lemma DataSend(sh: Shared, t: Thread, flush: seq<nat>)
    requires DataInv(sh, t) && t.pc.Send?
    ensures DataInv(SharedOf(sh, t, flush), ThreadOf(sh, t, flush))
  {
  }

  /** Every step of a live worker keeps the data path as it should be. */
  lemma DataStep(sh: Shared, t: Thread, flush: seq<nat>)
    requires DataInv(sh, t) && CanStep(sh, t, flush)
    ensures DataInv(SharedOf(sh, t, flush), ThreadOf(sh, t, flush))
    ensures Grown(sh.hw.dma.fifos, SharedOf(sh, t, flush).hw.dma.fifos)
  {
    if t.pc.AllReset? || t.pc.SumReset? {
      DataReset(sh, t, flush);
    } else if Bookkeeping(t) {
      DataBookkeeping(sh, t, flush);
      BookkeepingShared(sh, t, flush);
    } else if t.pc.Start? {
      DataStart(sh, t, flush);
    } else if t.pc.Transferring? {
      DataTransferred(sh, t, flush);
    } else {
      DataSend(sh, t, flush);
    }
  }

  lemma SentStep(sh: Shared, t: Thread, flush: seq<nat>)
    requires DataInv(sh, t) && SentInv(sh, t) && CanStep(sh, t, flush)
    ensures SentInv(SharedOf(sh, t, flush), ThreadOf(sh, t, flush))
  {
    var sh', t' := SharedOf(sh, t, flush), ThreadOf(sh, t, flush);
    DataStep(sh, t, flush);
    if t.pc.AllReset? || t.pc.SumReset? {
      assert t'.msgs == [];
    } else {
      StartFrame(sh, t, flush);
      ProducedStable(t.msgs, sh.hw.dma.fifos, sh'.hw.dma.fifos, t.start, t.srcs, t.fields.nReads);
    }
  }

  lemma StartFrame(sh: Shared, t: Thread, flush: seq<nat>)
    requires CanStep(sh, t, flush) && !t.pc.AllReset? && !t.pc.SumReset?
    ensures var t' := ThreadOf(sh, t, flush);
            && t'.start == t.start && t'.srcs == t.srcs && t'.fields == t.fields
            && t'.msgs == if t.pc.Send? then t.msgs + [t.pc.message] else t.msgs
    ensures t.pc.Send? ==> SharedOf(sh, t, flush) == sh
  {
  }

  /** A worker that has ended keeps what it sent, whatever the FIFOs do next. */
  lemma SentGrown(sh: Shared, later: Shared, t: Thread)
    requires SentInv(sh, t) && Grown(sh.hw.dma.fifos, later.hw.dma.fifos)
    ensures SentInv(later, t)
  {
    ProducedStable(t.msgs, sh.hw.dma.fifos, later.hw.dma.fifos, t.start, t.srcs, t.fields.nReads);
  }

  lemma BoardStep(sh: Shared, t: Thread, flush: seq<nat>)
    requires CanStep(sh, t, flush)
    ensures SameBoard(sh.hw.dma, SharedOf(sh, t, flush).hw.dma)
  {
    if Bookkeeping(t) {
      BookkeepingShared(sh, t, flush);
    }
  }

  lemma BoardEngine(sh: Shared)
    ensures SameBoard(sh.hw.dma, EngineMoves(sh).hw.dma)
  {
  }

  // ---------- the engine and the ADC ----------

  function EngineMoves(sh: Shared): Shared {
    sh.(hw := Hardware.EngineStep(sh.hw))
  }

  function AdcFills(sh: Shared, i: nat, words: seq<u32>): Shared
    requires i < |sh.hw.dma.fifos|
  {
    sh.(hw := sh.hw.(dma := Fill(sh.hw.dma, i, words)))
  }

  lemma IdleEngineRests(sh: Shared)
    requires !sh.hw.dma.busy
    ensures EngineMoves(sh) == sh
  {
  }

  lemma BusyEngineGathers(sh: Shared, t: Thread, at: seq<nat>)
    requires DataInv(sh, t) && t.pc.Transferring? && sh.hw.dma.busy && at == StandsAt(t, |t.msgs|)
    ensures Gathering(Step(sh.hw.dma), t.srcs, t.fields.nReads, at, sh.hw.retired + 1)
    ensures Grown(sh.hw.dma.fifos, Step(sh.hw.dma).fifos)
  {
    StepGathers(sh.hw.dma, t.srcs, t.fields.nReads, at, sh.hw.retired);
    StepUntouched(sh.hw.dma, t.srcs, t.fields.nReads, at, sh.hw.retired);
  }

  lemma EngineDriven(sh: Shared)
    requires Driven(sh.hw)
    ensures Driven(EngineMoves(sh).hw)
  {
    BoardEngine(sh);
    DrivenStays(sh.hw, EngineMoves(sh).hw);
  }

  lemma BusyEngineMoves(sh: Shared)
    requires sh.hw.dma.busy
    ensures EngineMoves(sh).hw.dma == Step(sh.hw.dma) && EngineMoves(sh).hw.retired == sh.hw.retired + 1
  {
  }

  lemma DrivenStays(hw: Hw, hw': Hw)
    requires Driven(hw) && SameBoard(hw.dma, hw'.dma)
    requires hw'.nSGBuf == hw.nSGBuf && hw'.srcs == hw.srcs && hw'.lastTail == hw.lastTail && hw'.nEvents == hw.nEvents
    requires hw'.control == hw.control
    ensures Driven(hw')
  {
  }

  lemma GatheringSuffices(sh: Shared, sh': Shared, t: Thread, d: Dma, at: seq<nat>, retired: nat)
    requires DataInv(sh, t) && t.pc.Transferring? && at == StandsAt(t, |t.msgs|)
    requires sh'.fields == sh.fields && sh'.hw.srcs == sh.hw.srcs && sh'.hw.nEvents == sh.hw.nEvents
    requires Driven(sh'.hw) && sh'.hw.dma == d && sh'.hw.retired == retired
    requires Gathering(d, t.srcs, t.fields.nReads, at, retired)
    ensures DataInv(sh', t)
  {
  }

  lemma EngineKeepsData(sh: Shared, t: Thread)
    requires DataInv(sh, t)
    ensures DataInv(EngineMoves(sh), t)
    ensures Grown(sh.hw.dma.fifos, EngineMoves(sh).hw.dma.fifos)
  {
    if sh.hw.dma.busy {
      BusyEngineGathers(sh, t, StandsAt(t, |t.msgs|));
      BusyEngineMoves(sh);
      EngineDriven(sh);
      GatheringSuffices(sh, EngineMoves(sh), t, Step(sh.hw.dma), StandsAt(t, |t.msgs|), sh.hw.retired + 1);
    } else {
      IdleEngineRests(sh);
    }
  }

  lemma FillKeepsGathering(d: Dma, srcs: SourceList, n: nat, at: seq<nat>, slots: nat, i: nat, words: seq<u32>)
    requires Gathering(d, srcs, n, at, slots) && i < 9
    ensures Gathering(Fill(d, i, words), srcs, n, at, slots)
  {
    GatherStable(d.fifos, Fill(d, i, words).fifos, at, srcs, n, slots);
  }

  lemma FillKeepsReady(d: Dma, srcs: SourceList, n: nat, i: nat, words: seq<u32>)
    requires Ready(d, srcs, n) && i < 9
    ensures Ready(Fill(d, i, words), srcs, n)
    ensures Positions(Fill(d, i, words).fifos) == Positions(d.fifos)
    ensures Grown(d.fifos, Fill(d, i, words).fifos)
  {
  }

  lemma FillKeepsData(sh: Shared, t: Thread, i: nat, words: seq<u32>)
    requires DataInv(sh, t) && i < 9
    ensures DataInv(AdcFills(sh, i, words), t)
  {
    var d, n := sh.hw.dma, t.fields.nReads;
    if t.pc.Transferring? {
      FillKeepsGathering(d, t.srcs, n, StandsAt(t, |t.msgs|), sh.hw.retired, i, words);
    } else {
      FillKeepsReady(d, t.srcs, n, i, words);
      if t.pc.Send? {
        IsMessageStable(t.pc.message, d.fifos, Fill(d, i, words).fifos, StandsAt(t, |t.msgs|), t.srcs, n);
      }
    }
  }

  // ---------- counting messages and loop heads ----------

  ghost predicate NoneSet(heads: seq<bool>) {
    forall j :: 0 <= j < |heads| ==> !heads[j]
  }

  /** The loop head that saw the flag is the last one. */
  ghost predicate LastSet(heads: seq<bool>) {
    |heads| > 0 && heads[|heads| - 1] && NoneSet(heads[..|heads| - 1])
  }

  ghost predicate CountInv(t: Thread) {
    var num := t.fields.numTriggers;
    && (BeforeLoop(t) ==> t.heads == [] && t.msgs == [] && t.iTrig == 0)
    && (num >= 0 ==> |t.msgs| <= num)
    && (!BeforeLoop(t) && !Leaving(t) ==> t.iTrig == |t.msgs| && (num >= 0 ==> t.iTrig <= num))
    && (t.pc.Head? ==> NoneSet(t.heads) && |t.heads| == |t.msgs|)
    && (t.pc.Clear? ==> LastSet(t.heads) && |t.heads| == |t.msgs| + 1)
    && (t.pc.Wait? || t.pc.Start? || t.pc.Transferring? || t.pc.Send? ==>
          NoneSet(t.heads) && |t.heads| == |t.msgs| + 1 && (num >= 0 ==> t.iTrig < num))
    && (Leaving(t) ==> || (LastSet(t.heads) && |t.heads| == |t.msgs| + 1)
                       || (NoneSet(t.heads) && |t.heads| == |t.msgs| == num))
  }

  lemma HeadsAppend(heads: seq<bool>, seen: bool)
    requires NoneSet(heads)
    ensures if seen then LastSet(heads + [seen]) else NoneSet(heads + [seen])
  {
    assert (heads + [seen])[..|heads|] == heads;
  }

  lemma CountHead(sh: Shared, t: Thread, flush: seq<nat>)
    requires CountInv(t) && sh.fields == t.fields && t.pc.Head?
    ensures CountInv(ThreadOf(sh, t, flush))
  {
    HeadsAppend(t.heads, sh.stop);
  }

  lemma CountLoop(sh: Shared, t: Thread, flush: seq<nat>)
    requires CountInv(t) && !BeforeLoop(t) && !t.pc.Head? && CanStep(sh, t, flush)
    ensures CountInv(ThreadOf(sh, t, flush))
  {
  }

  lemma CountSetup(sh: Shared, t: Thread, flush: seq<nat>)
    requires CountInv(t) && BeforeLoop(t) && CanStep(sh, t, flush)
    ensures CountInv(ThreadOf(sh, t, flush))
  {
  }

  lemma CountStep(sh: Shared, t: Thread, flush: seq<nat>)
    requires CountInv(t) && sh.fields == t.fields && CanStep(sh, t, flush)
    ensures CountInv(ThreadOf(sh, t, flush))
  {
    if t.pc.Head? {
      CountHead(sh, t, flush);
    } else if BeforeLoop(t) {
      CountSetup(sh, t, flush);
    } else {
      CountLoop(sh, t, flush);
    }
  }

  /** Index of the first loop head that saw the flag. */
  function FirstSet(heads: seq<bool>): nat {
    if heads == [] || heads[0] then 0 else 1 + FirstSet(heads[1..])
  }

  lemma {:induction false} FirstSetIs(heads: seq<bool>)
    ensures NoneSet(heads) ==> FirstSet(heads) == |heads|
    ensures LastSet(heads) ==> FirstSet(heads) == |heads| - 1
  {
    if heads != [] && !heads[0] {
      var tail := heads[1..];
      FirstSetIs(tail);
      assert forall j :: 0 <= j < |tail| ==> tail[j] == heads[j + 1];
      if LastSet(heads) {
        assert forall j :: 0 <= j < |tail| - 1 ==> tail[j] == heads[..|heads| - 1][j + 1];
      }
    }
  }

  /** A finished run sent as many messages as the index of the first loop head that saw the flag, or as many as
      were asked for if none did; with a negative count it can only have ended by seeing the flag. */
  lemma RunLength(t: Thread)
    requires CountInv(t) && Leaving(t)
    ensures |t.msgs| == if true in t.heads then FirstSet(t.heads) else t.fields.numTriggers
  {
    FirstSetIs(t.heads);
    if LastSet(t.heads) {
      assert t.heads[|t.heads| - 1];
    }
  }

  // ---------- registers ----------

  predicate InSumLoop(t: Thread) {
    t.sum && (|| t.pc.Head? || t.pc.Clear? || t.pc.Wait? || t.pc.Start? || t.pc.Transferring? || t.pc.Send?
              || t.pc.LeaveMode?)
  }

  predicate OnlySums(pc: Pc) {
    pc.SumMode0? || pc.SumDisable? || pc.SumReset? || pc.SumEnable? || pc.SumMode1? || pc.LeaveMode?
  }

  predicate KindKnown(t: Thread) {
    && (t.pc.AllReset? || t.pc.AllEnable? ==> !t.sum)
    && (OnlySums(t.pc) ==> t.sum)
    && (!t.pc.Entry? ==> t.sum == (t.fields.nsum != 0))
  }

  /** What the read register holds at each point of a run: the front end is reset, with reading disabled first in a
      summing run, then reads until the loop is over, and is disabled at the end. */
  predicate ReadWord(pc: Pc, r: Reg) {
    match pc
    case AllEnable => HasReset(r)
    case SumReset => r == Reg(0x0)
    case SumEnable => r == Reg(0x1)
    case Entry => true
    case AllReset => true
    case SumMode0 => true
    case SumDisable => true
    case Done => r == Reg(0x0)
    case _ => r == Reg(0x2)
  }

  lemma ReadStep(sh: Shared, t: Thread, flush: seq<nat>)
    requires ReadWord(t.pc, sh.hw.readReg) && CanStep(sh, t, flush)
    ensures ReadWord(ThreadOf(sh, t, flush).pc, SharedOf(sh, t, flush).hw.readReg)
  {
    ResetShows(sh.hw.readReg);
  }

  /** The write register holds the configured word, with the mode bit up exactly during a summing loop, and the read
      register what this point of the run asks for. */
  ghost predicate RegisterInv(sh: Shared, t: Thread) {
    && KindKnown(t)
    && ModeClear(t.base)
    && sh.hw.writeReg == (if InSumLoop(t) then SetMode(t.base, true) else t.base)
    && ReadWord(t.pc, sh.hw.readReg)
  }

  lemma RegisterMode(sh: Shared, t: Thread, flush: seq<nat>)
    requires RegisterInv(sh, t) && (t.pc.SumMode0? || t.pc.SumMode1? || t.pc.LeaveMode?)
    ensures RegisterInv(SharedOf(sh, t, flush), ThreadOf(sh, t, flush))
  {
    ModeRoundTrip(t.base);
    ReadStep(sh, t, flush);
  }

  lemma KindStep(sh: Shared, t: Thread, flush: seq<nat>)
    requires KindKnown(t) && sh.fields == t.fields && CanStep(sh, t, flush)
    ensures KindKnown(ThreadOf(sh, t, flush))
  {
  }

  lemma SumLoopStep(sh: Shared, t: Thread, flush: seq<nat>)
    requires KindKnown(t) && CanStep(sh, t, flush)
    requires !t.pc.SumMode0? && !t.pc.SumMode1? && !t.pc.LeaveMode?
    ensures InSumLoop(ThreadOf(sh, t, flush)) == InSumLoop(t) && ThreadOf(sh, t, flush).base == t.base
  {
  }

  lemma WriteRegisterStep(sh: Shared, t: Thread, flush: seq<nat>)
    requires CanStep(sh, t, flush)
    requires !t.pc.SumMode0? && !t.pc.SumMode1? && !t.pc.LeaveMode?
    ensures SharedOf(sh, t, flush).hw.writeReg == sh.hw.writeReg
  {
  }

  lemma RegisterStep(sh: Shared, t: Thread, flush: seq<nat>)
    requires RegisterInv(sh, t) && sh.fields == t.fields && CanStep(sh, t, flush)
    ensures RegisterInv(SharedOf(sh, t, flush), ThreadOf(sh, t, flush))
  {
    if t.pc.SumMode0? || t.pc.SumMode1? || t.pc.LeaveMode? {
      RegisterMode(sh, t, flush);
    } else {
      KindStep(sh, t, flush);
      SumLoopStep(sh, t, flush);
      WriteRegisterStep(sh, t, flush);
      ReadStep(sh, t, flush);
    }
  }
}
