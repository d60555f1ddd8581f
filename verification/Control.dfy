/** The settings as the control class keeps them, and the part of a start that runs between two joins. */
module Control {
  import opened Words
  import opened ChipMask
  import opened SgRing
  import opened Cdma
  import opened Registers
  import opened Hardware
  import opened Config
  import opened Driver
  import opened Daq

  class CtrlThread {
    const daq: DAQThread
    var chipMask: Octet
    var readPeriod: u32
    var range: Octet
    var chanMask: Octet
    var nReads: u32
    var numSum: u32
    var numTriggers: i32
    var bias1: u32
    var bias2: u32

    /** `leftover` is what the uninitialised field happens to hold. */
    constructor (daq: DAQThread, leftover: u32)
      ensures this.daq == daq && Settings() == Defaults(leftover)
      ensures chipMask == chanMask == Octet(0xff) && readPeriod == 0 && range == Octet(0)
      ensures nReads == 1024 && numTriggers == 1000 && bias1 == bias2 == 0
    {
      this.daq := daq;
      chipMask, readPeriod, range, chanMask := Octet(0xff), 0, Octet(0), Octet(0xff);
      nReads, numTriggers, bias1, bias2 := 1024, 1000, 0, 0;
      numSum := leftover;
    }

    function Settings(): Config.Settings
      reads this
    {
      Config.Settings(chipMask, readPeriod, range, chanMask, nReads, numSum, numTriggers, bias1, bias2)
    }

    method ParseConfig(config: Document)
      modifies this
      ensures Settings() == Merge(old(Settings()), config)
    {
      if config.chipMask.Some? { chipMask := config.chipMask.value; }
      if config.readPeriod.Some? { readPeriod := config.readPeriod.value; }
      if config.range.Some? { range := config.range.value; }
      if config.chanMask.Some? { chanMask := config.chanMask.value; }
      ParseNumbers(config);
    }

    method ParseNumbers(config: Document)
      modifies this`nReads, this`numTriggers, this`numSum, this`bias1, this`bias2
      ensures nReads == Or(config.nReads, old(nReads)) && numTriggers == Or(config.numTriggers, old(numTriggers))
      ensures numSum == Or(config.numSum, old(numSum))
      ensures bias1 == Or(config.bias1, old(bias1)) && bias2 == Or(config.bias2, old(bias2))
    {
      if config.nReads.Some? { nReads := config.nReads.value; }
      if config.numTriggers.Some? { numTriggers := config.numTriggers.value; }
      if config.numSum.Some? { numSum := config.numSum.value; }
      if config.bias1.Some? { bias1 := config.bias1.value; }
      if config.bias2.Some? { bias2 := config.bias2.value; }
    }

    /** What `cmd_start` does once the last worker has been joined: from an idle engine and with sizes that fit, the
        hardware is prepared for a run with the settings of this moment, all of them in its registers. */
    method PrepareRun()
      requires Startable()
      modifies daq`nChan, daq`readsPerTrigger, daq`numTriggers, daq`nsum
      modifies daq.ltc, daq.ltc.dmaCtrl, daq.ltc.board, daq.ltc.board.sg
      ensures daq.Prepared() && Operational(daq.ltc.board.control)
      ensures daq.numTriggers == numTriggers && daq.nsum == numSum && daq.readsPerTrigger == nReads
      ensures daq.ltc.State()
              == Reconfigured(old(daq.ltc.State()), chipMask, readPeriod, range, chanMask, nReads, numSum)
      ensures daq.ltc.board.writeReg == WriteWord(chanMask, range, false) && ModeClear(daq.ltc.board.writeReg)
      ensures daq.ltc.board.depth == daq.ltc.board.readEvents == nReads
      ensures daq.ltc.board.period == readPeriod && daq.ltc.board.numSum == numSum
    {
      ghost var h := daq.ltc.State();
      PreparedBy(h, chipMask, readPeriod, range, chanMask, nReads, numSum);
      SignedRoundTrip(numTriggers);
      daq.Configure(Wrap(numTriggers), chipMask, readPeriod, range, chanMask, nReads, numSum);
    }

    /** The engine rests, its switches are on, and what is to be configured fits. */
    ghost predicate Startable()
      reads this, daq, daq.ltc, daq.ltc.dmaCtrl, daq.ltc.board, daq.ltc.board.sg, daq.ltc.board.data
    {
      && daq.ltc.Wired() && WellFormedBoard(daq.ltc.State()) && Roomy(daq.ltc.State().dma, nReads)
      && Operational(daq.ltc.board.control)
    }

    /** A start to the end of its run: whatever was configured before, the run is one with the settings of this moment,
        and it leaves the write register as they ask for and reading disabled. */
    method CmdStart(env: seq<Round>, flush: seq<nat>) returns (produced: seq<seq<u32>>, ghost head: LoopHead)
      requires Startable() && Flushable(daq.ltc.board.fifos, flush)
      requires forall r :: 0 <= r < |env| ==> Feeds(env[r], Sources(chipMask), nReads)
      modifies daq, daq.ltc, daq.ltc.dmaCtrl, daq.ltc.board, daq.ltc.board.sg, daq.ltc.board.data
      ensures daq.Ended(env, flush, produced, old(daq.sent), old(daq.stop)) && daq.numTriggers == numTriggers
      ensures daq.ltc.State().srcs == Sources(chipMask) && daq.readsPerTrigger == nReads
      ensures Reading(head.readReg) && (ModeClear(head.writeReg) <==> numSum == 0)
      ensures head.writeReg == SetMode(WriteWord(chanMask, range, false), numSum != 0)
      ensures daq.ltc.board.readReg == Reg(0) && daq.ltc.board.writeReg == WriteWord(chanMask, range, false)
    {
      PrepareRun();
      produced, head := daq.Run(env, flush);
    }
  }

  /** What `DAQ_Thread::configure` establishes, whatever its arguments. */
  lemma PreparedBy(h: Hw, chipMask: Octet, readPeriod: u32, range: Octet, chanMask: Octet, n: u32, numSum: u32)
    requires WellFormedBoard(h) && Roomy(h.dma, n) && Operational(h.control)
    ensures |Sources(chipMask)| <= 9
    ensures var e := Reconfigured(h, chipMask, readPeriod, range, chanMask, n, numSum);
            && Ready(e.dma, Sources(chipMask), n) && Driven(e) && Operational(e.control) && IrqEnabled(e.control)
            && e.writeReg == WriteWord(chanMask, range, false) && ModeClear(e.writeReg)
            && e.srcs == Sources(chipMask) && e.nEvents == n
  {
    AtMostNine(Sources(chipMask));
    ConfigureReady(h, chipMask, chanMask, range, n);
    ConfigureFrame(h, chipMask, chanMask, range, n);
    CoalescingKeepsSwitches(h.control, |Sources(chipMask)|);
    OperationalIrq(SetCoalescing(h.control, |Sources(chipMask)|));
    WriteWordFields(chanMask, range, false);
  }

  ghost predicate WellFormedBoard(h: Hw) {
    WellFormed(h.dma) && !h.dma.busy && !h.dma.fault
  }
}
