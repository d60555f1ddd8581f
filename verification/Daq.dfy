/** The run of a worker as the two loops of the server's DAQ class, over the driver objects. */
module Daq {
  import opened Words
  import opened ChipMask
  import opened SgRing
  import opened Cdma
  import opened Reads
  import opened Registers
  import opened Hardware
  import opened Driver
  import opened Worker

  /** What the surroundings contribute to one turn of a run's loop: whether the stop flag is raised before its head,
      what the ADC pushes before the wait is over, and whether the data queue accepts the message. */
  datatype Round = Round(raised: bool, arrivals: seq<seq<u32>>, accepted: bool)

  /** A trigger produces at least one block in every FIFO that is read. */
  ghost predicate Feeds(r: Round, srcs: SourceList, n: nat) {
    |r.arrivals| == 9 && forall k :: 0 <= k < |srcs| ==> srcs[k] < 9 && |r.arrivals[srcs[k]]| >= Share(n, srcs[k])
  }

  predicate Continues(i: nat, num: i32) {
    i < num || num < 0
  }

  /** How many turns of the loop are completed, from turn `i` on with the flag as given: up to the first head that
      sees the flag, the last trigger, or the end of what is known of the surroundings. */
  function Turns(flag: bool, env: seq<Round>, num: i32, i: nat): (q: nat)
    requires i <= |env| && (num < 0 || i <= num)
    ensures i <= q <= |env| && (num < 0 || q <= num)
    ensures forall j :: i <= j < q ==> !env[j].raised
    ensures i < q ==> !flag
    ensures q < |env| && Continues(q, num) ==> env[q].raised || (q == i && flag)
    decreases |env| - i
  {
    if i == |env| || !Continues(i, num) || flag || env[i].raised then i else Turns(false, env, num, i + 1)
  }

  /** What the loop heads see of the flag. */
  function Heads(flag: bool, env: seq<Round>): (heads: seq<bool>)
    ensures |heads| == |env|
  {
    seq(|env|, j requires 0 <= j < |env| => env[j].raised || (j == 0 && flag))
  }

  lemma {:induction false} FirstSetFound(heads: seq<bool>)
    ensures FirstSet(heads) <= |heads|
    ensures forall j :: 0 <= j < FirstSet(heads) ==> !heads[j]
    ensures FirstSet(heads) < |heads| ==> heads[FirstSet(heads)]
  {
    if heads != [] && !heads[0] {
      var tail := heads[1..];
      FirstSetFound(tail);
      assert forall j :: 0 <= j < |tail| ==> tail[j] == heads[j + 1];
    }
  }

  /** The loop completes as many turns as the index of the first head that sees the flag, or its trigger count if
      that is less: the same count as for the worker among interleaved threads. */
  lemma TurnsAreHeads(flag: bool, env: seq<Round>, num: i32)
    ensures Turns(flag, env, num, 0)
            == var first := FirstSet(Heads(flag, env)); if 0 <= num < first then num else first
  {
    var heads, q := Heads(flag, env), Turns(flag, env, num, 0);
    FirstSetFound(heads);
    var first := FirstSet(heads);
    assert first < |env| ==> heads[first];
    assert q < first ==> !heads[q];
  }

  /** The messages that got into the queue. */
  function Accepted(msgs: seq<seq<u32>>, env: seq<Round>): seq<seq<u32>>
    requires |msgs| <= |env|
  {
    if msgs == [] then []
    else Accepted(msgs[..|msgs| - 1], env) + if env[|msgs| - 1].accepted then [msgs[|msgs| - 1]] else []
  }

  lemma ArrivalsSuffice(d: Dma, r: Round, srcs: SourceList, n: nat)
    requires Ready(d, srcs, n) && Feeds(r, srcs, n)
    ensures var f := Arrive(d.fifos, r.arrivals);
            && Ready(d.(fifos := f), srcs, n) && Grown(d.fifos, f)
            && Positions(f) == Positions(d.fifos) && Holds(f, Positions(f), srcs, n)
  {
  }

  /** A run that began with the sources at `start` has produced these messages, and the hardware is ready for more. */
  ghost predicate RunAt(st: Hw, n: u32, nChan: nat, start: seq<nat>, produced: seq<seq<u32>>) {
    var ok := && Ready(st.dma, st.srcs, n) && Driven(st) && IrqEnabled(st.control)
              && st.nEvents == n && nChan == |st.srcs| - 1
              && Positions(st.dma.fifos) == Later(start, st.srcs, n, |produced|)
              && Produced(produced, st.dma.fifos, start, st.srcs, n);
    ok
  }

  lemma RunAtNext(st: Hw, st': Hw, n: u32, nChan: nat, start: seq<nat>, produced: seq<seq<u32>>, m: seq<u32>)
    requires RunAt(st, n, nChan, start, produced)
    requires st'.srcs == st.srcs && st'.nEvents == st.nEvents && Ready(st'.dma, st.srcs, n) && Driven(st')
    requires st'.control == st.control
    requires IsMessage(m, st'.dma.fifos, Positions(st.dma.fifos), st.srcs, n)
    requires Positions(st'.dma.fifos) == Reads.After(Positions(st.dma.fifos), st.srcs, n)
    requires Grown(st.dma.fifos, st'.dma.fifos)
    ensures RunAt(st', n, nChan, start, produced + [m])
  {
    ProducedOne(produced, m, st.dma.fifos, st'.dma.fifos, start, st.srcs, n);
  }

  /** The hardware after `DAQ_Thread::configure`: the ring, the write register and the readout registers. */
  function Reconfigured(st: Hw, chipMask: Octet, readPeriod: u32, range: Octet, chanMask: Octet, n: u32,
                        numSum: u32): Hw
  {
    Hardware.Configure(st, chipMask, chanMask, range, n).(depth := n, period := readPeriod, numSum := numSum)
  }

  /** The hardware is ready for a run with these parameters. */
  ghost predicate PreparedFor(st: Hw, n: u32, nChan: nat) {
    var ok := && Ready(st.dma, st.srcs, st.nEvents) && Driven(st) && IrqEnabled(st.control)
              && st.nEvents == n && nChan == |st.srcs| - 1;
    ok
  }

  /** The two registers at the first loop head of a run, and all the writes made until then. */
  datatype LoopHead = LoopHead(readReg: Reg, writeReg: Reg, log: seq<Access>)

  class DAQThread {
    const ltc: LTC2333
    var readsPerTrigger: u32
    var numTriggers: i32
    var nsum: u32
    var nChan: nat
    var stop: bool
    var sent: seq<seq<u32>>

    constructor (ltc: LTC2333)
      ensures this.ltc == ltc && !stop && sent == []
      ensures readsPerTrigger == 1024 && numTriggers == 1000 && nsum == 0 && nChan == 0
    {
      this.ltc := ltc;
      readsPerTrigger, numTriggers, nsum, nChan, stop, sent := 1024, 1000, 0, 0, false, [];
    }

    method CountChips(chipMask: Octet)
      modifies this`nChan
      ensures nChan == Rank(chipMask, 8)
    {
      nChan := 0;
      var i := 0;
      assert Rank(chipMask, 0) == 0;
      while i < 8
        invariant 0 <= i <= 8 && nChan == Rank(chipMask, i)
      {
        if Enabled(chipMask, i) {
          nChan := nChan + 1;
        }
        i := i + 1;
      }
    }

    method SetReadout(n: u32, readPeriod: u32, numSum: u32)
      modifies ltc.board`depth, ltc.board`period, ltc.board`numSum
      ensures ltc.State() == old(ltc.State()).(depth := n, period := readPeriod, numSum := numSum)
    {
      ltc.SetReadDepth(n);
      ltc.SetReadPeriod(readPeriod);
      ltc.SetNumSum(numSum);
    }

    /** Takes over the run parameters and configures the hardware; the caller has joined the last worker. */
    method Configure(numTrigger: u32, chipMask: Octet, readPeriod: u32, range: Octet, chanMask: Octet, n: u32,
                     numSum: u32)
      requires ltc.Wired() && 32 * |Sources(chipMask)| <= ltc.board.sg.Length
      modifies this`nChan, this`readsPerTrigger, this`numTriggers, this`nsum
      modifies ltc, ltc.dmaCtrl, ltc.board, ltc.board.sg
      ensures readsPerTrigger == n && numTriggers == ToInt32(numTrigger) && nsum == numSum
      ensures nChan == Rank(chipMask, 8)
      ensures ltc.State() == Reconfigured(old(ltc.State()), chipMask, readPeriod, range, chanMask, n, numSum)
    {
      SetParameters(numTrigger, chipMask, n, numSum);
      ConfigureHardware(chipMask, readPeriod, range, chanMask, n, numSum);
    }

    method SetParameters(numTrigger: u32, chipMask: Octet, n: u32, numSum: u32)
      modifies this`nChan, this`readsPerTrigger, this`numTriggers, this`nsum
      ensures readsPerTrigger == n && numTriggers == ToInt32(numTrigger) && nsum == numSum
      ensures nChan == Rank(chipMask, 8)
    {
      CountChips(chipMask);
      readsPerTrigger := n;
      numTriggers := ToInt32(numTrigger);
      nsum := numSum;
    }

    method ConfigureHardware(chipMask: Octet, readPeriod: u32, range: Octet, chanMask: Octet, n: u32, numSum: u32)
      requires ltc.Wired() && 32 * |Sources(chipMask)| <= ltc.board.sg.Length
      modifies ltc, ltc.dmaCtrl, ltc.board, ltc.board.sg
      ensures ltc.State() == Reconfigured(old(ltc.State()), chipMask, readPeriod, range, chanMask, n, numSum)
    {
      ltc.Configure(chipMask, chanMask, range, false, n);
      SetReadout(n, readPeriod, numSum);
    }

    method StopDaqThread()
      modifies this`stop
      ensures stop
    {
      stop := true;
    }

    /** The hardware is ready for a run with the parameters of this object. */
    ghost predicate Prepared()
      reads this, ltc, ltc.dmaCtrl, ltc.board, ltc.board.sg, ltc.board.data
    {
      ltc.Wired() && PreparedFor(ltc.State(), readsPerTrigger, nChan)
    }

    /** The wait of one turn: a block arrives in every FIFO that is read. */
    method AwaitBlock(r: Round)
      requires Prepared() && Feeds(r, Sources(ltc.chipMask), readsPerTrigger)
      modifies ltc.board`fifos
      ensures Prepared() && Grown(old(ltc.board.fifos), ltc.board.fifos)
      ensures Positions(ltc.board.fifos) == old(Positions(ltc.board.fifos))
      ensures Holds(ltc.board.fifos, Positions(ltc.board.fifos), Sources(ltc.chipMask), readsPerTrigger)
    {
      ghost var d := ltc.board.Engine();
      ArrivalsSuffice(d, r, Sources(ltc.chipMask), readsPerTrigger);
      ltc.board.Fill(r.arrivals);
      assert ltc.board.Engine() == d.(fifos := Arrive(d.fifos, r.arrivals));
    }

    /** A fresh message is filled by one read, to its last word. */
    method FillMessage() returns (message: seq<u32>)
      requires Prepared()
      requires Holds(ltc.board.fifos, Positions(ltc.board.fifos), ltc.State().srcs, readsPerTrigger)
      modifies ltc.board`fifos, ltc.board`cur, ltc.board`tail, ltc.board`busy, ltc.board`fault
      modifies ltc.board`retired, ltc.board.sg, ltc.board.data
      ensures ltc.State() == old(ltc.State()).(dma := ReadOnce(old(ltc.State().dma), ltc.State().srcs, readsPerTrigger),
                                               retired := ltc.board.retired)
      ensures message
              == old(Message(ltc.State().dma.fifos, Positions(ltc.board.fifos), ltc.State().srcs, readsPerTrigger))
    {
      var data := new u32[Times(readsPerTrigger, nChan + 2)](_ => 0);
      ltc.Read(data);
      message := data[..];
      assert message == data[..CopyWords(ltc.State())];
    }

    /** A waiting block is gathered into a fresh message, and the ring is ready again. */
    method ReadMessage() returns (message: seq<u32>)
      requires Prepared()
      requires Holds(ltc.board.fifos, Positions(ltc.board.fifos), Sources(ltc.chipMask), readsPerTrigger)
      modifies ltc.board`fifos, ltc.board`cur, ltc.board`tail, ltc.board`busy, ltc.board`fault
      modifies ltc.board`retired, ltc.board.sg, ltc.board.data
      ensures Prepared() && Grown(old(ltc.board.fifos), ltc.board.fifos)
      ensures IsMessage(message, ltc.board.fifos, old(Positions(ltc.board.fifos)), Sources(ltc.chipMask),
                        readsPerTrigger)
      ensures Positions(ltc.board.fifos)
              == After(old(Positions(ltc.board.fifos)), Sources(ltc.chipMask), readsPerTrigger)
    {
      ghost var st := ltc.State();
      message := FillMessage();
      ReadGivesMessage(st, readsPerTrigger, nChan, message, ltc.State());
    }

    /** One block arrives, is gathered into a fresh message and leaves the ring ready again. */
    method TakeMessage(r: Round) returns (message: seq<u32>)
      requires Prepared() && Feeds(r, Sources(ltc.chipMask), readsPerTrigger)
      modifies ltc.board`fifos, ltc.board`cur, ltc.board`tail, ltc.board`busy, ltc.board`fault
      modifies ltc.board`retired, ltc.board.sg, ltc.board.data
      ensures Prepared() && Grown(old(ltc.board.fifos), ltc.board.fifos)
      ensures IsMessage(message, ltc.board.fifos, old(Positions(ltc.board.fifos)), Sources(ltc.chipMask),
                        readsPerTrigger)
      ensures Positions(ltc.board.fifos)
              == After(old(Positions(ltc.board.fifos)), Sources(ltc.chipMask), readsPerTrigger)
    {
      AwaitBlock(r);
      message := ReadMessage();
    }

    /** One more message of a run that began with the sources at `start`. */
    method Turn(r: Round, ghost produced: seq<seq<u32>>, ghost start: seq<nat>) returns (message: seq<u32>)
      requires ltc.Wired() && RunAt(ltc.State(), readsPerTrigger, nChan, start, produced)
      requires Feeds(r, ltc.State().srcs, readsPerTrigger)
      modifies ltc.board`fifos, ltc.board`cur, ltc.board`tail, ltc.board`busy, ltc.board`fault
      modifies ltc.board`retired, ltc.board.sg, ltc.board.data
      ensures RunAt(ltc.State(), readsPerTrigger, nChan, start, produced + [message])
    {
      ghost var st := ltc.State();
      message := TakeMessage(r);
      RunAtNext(st, ltc.State(), readsPerTrigger, nChan, start, produced, message);
    }

    /** The check at the head of the loop: a flag that is seen is taken down again. */
    method SeesFlag(raised: bool) returns (seen: bool)
      modifies this`stop
      ensures seen == (old(stop) || raised) && !stop
    {
      if raised {
        StopDaqThread();
      }
      seen := stop;
      if stop {
        stop := false;
      }
    }

    /** A message is offered to the data queue, which may refuse it. */
    method Send(message: seq<u32>, env: seq<Round>, ghost before: seq<seq<u32>>, produced: seq<seq<u32>>)
      requires |produced| < |env| && sent == before + Accepted(produced, env)
      modifies this`sent
      ensures sent == before + Accepted(produced + [message], env)
    {
      AcceptedOne(before, produced, message, env);
      if env[|produced|].accepted {
        sent := sent + [message];
      }
    }

    /** The state at a loop head: `first` is the flag as the run found it, `before` what had been sent by then, and
        `turns` how many turns the run will complete. */
    ghost predicate AtHead(env: seq<Round>, start: seq<nat>, produced: seq<seq<u32>>, before: seq<seq<u32>>, turns: nat,
                           first: bool)
      reads this, ltc, ltc.dmaCtrl, ltc.board, ltc.board.sg, ltc.board.data
    {
      var ok := && RunAt(ltc.State(), readsPerTrigger, nChan, start, produced)
                && |produced| <= |env| && (numTriggers >= 0 ==> |produced| <= numTriggers)
                && turns == Turns(stop, env, numTriggers, |produced|)
                && sent == before + Accepted(produced, env)
                && stop == (first && produced == []);
      ok
    }

    /** The state after a run that found the flag at `first` and the queue at `before`: one message per completed
        turn, each the next shares of the FIFOs, and all of them offered to the queue.  The flag stays up only if it
        was up before a run that never looked at it. */
    ghost predicate Ended(env: seq<Round>, start: seq<nat>, produced: seq<seq<u32>>, before: seq<seq<u32>>, first: bool)
      reads this, ltc, ltc.dmaCtrl, ltc.board, ltc.board.sg, ltc.board.data
    {
      var ok := && RunAt(ltc.State(), readsPerTrigger, nChan, start, produced)
                && |produced| == Turns(first, env, numTriggers, 0)
                && sent == before + Accepted(produced, env)
                && stop == (first && (env == [] || numTriggers == 0));
      ok
    }

    /** One turn: the flag is looked at; otherwise a message is taken and offered to the queue. */
    method TakeTurn(env: seq<Round>, produced: seq<seq<u32>>, ghost start: seq<nat>, ghost before: seq<seq<u32>>,
                    ghost turns: nat, ghost first: bool) returns (seen: bool, after: seq<seq<u32>>)
      requires ltc.Wired() && AtHead(env, start, produced, before, turns, first)
      requires |produced| < |env| && Continues(|produced|, numTriggers)
      requires turns == Turns(first, env, numTriggers, 0)
      requires Feeds(env[|produced|], ltc.State().srcs, readsPerTrigger)
      modifies this`stop, this`sent
      modifies ltc.board`fifos, ltc.board`cur, ltc.board`tail, ltc.board`busy, ltc.board`fault
      modifies ltc.board`retired, ltc.board.sg, ltc.board.data
      ensures !seen ==> |after| == |produced| + 1 && AtHead(env, start, after, before, turns, first)
      ensures seen ==> Ended(env, start, after, before, first)
    {
      after := produced;
      seen := SeesFlag(env[|produced|].raised);
      if !seen {
        TurnsOne(env, numTriggers, |produced|, |produced| + 1);
        var message := Turn(env[|produced|], produced, start);
        Send(message, env, before, produced);
        after := produced + [message];
      }
    }

    /** The loop is left because no turn is left. */
    lemma LoopEnds(env: seq<Round>, start: seq<nat>, produced: seq<seq<u32>>, before: seq<seq<u32>>, turns: nat,
                   first: bool)
      requires AtHead(env, start, produced, before, turns, first) && turns == Turns(first, env, numTriggers, 0)
      requires |produced| == |env| || !Continues(|produced|, numTriggers)
      ensures Ended(env, start, produced, before, first)
    {
    }

    /** The loop of both kinds of run. */
    method Loop(env: seq<Round>, ghost start: seq<nat>) returns (produced: seq<seq<u32>>, ghost head: LoopHead)
      requires ltc.Wired() && RunAt(ltc.State(), readsPerTrigger, nChan, start, [])
      requires forall r :: 0 <= r < |env| ==> Feeds(env[r], ltc.State().srcs, readsPerTrigger)
      modifies this`stop, this`sent
      modifies ltc.board`fifos, ltc.board`cur, ltc.board`tail, ltc.board`busy, ltc.board`fault
      modifies ltc.board`retired, ltc.board.sg, ltc.board.data
      ensures Ended(env, start, produced, old(sent), old(stop))
      ensures head == LoopHead(old(ltc.board.readReg), old(ltc.board.writeReg), old(ltc.board.log))
    {
      head := LoopHead(ltc.board.readReg, ltc.board.writeReg, ltc.board.log);
      ghost var before, turns := sent, Turns(stop, env, numTriggers, 0);
      produced := [];
      var seen := false;
      while (|produced| < numTriggers || numTriggers < 0) && |produced| < |env|
        invariant AtHead(env, start, produced, before, turns, old(stop))
        decreases |env| - |produced|
      {
        seen, produced := TakeTurn(env, produced, start, before, turns, old(stop));
        if seen {
          break;
        }
      }
      if !seen {
        LoopEnds(env, start, produced, before, turns, old(stop));
      }
    }

    method Begin(flush: seq<nat>)
      requires Prepared() && Flushable(ltc.board.fifos, flush)
      modifies ltc.board`readReg, ltc.board`fifos, ltc.board`log
      ensures ltc.State().srcs == old(ltc.State().srcs)
      ensures ltc.board.readReg == WithReset(old(ltc.board.readReg))
      ensures ltc.board.log == old(ltc.board.log) + [ReadControl(ltc.board.readReg)]
      ensures RunAt(ltc.State(), readsPerTrigger, nChan, flush, [])
    {
      FlushedReady(ltc.State(), Sources(ltc.chipMask), ltc.nEvents, flush);
      ltc.Reset(flush);
    }

    /** A run that reads every event: from its reset, at which the hardware leaves the FIFOs at `flush`, to its end it
        has produced one message per turn, each the next shares of the FIFOs.  Its loop runs with reading enabled after
        a reset, and reading is disabled at the end. */
    method DaqThreadAll(env: seq<Round>, flush: seq<nat>) returns (produced: seq<seq<u32>>, ghost head: LoopHead)
      requires Prepared() && Flushable(ltc.board.fifos, flush)
      requires forall r :: 0 <= r < |env| ==> Feeds(env[r], ltc.State().srcs, readsPerTrigger)
      modifies this`stop, this`sent, ltc.board`readReg, ltc.board`log
      modifies ltc.board`fifos, ltc.board`cur, ltc.board`tail, ltc.board`busy, ltc.board`fault
      modifies ltc.board`retired, ltc.board.sg, ltc.board.data
      ensures Ended(env, flush, produced, old(sent), old(stop))
      ensures head.readReg == Reg(0x2) && head.writeReg == old(ltc.board.writeReg)
      ensures head.log == old(ltc.board.log) + [ReadControl(WithReset(old(ltc.board.readReg))), ReadControl(Reg(0x2))]
      ensures ltc.board.readReg == Reg(0x0) && ltc.board.log == head.log + [ReadControl(Reg(0x0))]
    {
      Begin(flush);
      ltc.EnableRead(true);
      produced, head := Loop(env, flush);
      ltc.EnableRead(false);
    }

    /** What a summing run does before its loop: reading off, reset, reading on, and the mode bit up. */
    method BeginSum(flush: seq<nat>)
      requires Prepared() && Flushable(ltc.board.fifos, flush) && ModeClear(ltc.board.writeReg)
      modifies ltc.board`readReg, ltc.board`writeReg, ltc.board`fifos, ltc.board`log
      ensures ltc.State().srcs == old(ltc.State().srcs)
      ensures RunAt(ltc.State(), readsPerTrigger, nChan, flush, [])
      ensures ltc.board.readReg == Reg(0x2) && ltc.board.writeReg == Registers.SetMode(old(ltc.board.writeReg), true)
      ensures ltc.board.log == old(ltc.board.log) + SumSetup(old(ltc.board.writeReg))
    {
      ModeRoundTrip(ltc.board.writeReg);
      ltc.SetMode(false);
      ltc.EnableRead(false);
      Begin(flush);
      ltc.EnableRead(true);
      ltc.SetMode(true);
    }

    /** A run of hardware sums: the same, but its loop runs with the mode bit up, which is down again at the end. */
    method DaqThreadSum(env: seq<Round>, flush: seq<nat>) returns (produced: seq<seq<u32>>, ghost head: LoopHead)
      requires Prepared() && Flushable(ltc.board.fifos, flush) && ModeClear(ltc.board.writeReg)
      requires forall r :: 0 <= r < |env| ==> Feeds(env[r], ltc.State().srcs, readsPerTrigger)
      modifies this`stop, this`sent, ltc.board`readReg, ltc.board`writeReg, ltc.board`log
      modifies ltc.board`fifos, ltc.board`cur, ltc.board`tail, ltc.board`busy, ltc.board`fault
      modifies ltc.board`retired, ltc.board.sg, ltc.board.data
      ensures Ended(env, flush, produced, old(sent), old(stop))
      ensures head.readReg == Reg(0x2) && head.writeReg == Registers.SetMode(old(ltc.board.writeReg), true)
      ensures !ModeClear(head.writeReg)
      ensures head.log == old(ltc.board.log) + SumSetup(old(ltc.board.writeReg))
      ensures ltc.board.readReg == Reg(0x0) && ltc.board.writeReg == old(ltc.board.writeReg)
      ensures ltc.board.log == head.log + [WriteControl(ltc.board.writeReg), ReadControl(Reg(0x0))]
    {
      ModeRoundTrip(ltc.board.writeReg);
      ModeFrame(ltc.board.writeReg, true);
      BeginSum(flush);
      produced, head := Loop(env, flush);
      ltc.SetMode(false);
      ltc.EnableRead(false);
    }

    /** Which of the two runs is decided by the number of samples to sum: the mode bit is up in the loop exactly when
        there are samples to sum, and reading is enabled. */
    method Run(env: seq<Round>, flush: seq<nat>) returns (produced: seq<seq<u32>>, ghost head: LoopHead)
      requires Prepared() && Flushable(ltc.board.fifos, flush) && ModeClear(ltc.board.writeReg)
      requires forall r :: 0 <= r < |env| ==> Feeds(env[r], ltc.State().srcs, readsPerTrigger)
      modifies this`stop, this`sent, ltc.board`readReg, ltc.board`writeReg, ltc.board`log
      modifies ltc.board`fifos, ltc.board`cur, ltc.board`tail, ltc.board`busy, ltc.board`fault
      modifies ltc.board`retired, ltc.board.sg, ltc.board.data
      ensures Ended(env, flush, produced, old(sent), old(stop))
      ensures Reading(head.readReg) && (ModeClear(head.writeReg) <==> nsum == 0)
      ensures head.writeReg == Registers.SetMode(old(ltc.board.writeReg), nsum != 0)
      ensures ltc.board.readReg == Reg(0x0) && ltc.board.writeReg == old(ltc.board.writeReg)
    {
      ReadWords(true);
      ModeRoundTrip(ltc.board.writeReg);
      if nsum == 0 {
        produced, head := DaqThreadAll(env, flush);
      } else {
        produced, head := DaqThreadSum(env, flush);
      }
    }
  }

  /** The register writes before the loop of a summing run that finds `word` in the write register. */
  function SumSetup(word: Reg): seq<Access> {
    [WriteControl(word), ReadControl(Reg(0x0)), ReadControl(Reg(0x1)), ReadControl(Reg(0x2)),
     WriteControl(Registers.SetMode(word, true))]
  }

  ghost function AcceptedRounds(env: seq<Round>, count: nat): set<nat> {
    set r: nat | r < count && r < |env| && env[r].accepted
  }

  /** The queue misses exactly the refused messages ... */
  lemma {:induction false} AcceptedCounts(msgs: seq<seq<u32>>, env: seq<Round>)
    requires |msgs| <= |env|
    ensures |Accepted(msgs, env)| == |AcceptedRounds(env, |msgs|)|
  {
    if msgs != [] {
      var last := |msgs| - 1;
      AcceptedCounts(msgs[..last], env);
      assert AcceptedRounds(env, |msgs|) == AcceptedRounds(env, last) + (if env[last].accepted then {last} else {});
    }
  }

  /** ... and none if there are none. */
  lemma {:induction false} AcceptedAll(msgs: seq<seq<u32>>, env: seq<Round>)
    requires |msgs| <= |env| && forall r :: 0 <= r < |msgs| ==> env[r].accepted
    ensures Accepted(msgs, env) == msgs
  {
    if msgs != [] {
      AcceptedAll(msgs[..|msgs| - 1], env);
    }
  }

  lemma AcceptedOne(before: seq<seq<u32>>, msgs: seq<seq<u32>>, m: seq<u32>, env: seq<Round>)
    requires |msgs| < |env|
    ensures before + Accepted(msgs + [m], env)
            == before + Accepted(msgs, env) + if env[|msgs|].accepted then [m] else []
  {
    assert (msgs + [m])[..|msgs|] == msgs;
  }

  lemma TurnsOne(env: seq<Round>, num: i32, i: nat, i': nat)
    requires i < |env| && Continues(i, num) && !env[i].raised && i' == i + 1
    ensures Turns(false, env, num, i) == Turns(false, env, num, i')
  {
  }

  /** A read takes the next message and leaves everything ready for another. */
  lemma ReadGivesMessage(st: Hw, n: u32, nChan: nat, message: seq<u32>, st': Hw)
    requires PreparedFor(st, n, nChan) && Holds(st.dma.fifos, Positions(st.dma.fifos), st.srcs, n)
    requires st' == st.(dma := ReadOnce(st.dma, st.srcs, n), retired := st'.retired)
    requires message == Message(st.dma.fifos, Positions(st.dma.fifos), st.srcs, n)
    ensures PreparedFor(st', n, nChan) && Grown(st.dma.fifos, st'.dma.fifos)
    ensures IsMessage(message, st'.dma.fifos, Positions(st.dma.fifos), st.srcs, n)
    ensures Positions(st'.dma.fifos) == After(Positions(st.dma.fifos), st.srcs, n)
  {
    ReadRefinesGather(st.dma, st.srcs, n);
    GatherStable(st.dma.fifos, st'.dma.fifos, Positions(st.dma.fifos), st.srcs, n, |st.srcs|);
  }

  lemma ProducedOne(msgs: seq<seq<u32>>, m: seq<u32>, fifos: seq<Fifo>, later: seq<Fifo>, start: seq<nat>,
                    srcs: SourceList, n: nat)
    requires Produced(msgs, fifos, start, srcs, n) && Grown(fifos, later)
    requires IsMessage(m, later, Later(start, srcs, n, |msgs|), srcs, n)
    ensures Produced(msgs + [m], later, start, srcs, n)
  {
    ProducedStable(msgs, fifos, later, start, srcs, n);
  }
}
