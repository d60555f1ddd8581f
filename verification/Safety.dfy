/** What every reachable state of the server satisfies, whatever requests arrive and however its control thread,
    its workers, the engine and the ADC interleave. */
module Safety {
  import opened Words
  import opened ChipMask
  import opened SgRing
  import opened Cdma
  import opened Reads
  import opened Registers
  import opened Hardware
  import opened Worker
  import opened Config
  import opened Requests
  import opened Server

  ghost predicate Inv(s: Server) {
    && ThreadsInv(s) && HardwareInv(s) && ReadoutInv(s)
    && SentAll(s) && ProducedInv(s)
    && CountAll(s) && FlagInv(s)
    && SwitchesInv(s) && WordInv(s) && RegistersInv(s)
    && SettingsInv(s) && StartedInv(s) && StopInv(s)
  }

  lemma InitInv(s: Server)
    requires Init(s)
    ensures Inv(s)
  {
    ThreadsInit(s);
  }

  lemma StepInv(s: Server, a: Action)
    requires Inv(s) && Can(s, a)
    ensures Inv(Apply(s, a))
  {
    ThreadsStep(s, a);
    HardwareStep(s, a);
    ReadoutStep(s, a);
    SentAllStep(s, a);
    ProducedStep(s, a);
    CountAllStep(s, a);
    FlagStep(s, a);
    SwitchesStep(s, a);
    WordStep(s, a);
    RegistersStep(s, a);
    SettingsStep(s, a);
    StartedStep(s, a);
    StopStep(s, a);
  }

  /** `acts` is a possible behaviour from `s`. */
  ghost predicate Runs(s: Server, acts: seq<Action>)
    decreases |acts|, 0
  {
    acts == [] || (Runs(s, acts[..|acts| - 1]) && Can(StateAfter(s, acts[..|acts| - 1]), acts[|acts| - 1]))
  }

  ghost function StateAfter(s: Server, acts: seq<Action>): Server
    requires Runs(s, acts)
    decreases |acts|, 1
  {
    if acts == [] then s else Apply(StateAfter(s, acts[..|acts| - 1]), acts[|acts| - 1])
  }

  /** Every reachable state satisfies the invariant. */
  lemma {:induction false} Reachable(s: Server, acts: seq<Action>)
    requires Init(s) && Runs(s, acts)
    ensures Inv(StateAfter(s, acts))
  {
    if acts == [] {
      InitInv(s);
    } else {
      Reachable(s, acts[..|acts| - 1]);
      StepInv(StateAfter(s, acts[..|acts| - 1]), acts[|acts| - 1]);
    }
  }

  /** `c` is the state after some behaviour from power-up. */
  ghost predicate Reached(c: Server) {
    exists s, acts :: Init(s) && Runs(s, acts) && StateAfter(s, acts) == c
  }

  lemma ReachedInv(c: Server)
    requires Reached(c)
    ensures Inv(c)
  {
    var s, acts :| Init(s) && Runs(s, acts) && StateAfter(s, acts) == c;
    Reachable(s, acts);
  }

  /** While a worker is live the data path is its own. */
  lemma ReachedData(c: Server)
    requires Reached(c) && Live(c)
    ensures DataInv(c.sh, Last(c))
  {
    ReachedInv(c);
  }

  lemma ReachedSetup(c: Server)
    requires Reached(c)
    ensures ThreadsInv(c) && HardwareInv(c) && ReadoutInv(c) && RegistersInv(c)
  {
    ReachedInv(c);
  }

  // ---------- who may touch what, and when ----------

  /** At most one worker is live; none is while the next run is set up or a stop is being answered. */
  lemma AtMostOneLive(c: Server, i: nat, j: nat)
    requires Reached(c) && i < |c.workers| && j < |c.workers|
    requires !c.workers[i].pc.Done? && !c.workers[j].pc.Done?
    ensures i == j
    ensures !Exclusive(c.pc) && c.pc != Answer(Stopped)
  {
    ReachedInv(c);
    OneLive(c, i, j);
  }

  lemma OneLive(c: Server, i: nat, j: nat)
    requires ThreadsInv(c) && i < |c.workers| && j < |c.workers|
    requires !c.workers[i].pc.Done? && !c.workers[j].pc.Done?
    ensures i == j && Live(c) && !c.joined
    ensures !Exclusive(c.pc) && c.pc != Answer(Stopped)
  {
  }

  /** No thread object is ever destroyed before it has been joined. */
  lemma NeverTerminates(c: Server)
    requires Reached(c)
    ensures !c.terminated
  {
    ReachedInv(c);
  }

  /** What a run relies on: its parameters, the driver's fields, the configuration registers (of the write register, the
      fields beside the mode bit) and the whole ring except its status words. */
  ghost predicate SameSetup(a: Shared, b: Shared) {
    && b.fields == a.fields
    && SameReadout(a.hw, b.hw) && b.hw.control == a.hw.control && SameChannels(a.hw.writeReg, b.hw.writeReg)
    && b.hw.srcs == a.hw.srcs && b.hw.nEvents == a.hw.nEvents
    && b.hw.nSGBuf == a.hw.nSGBuf && b.hw.lastTail == a.hw.lastTail
    && SameButStatus(a.hw.dma.sg, b.hw.dma.sg, |a.hw.srcs|)
  }

  predicate SameChannels(a: Reg, b: Reg) {
    var ok := ChanField(b) == ChanField(a) && RangeField(b) == RangeField(a);
    ok
  }

  lemma WorkKeepsRegisters(hw: Hw, pc: Pc, flush: seq<nat>)
    requires pc.AllReset? || pc.SumReset? ==> |flush| == |hw.dma.fifos|
    requires pc.Transferring? ==> 32 * hw.nSGBuf <= |hw.dma.sg|
    ensures SameReadout(hw, HwAfter(hw, pc, flush)) && HwAfter(hw, pc, flush).control == hw.control
    ensures SameChannels(hw.writeReg, HwAfter(hw, pc, flush).writeReg)
  {
    HwAfterFrame(hw, pc, flush);
    ModeFrame(hw.writeReg, true);
    ModeFrame(hw.writeReg, false);
  }

  lemma EngineKeepsSetup(sh: Shared, t: Thread)
    requires DataInv(sh, t)
    ensures SameSetup(sh, EngineMoves(sh))
  {
    if sh.hw.dma.busy {
      StepUntouched(sh.hw.dma, t.srcs, t.fields.nReads, StandsAt(t, |t.msgs|), sh.hw.retired);
    } else {
      IdleEngineRests(sh);
    }
  }

  lemma WorkKeepsSetup(sh: Shared, t: Thread, flush: seq<nat>)
    requires DataInv(sh, t) && CanStep(sh, t, flush)
    ensures SameSetup(sh, SharedOf(sh, t, flush))
  {
    WorkKeepsRegisters(sh.hw, t.pc, flush);
    if t.pc.Transferring? {
      RearmedSame(sh.hw.dma.sg, |sh.hw.srcs|, |sh.hw.srcs|);
    } else if Bookkeeping(t) {
      BookkeepingShared(sh, t, flush);
    }
  }

  lemma LiveKeepsSetup(c: Server, a: Action)
    requires ThreadsInv(c) && HardwareInv(c) && Can(c, a) && Live(c)
    ensures SameSetup(c.sh, Apply(c, a).sh)
  {
    match a
    case Work(id, flush) =>
      OnlyLastSteps(c, id, flush);
      WorkKeepsSetup(c.sh, c.workers[id], flush);
    case Engine => EngineKeepsSetup(c.sh, Last(c));
    case Proceed => ControlFrame(c);
    case _ =>
  }

  /** While a worker is live nobody changes what it was started with. */
  lemma RunKeepsSetup(c: Server, a: Action)
    requires Reached(c) && Can(c, a) && Live(c)
    ensures SameSetup(c.sh, Apply(c, a).sh)
    ensures c.sh.fields == Last(c).fields && c.sh.hw.srcs == Last(c).srcs
  {
    ReachedInv(c);
    LiveKeepsSetup(c, a);
  }

  /** Whatever changes the run parameters or the ring is the control thread, with no worker live and the engine idle. */
  lemma WritesAreExclusive(c: Server, a: Action)
    requires Reached(c) && Can(c, a) && !SameSetup(c.sh, Apply(c, a).sh)
    ensures a.Proceed? && !Live(c) && !c.sh.hw.dma.busy
  {
    ReachedInv(c);
    OnlyControlWrites(c, a);
  }

  /** With no worker live, nothing but the control thread's own steps changes the set-up. */
  lemma IdleKeepsSetup(c: Server, a: Action)
    requires Can(c, a) && !a.Proceed? && !a.Work? && !c.sh.hw.dma.busy
    ensures SameSetup(c.sh, Apply(c, a).sh)
  {
    if a.Engine? {
      IdleEngineRests(c.sh);
    }
  }

  lemma OnlyControlWrites(c: Server, a: Action)
    requires ThreadsInv(c) && HardwareInv(c) && Can(c, a)
    requires !SameSetup(c.sh, Apply(c, a).sh)
    ensures a.Proceed? && !Live(c) && !c.sh.hw.dma.busy
  {
    assert !Live(c) by {
      if Live(c) {
        LiveKeepsSetup(c, a);
      }
    }
    assert !a.Work? by {
      if a.Work? {
        OnlyLastSteps(c, a.id, a.flush);
      }
    }
    if !a.Proceed? {
      IdleKeepsSetup(c, a);
    }
  }

  // ---------- the engine ----------

  /** Whenever a worker is about to kick the engine, it rests at the head of the ring of that run, every descriptor
      on the ring is clear, and every source holds a whole share; and it has never refused a descriptor. */
  lemma KicksAreSafe(c: Server)
    requires Reached(c) && Live(c) && Last(c).pc.Start?
    ensures Ready(c.sh.hw.dma, c.sh.hw.srcs, c.sh.hw.nEvents)
    ensures BlockWaiting(c.sh.hw)
    ensures c.sh.hw.lastTail == TailOf(c.sh.hw.dma, c.sh.hw.srcs)
  {
    ReachedInv(c);
  }

  lemma EngineNeverFaults(c: Server)
    requires Reached(c)
    ensures !c.sh.hw.dma.fault
  {
    ReachedInv(c);
  }

  /** The message that a worker allocates and the copy into it have the same size, and the copy stays inside the
      data buffer, as the re-arming does inside the descriptor buffer. */
  lemma CopyFits(c: Server)
    requires Reached(c) && Live(c)
    ensures CopyWords(c.sh.hw) == Times(c.sh.fields.nReads, c.sh.fields.nChan + 2)
    ensures CopyWords(c.sh.hw) <= |c.sh.hw.dma.data| && 32 * c.sh.hw.nSGBuf <= |c.sh.hw.dma.sg|
  {
    ReachedData(c);
    LiveCopyFits(c.sh, Last(c));
  }

  lemma LiveCopyFits(sh: Shared, t: Thread)
    requires DataInv(sh, t)
    ensures sh.hw.nEvents == sh.fields.nReads && sh.hw.nSGBuf + 1 == sh.fields.nChan + 2
    ensures CopyWords(sh.hw) <= |sh.hw.dma.data| && 32 * sh.hw.nSGBuf <= |sh.hw.dma.sg|
  {
  }

  /** The worker waits for the interrupt and never looks at the engine.  While it waits, the interrupt is up exactly
      when the engine has retired every descriptor of the ring and rests: never early, and never missed. */
  lemma InterruptMeansDone(c: Server)
    requires Reached(c) && Live(c) && Last(c).pc.Transferring?
    ensures Interrupt(c.sh.hw) <==> c.sh.hw.retired == |c.sh.hw.srcs|
    ensures Interrupt(c.sh.hw) <==> !c.sh.hw.dma.busy
  {
    SwitchesStayOn(c);
    OperationalIrq(c.sh.hw.control);
    ReachedData(c);
    TransferInterrupts(c.sh, Last(c));
  }

  lemma TransferInterrupts(sh: Shared, t: Thread)
    requires DataInv(sh, t) && t.pc.Transferring? && IrqEnabled(sh.hw.control)
    ensures Interrupt(sh.hw) <==> sh.hw.retired == |sh.hw.srcs|
    ensures Interrupt(sh.hw) <==> !sh.hw.dma.busy
  {
    InterruptIsDone(sh.hw, t.fields.nReads, StandsAt(t, |t.msgs|));
  }

  /** The only things a live worker ever waits for are data and the engine, which is done a step per descriptor after
      its kick. */
  lemma WorkerNeverStuck(c: Server)
    requires Reached(c) && Live(c) && !Last(c).pc.Wait? && !c.sh.hw.dma.busy
    ensures CanStep(c.sh, Last(c), Positions(c.sh.hw.dma.fifos))
  {
    ReachedInv(c);
    if Last(c).pc.Transferring? {
      LiveCopyFits(c.sh, Last(c));
      InterruptMeansDone(c);
    }
    PositionsFlushable(c.sh.hw.dma);
  }

  lemma PositionsFlushable(d: Dma)
    ensures WellFormed(d) ==> Flushable(d.fifos, Positions(d.fifos))
  {
  }

  // ---------- runs ----------

  /** A run that has ended sent as many messages as the index of the first loop head that saw the flag, or as many
      as its trigger count if none did. */
  lemma RunLengths(c: Server, id: nat)
    requires Reached(c) && id < |c.workers| && c.workers[id].pc.Done?
    ensures var t := c.workers[id];
            |t.msgs| == if true in t.heads then FirstSet(t.heads) else t.fields.numTriggers
  {
    ReachedInv(c);
    RunLength(c.workers[id]);
  }

  /** The stop flag is neither lost nor used twice: each raising that is no longer visible has ended exactly one run. */
  lemma FlagIsConserved(c: Server)
    requires Reached(c)
    ensures c.sh.raised == StoppedRuns(c.workers) + (if c.sh.stop then 1 else 0)
  {
    ReachedInv(c);
  }

  /** Between a loop head that did not see the flag and the next one. */
  predicate MidTurn(t: Thread) {
    t.pc.Wait? || t.pc.Start? || t.pc.Transferring? || t.pc.Send?
  }

  /** Worker `id` will not send more than `n` messages in all: the flag is up, or it has already seen it or ended. */
  predicate Winding(s: Server, id: nat, n: nat) {
    && id < |s.workers|
    && |s.workers[id].msgs| + (if MidTurn(s.workers[id]) then 1 else 0) <= n
    && (s.sh.stop || s.workers[id].pc.Clear? || Leaving(s.workers[id]))
  }

  lemma WindingThread(sh: Shared, t: Thread, flush: seq<nat>, n: nat)
    requires CanStep(sh, t, flush) && (sh.stop || t.pc.Clear? || Leaving(t))
    requires |t.msgs| + (if MidTurn(t) then 1 else 0) <= n
    ensures var t' := ThreadOf(sh, t, flush);
            && |t'.msgs| + (if MidTurn(t') then 1 else 0) <= n
            && (SharedOf(sh, t, flush).stop || t'.pc.Clear? || Leaving(t'))
  {
  }

  lemma WindingStep(s: Server, a: Action, id: nat, n: nat)
    requires ThreadsInv(s) && Can(s, a) && Winding(s, id, n)
    ensures Winding(Apply(s, a), id, n)
  {
    if a.Work? {
      OnlyLastSteps(s, a.id, a.flush);
      if a.id == id {
        WindingThread(s.sh, s.workers[id], a.flush, n);
      }
    } else {
      WorkersAfter(s, a);
      if a.Proceed? {
        FlagOfControl(s);
      }
    }
  }

  /** A stop is prompt: from the moment the flag is up, whatever happens next, no worker of that moment sends more
      than the one message of the turn it is in. */
  lemma StopIsPrompt(c: Server, more: seq<Action>, id: nat)
    requires Reached(c) && c.sh.stop && id < |c.workers| && Runs(c, more)
    ensures id < |StateAfter(c, more).workers|
    ensures |StateAfter(c, more).workers[id].msgs| <= |c.workers[id].msgs| + if MidTurn(c.workers[id]) then 1 else 0
  {
    ReachedInv(c);
    WindingRun(c, more, id, |c.workers[id].msgs| + if MidTurn(c.workers[id]) then 1 else 0);
  }

  lemma {:induction false} WindingRun(c: Server, more: seq<Action>, id: nat, n: nat)
    requires Inv(c) && Winding(c, id, n) && Runs(c, more)
    ensures Inv(StateAfter(c, more)) && Winding(StateAfter(c, more), id, n)
  {
    if more != [] {
      var init, a := more[..|more| - 1], more[|more| - 1];
      WindingRun(c, init, id, n);
      WindingStep(StateAfter(c, init), a, id, n);
      StepInv(StateAfter(c, init), a);
    }
  }

  lemma ReachedStep(c: Server, a: Action)
    requires Reached(c) && Can(c, a)
    ensures Reached(Apply(c, a))
  {
    var s, acts :| Init(s) && Runs(s, acts) && StateAfter(s, acts) == c;
    assert (acts + [a])[..|acts|] == acts;
    assert Runs(s, acts + [a]);
  }

  /** When the reply to a stop is about to be sent no worker is live, and the stop was not in vain: it has ended the last
      run, or the flag is up for the next. */
  lemma StopIsHeard(c: Server)
    requires Reached(c) && c.pc == Answer(Stopped)
    ensures !Live(c) && (c.sh.stop || (c.workers != [] && StoppedRun(Last(c))))
  {
    ReachedInv(c);
  }

  /** A stop that found no run to end silences the next one: a run that is started with the flag up never sends
      anything, whatever happens next. */
  lemma StaleStopSilences(c: Server, more: seq<Action>)
    requires Reached(c) && c.pc.StartSpawn? && c.sh.stop && Runs(Apply(c, Proceed), more)
    ensures |c.workers| < |StateAfter(Apply(c, Proceed), more).workers|
    ensures StateAfter(Apply(c, Proceed), more).workers[|c.workers|].msgs == []
  {
    ReachedStep(c, Proceed);
    SpawnSilent(c);
    StopIsPrompt(Apply(c, Proceed), more, |c.workers|);
  }

  lemma SpawnSilent(c: Server)
    requires c.pc.StartSpawn?
    ensures Control(c).workers == c.workers + [Spawn(c.sh)] && Control(c).sh.stop == c.sh.stop
    ensures Spawn(c.sh).msgs == [] && !MidTurn(Spawn(c.sh))
  {
  }

  /** And only so: a run that has ended and was to send something has sent nothing iff its first loop head saw the
      flag. */
  lemma SilentRuns(c: Server, id: nat)
    requires Reached(c) && id < |c.workers| && c.workers[id].pc.Done? && c.workers[id].fields.numTriggers != 0
    ensures c.workers[id].msgs == [] <==> c.workers[id].heads != [] && c.workers[id].heads[0]
  {
    RunLengths(c, id);
  }

  /** How many steps a worker can still take, when its trigger count is not negative. */
  function StepsLeft(t: Thread): nat {
    var turns := if t.iTrig < t.fields.numTriggers then t.fields.numTriggers - t.iTrig else 0;
    match t.pc
    case Done => 0
    case LeaveRead => 1
    case LeaveMode => 2
    case Clear => 3
    case Send(_) => 5 * turns
    case Transferring => 5 * turns + 1
    case Start => 5 * turns + 2
    case Wait => 5 * turns + 3
    case Head => 5 * turns + 4
    case AllEnable => 5 * turns + 5
    case AllReset => 5 * turns + 6
    case SumMode1 => 5 * turns + 5
    case SumEnable => 5 * turns + 6
    case SumReset => 5 * turns + 7
    case SumDisable => 5 * turns + 8
    case SumMode0 => 5 * turns + 9
    case Entry => 5 * turns + 10
  }

  lemma EachStepCounts(sh: Shared, t: Thread, flush: seq<nat>)
    requires CanStep(sh, t, flush) && CountInv(t) && sh.fields == t.fields && t.fields.numTriggers >= 0
    ensures StepsLeft(ThreadOf(sh, t, flush)) < StepsLeft(t)
  {
  }

  /** How often worker `id` steps. */
  function StepsOf(more: seq<Action>, id: nat): nat {
    if more == [] then 0
    else StepsOf(more[..|more| - 1], id) + if more[|more| - 1].Work? && more[|more| - 1].id == id then 1 else 0
  }

  /** What is left of a worker's steps, and what it was to do. */
  predicate Within(s: Server, id: nat, taken: nat, n: nat) {
    id < |s.workers| && s.workers[id].fields.numTriggers >= 0 && taken + StepsLeft(s.workers[id]) <= n
  }

  lemma WithinStep(s: Server, a: Action, id: nat, taken: nat, n: nat)
    requires ThreadsInv(s) && HardwareInv(s) && CountAll(s) && Can(s, a) && Within(s, id, taken, n)
    ensures Within(Apply(s, a), id, taken + (if a.Work? && a.id == id then 1 else 0), n)
  {
    if a.Work? {
      OnlyLastSteps(s, a.id, a.flush);
      FieldsOwned(s);
      if a.id == id {
        WithinWork(s.sh, s.workers[id], a.flush, taken, n);
      }
    } else {
      WorkersAfter(s, a);
    }
  }

  lemma WithinWork(sh: Shared, t: Thread, flush: seq<nat>, taken: nat, n: nat)
    requires CanStep(sh, t, flush) && CountInv(t) && sh.fields == t.fields && t.fields.numTriggers >= 0
    requires taken + StepsLeft(t) <= n
    ensures ThreadOf(sh, t, flush).fields == t.fields && taken + 1 + StepsLeft(ThreadOf(sh, t, flush)) <= n
  {
    ThreadKeeps(sh, t, flush);
    EachStepCounts(sh, t, flush);
  }

  lemma {:induction false} WithinRun(c: Server, more: seq<Action>, id: nat, n: nat)
    requires Inv(c) && Within(c, id, 0, n) && Runs(c, more)
    ensures Inv(StateAfter(c, more)) && Within(StateAfter(c, more), id, StepsOf(more, id), n)
  {
    if more != [] {
      var init, a := more[..|more| - 1], more[|more| - 1];
      WithinRun(c, init, id, n);
      WithinStep(StateAfter(c, init), a, id, StepsOf(init, id), n);
      StepInv(StateAfter(c, init), a);
    }
  }

  lemma BoundedFrom(c: Server, more: seq<Action>, id: nat, n: nat)
    requires Reached(c) && Within(c, id, 0, n) && Runs(c, more)
    ensures id < |StateAfter(c, more).workers|
    ensures StepsOf(more, id) + StepsLeft(StateAfter(c, more).workers[id]) <= n
    ensures StepsOf(more, id) == n ==> StateAfter(c, more).workers[id].pc.Done?
  {
    ReachedInv(c);
    WithinRun(c, more, id, n);
    NoneLeft(StateAfter(c, more).workers[id]);
  }

  lemma NoneLeft(t: Thread)
    requires CountInv(t) && t.fields.numTriggers >= 0
    ensures StepsLeft(t) == 0 ==> t.pc.Done?
  {
  }

  lemma SpawnWithin(c: Server)
    requires c.pc.StartSpawn? && c.sh.fields.numTriggers == c.settings.numTriggers >= 0
    ensures Within(Control(c), |c.workers|, 0, 5 * c.settings.numTriggers + 10)
  {
    ControlWorkers(c);
  }

  /** Every run with a non-negative trigger count ends: in no behaviour does its worker take more than 5 steps per
      trigger and 10 more, and it is done when it has taken them all. */
  lemma RunsAreBounded(c: Server, more: seq<Action>)
    requires Reached(c) && c.pc.StartSpawn? && c.settings.numTriggers >= 0 && Runs(Apply(c, Proceed), more)
    ensures StepsOf(more, |c.workers|) <= 5 * c.settings.numTriggers + 10
    ensures |c.workers| < |StateAfter(Apply(c, Proceed), more).workers|
    ensures StepsOf(more, |c.workers|) == 5 * c.settings.numTriggers + 10
            ==> StateAfter(Apply(c, Proceed), more).workers[|c.workers|].pc.Done?
  {
    ReachedStep(c, Proceed);
    RunTakesSnapshot(c);
    SpawnFields(c);
    SpawnWithin(c);
    BoundedFrom(Apply(c, Proceed), more, |c.workers|, 5 * c.settings.numTriggers + 10);
  }

  lemma SpawnFields(c: Server)
    requires c.pc.StartSpawn?
    ensures Last(Control(c)).fields == c.sh.fields
  {
    ControlWorkers(c);
  }

  /** Slot by slot, what any worker ever sent is an uninterrupted stretch of the stream of one source, from where its
      run began. */
  lemma RunSendsStreams(c: Server, id: nat, k: nat)
    requires Reached(c) && id < |c.workers| && k < |c.workers[id].srcs|
    ensures var t := c.workers[id]; var i, n := t.srcs[k], t.fields.nReads;
            && i < |c.sh.hw.dma.fifos| && i < |t.start|
            && t.start[i] + Times(Share(n, i), |t.msgs|) <= |c.sh.hw.dma.fifos[i].stream|
            && Cut(t.msgs, |t.msgs|, Times(n, k), Share(n, i))
               == c.sh.hw.dma.fifos[i].stream[t.start[i]..t.start[i] + Times(Share(n, i), |t.msgs|)]
  {
    ReachedSent(c, id);
    SentStreams(c.sh, c.workers[id], k);
  }

  lemma ReachedSent(c: Server, id: nat)
    requires Reached(c) && id < |c.workers|
    ensures SentInv(c.sh, c.workers[id])
  {
    ReachedInv(c);
  }

  lemma SentStreams(sh: Shared, t: Thread, k: nat)
    requires SentInv(sh, t) && k < |t.srcs|
    ensures var i, n := t.srcs[k], t.fields.nReads;
            && i < |sh.hw.dma.fifos| && i < |t.start|
            && t.start[i] + Times(Share(n, i), |t.msgs|) <= |sh.hw.dma.fifos[i].stream|
            && Cut(t.msgs, |t.msgs|, Times(n, k), Share(n, i))
               == sh.hw.dma.fifos[i].stream[t.start[i]..t.start[i] + Times(Share(n, i), |t.msgs|)]
  {
    AscendingBound(t.srcs, k);
    CutIsStream(t.msgs, sh.hw.dma.fifos, t.start, t.srcs, t.fields.nReads, k);
  }

  // ---------- settings ----------

  /** The settings are the defaults overridden by everything received since power-up, whatever was left in `num_sum`. */
  lemma SettingsAreMerged(c: Server)
    requires Reached(c)
    ensures c.settings == MergeAll(Defaults(c.leftover), c.documents)
  {
    ReachedInv(c);
  }

  /** A run takes its parameters from the settings in force when it is spawned, and all the registers hold them. */
  lemma RunTakesSnapshot(c: Server)
    requires Reached(c) && c.pc.StartSpawn?
    ensures var t := Last(Apply(c, Proceed));
            && t.fields
               == Fields(c.settings.nReads, c.settings.numTriggers, c.settings.numSum, Rank(c.settings.chipMask, 8))
            && t.srcs == Sources(c.settings.chipMask) && !t.pc.Done?
    ensures Readout(c.sh.hw, c.settings)
    ensures c.sh.hw.writeReg == WriteWord(c.settings.chanMask, c.settings.range, false)
  {
    ReachedSetup(c);
    SpawnTakesSnapshot(c);
  }

  lemma SpawnTakesSnapshot(c: Server)
    requires ThreadsInv(c) && HardwareInv(c) && ReadoutInv(c) && RegistersInv(c) && c.pc.StartSpawn?
    ensures Control(c).workers == c.workers + [Spawn(c.sh)]
    ensures c.sh.fields
            == Fields(c.settings.nReads, c.settings.numTriggers, c.settings.numSum, Rank(c.settings.chipMask, 8))
    ensures c.sh.hw.srcs == Sources(c.settings.chipMask) && Readout(c.sh.hw, c.settings)
    ensures c.sh.hw.writeReg == WriteWord(c.settings.chanMask, c.settings.range, false)
  {
    SignedRoundTrip(c.settings.numTriggers);
  }

  /** Every run that was ever started uses, to its end, the settings that follow from the documents received before its
      start: trigger count, read length, sum count and sources; and it is a summing run iff there is a sum count. */
  lemma RunsUseTheirDocuments(c: Server, id: nat)
    requires Reached(c) && id < |c.workers|
    ensures id < |c.started|
    ensures var s := MergeAll(Defaults(c.leftover), c.started[id]);
            && c.workers[id].fields == Fields(s.nReads, s.numTriggers, s.numSum, Rank(s.chipMask, 8))
            && c.workers[id].srcs == Sources(s.chipMask)
            && (c.workers[id].pc.Entry? || (c.workers[id].sum <==> s.numSum != 0))
  {
    ReachedInv(c);
    assert RunsWith(c.workers[id], c.leftover, c.started[id]);
  }

  predicate InLoopOf(t: Thread) {
    t.pc.Head? || t.pc.Clear? || MidTurn(t)
  }

  /** As long as a run lasts, the registers hold those settings too; and in its loop reading is enabled, and the mode bit
      is up exactly when those settings have a sum count. */
  lemma RegistersInRun(c: Server)
    requires Reached(c) && Live(c)
    ensures |c.started| > 0
    ensures var s := MergeAll(Defaults(c.leftover), c.started[|c.started| - 1]);
            && Readout(c.sh.hw, s)
            && ChanField(c.sh.hw.writeReg) == s.chanMask.bits as bv32
            && RangeField(c.sh.hw.writeReg) == s.range.bits as bv32 & 0x7
    ensures ModeClear(c.sh.hw.writeReg) <==> !InSumLoop(Last(c))
    ensures InLoopOf(Last(c)) ==> c.sh.hw.readReg == Reg(0x2) && Reading(c.sh.hw.readReg)
    ensures InLoopOf(Last(c)) ==>
              (ModeClear(c.sh.hw.writeReg)
               <==> MergeAll(Defaults(c.leftover), c.started[|c.started| - 1]).numSum == 0)
  {
    ReachedInv(c);
    LiveRegisters(c.sh, Last(c), c.leftover, c.started[|c.started| - 1]);
  }

  lemma LiveRegisters(sh: Shared, t: Thread, leftover: u32, docs: seq<Document>)
    requires RegisterInv(sh, t) && RunsWith(t, leftover, docs)
    ensures var s := MergeAll(Defaults(leftover), docs);
            && ChanField(sh.hw.writeReg) == s.chanMask.bits as bv32
            && RangeField(sh.hw.writeReg) == s.range.bits as bv32 & 0x7
    ensures ModeClear(sh.hw.writeReg) <==> !InSumLoop(t)
    ensures InLoopOf(t) ==> sh.hw.readReg == Reg(0x2) && Reading(sh.hw.readReg)
    ensures InLoopOf(t) ==> (InSumLoop(t) <==> MergeAll(Defaults(leftover), docs).numSum != 0)
  {
    ReadWords(true);
    var s := MergeAll(Defaults(leftover), docs);
    WriteWordFields(s.chanMask, s.range, false);
    ModeFrame(t.base, true);
  }

  // ---------- registers ----------

  /** Once configured, and with no worker live, the mode bit is clear and the write register holds the channel mask
      and range last configured; after any run, stopped or not, reading is disabled. */
  lemma RegistersAtRest(c: Server)
    requires Reached(c) && Set(c) && !Live(c)
    ensures ModeClear(c.sh.hw.writeReg)
    ensures ChanField(c.sh.hw.writeReg) == c.chan.bits as bv32
    ensures RangeField(c.sh.hw.writeReg) == c.range.bits as bv32 & 0x7
    ensures c.workers != [] ==> c.sh.hw.readReg == Reg(0)
  {
    ReachedInv(c);
  }

  /** Scatter-gather, keyhole reads and interrupts stay on, and the coalescing field holds the size of the ring. */
  lemma SwitchesStayOn(c: Server)
    requires Reached(c)
    ensures Operational(c.sh.hw.control)
    ensures Set(c) ==> Coalesced(c.sh.hw)
  {
    ReachedInv(c);
  }
}
