/** The server: the control thread, every worker thread it ever spawned, the engine and the ADC, interleaved. */
module Server {
  import opened Words
  import opened ChipMask
  import opened SgRing
  import opened Cdma
  import opened Reads
  import opened Registers
  import opened Hardware
  import opened Worker
  import opened Config
  import opened Requests

  /** Where the control thread is: one constructor per access to a socket, to the worker or to shared state. */
  datatype CtrlPc =
    | Idle
    | StartJoin | StartJoin2 | StartFields | StartHardware | StartRegisters | StartJoin3 | StartSpawn
    | StopRaise | StopJoin
    | ConfigReady | ConfigRecv
    | TempReady | TempRecv | TempCheck(c: char) | TempMeasure
    | Answer(reply: Reply)

  /** `joined` says that the thread object is absent or no longer joinable; `terminated` that a joinable one was
      destroyed.  The rest is history: the configurations received, those that had been received when each worker
      was started, what was left in `num_sum_` at power-up, the messages sent so far by all the workers, and the word
      that the last configuration wrote to the write register, with its fields. */
  datatype Server = Server(
    pc: CtrlPc, settings: Settings, sh: Shared,
    workers: seq<Thread>, joined: bool, terminated: bool,
    documents: seq<Document>, started: seq<seq<Document>>, leftover: u32,
    produced: seq<seq<u32>>, word: Reg, chan: Octet, range: Octet)

  // ---------- the control thread and its socket ----------

  predicate Receives(pc: CtrlPc) {
    pc.Idle? || pc.ConfigRecv? || pc.TempRecv?
  }

  predicate ValidChannel(c: char) {
    c == '1' || c == '2'
  }

  /** The reply that the control thread is about to send, if any. */
  function Sends(pc: CtrlPc): Option<Reply> {
    match pc
    case ConfigReady => Some(ReadyMsg)
    case TempReady => Some(ReadyMsg)
    case TempCheck(c) => if ValidChannel(c) then None else Some(TempError)
    case Answer(r) => Some(r)
    case _ => None
  }

  function AfterSend(pc: CtrlPc): CtrlPc {
    match pc
    case ConfigReady => ConfigRecv
    case TempReady => TempRecv
    case TempCheck(_) => TempMeasure   // after the error reply the handler carries on
    case _ => Idle
  }

  /** The handler that a request leads to. */
  function Dispatch(pc: CtrlPc, r: Request): CtrlPc {
    if pc.ConfigRecv? then Answer(Configured)
    else if pc.TempRecv? then TempCheck(if r.Channel? then r.c else ' ')
    else match r
      case CmdStart => StartJoin
      case CmdStop => StopRaise
      case CmdConfig => ConfigReady
      case CmdTemp => TempReady
      case CmdBias => Answer(ReadyMsg)
      case _ => Answer(UnknownCmd)
  }

  // ---------- steps ----------

  datatype Action =
    | Recv(request: Request)             // the control thread takes a request off its socket
    | Respond                            // the control thread sends a reply
    | Proceed                            // the control thread does anything else
    | Work(id: nat, flush: seq<nat>)     // a worker steps
    | Engine                             // the engine steps
    | Adc(fifo: nat, words: seq<u32>)    // the ADC pushes words into a FIFO

  predicate WorkerEnded(s: Server) {
    s.workers == [] || s.workers[|s.workers| - 1].pc.Done?
  }

  predicate Joining(pc: CtrlPc) {
    pc.StartJoin? || pc.StartJoin2? || pc.StartJoin3? || pc.StopJoin?
  }

  ghost predicate Can(s: Server, a: Action) {
    match a
    case Recv(r) =>
      && Receives(s.pc)
      && (s.pc.ConfigRecv? ==> r.Data? && Roomy(s.sh.hw.dma, Merge(s.settings, r.document).nReads))
    case Respond => Sends(s.pc).Some?
    case Proceed =>
      && !Receives(s.pc) && Sends(s.pc).None?
      && (Joining(s.pc) ==> s.joined || WorkerEnded(s))
    case Work(id, flush) => id < |s.workers| && CanStep(s.sh, s.workers[id], flush)
    case Engine => true
    case Adc(i, _) => i < |s.sh.hw.dma.fifos|
  }

  /** `DAQ_Thread::configure`, the fields. */
  function FieldsFrom(settings: Settings): Fields {
    Fields(settings.nReads, ToInt32(Wrap(settings.numTriggers)), settings.numSum, Rank(settings.chipMask, 8))
  }

  function SetFlag(sh: Shared): Shared {
    sh.(stop := true, raised := if sh.stop then sh.raised else sh.raised + 1)
  }

  /** What the control thread's next step, other than a socket access, does to the shared state. */
  function ControlShared(s: Server): Shared {
    var c := s.settings;
    if s.pc.StartFields? then s.sh.(fields := FieldsFrom(c))
    else if s.pc.StartHardware? then
      s.sh.(hw := Configure(s.sh.hw, c.chipMask, c.chanMask, c.range, c.nReads))
    else if s.pc.StartRegisters? then
      s.sh.(hw := s.sh.hw.(depth := s.sh.fields.nReads, period := c.readPeriod, numSum := c.numSum))
    else if s.pc.StopRaise? then SetFlag(s.sh)
    else s.sh
  }

  function NextPc(pc: CtrlPc): CtrlPc {
    match pc
    case StartJoin => StartJoin2
    case StartJoin2 => StartFields
    case StartFields => StartHardware
    case StartHardware => StartRegisters
    case StartRegisters => StartJoin3
    case StartJoin3 => StartSpawn
    case StartSpawn => Answer(Running)
    case StopRaise => StopJoin
    case StopJoin => Answer(Stopped)
    case TempCheck(_) => TempMeasure
    case TempMeasure => Answer(Voltage)
    case _ => pc
  }

  function Control(s: Server): Server {
    s.(pc := NextPc(s.pc), sh := ControlShared(s),
       workers := if s.pc.StartSpawn? then s.workers + [Spawn(s.sh)] else s.workers,
       started := if s.pc.StartSpawn? then s.started + [s.documents] else s.started,
       joined := (s.joined || Joining(s.pc)) && !s.pc.StartSpawn?,
       terminated := s.terminated || (s.pc.StartSpawn? && !s.joined),
       word := if s.pc.StartHardware? then WriteWord(s.settings.chanMask, s.settings.range, false) else s.word,
       chan := if s.pc.StartHardware? then s.settings.chanMask else s.chan,
       range := if s.pc.StartHardware? then s.settings.range else s.range)
  }

  function Apply(s: Server, a: Action): Server
    requires Can(s, a)
  {
    match a
    case Recv(r) =>
      s.(pc := Dispatch(s.pc, r),
         settings := if s.pc.ConfigRecv? && r.Data? then Merge(s.settings, r.document) else s.settings,
         documents := if s.pc.ConfigRecv? && r.Data? then s.documents + [r.document] else s.documents)
    case Respond => s.(pc := AfterSend(s.pc))
    case Proceed => Control(s)
    case Work(id, flush) =>
      var t := s.workers[id];
      s.(sh := SharedOf(s.sh, t, flush), workers := s.workers[id := ThreadOf(s.sh, t, flush)],
         produced := if t.pc.Send? then s.produced + [t.pc.message] else s.produced)
    case Engine => s.(sh := EngineMoves(s.sh))
    case Adc(i, words) => s.(sh := AdcFills(s.sh, i, words))
  }

  /** Power-up: no worker, an idle engine, the control register as the constructor leaves it; FIFOs, buffers and
      the remaining registers hold anything. */
  ghost predicate Init(s: Server) {
    && s.pc == Idle && s.settings == Defaults(s.leftover) && s.started == []
    && s.workers == [] && s.joined && !s.terminated && s.documents == [] && s.produced == []
    && !s.sh.stop && s.sh.raised == s.sh.cleared == 0
    && WellFormed(s.sh.hw.dma) && !s.sh.hw.dma.busy && !s.sh.hw.dma.fault
    && Roomy(s.sh.hw.dma, s.settings.nReads)
    && Operational(s.sh.hw.control)
  }

  // ---------- invariants ----------

  predicate Live(s: Server) {
    s.workers != [] && !s.workers[|s.workers| - 1].pc.Done?
  }

  function Last(s: Server): Thread
    requires s.workers != []
  {
    s.workers[|s.workers| - 1]
  }

  /** `cmd_start` has waited for the previous run and not yet started the next. */
  predicate Exclusive(pc: CtrlPc) {
    pc.StartJoin2? || pc.StartFields? || pc.StartHardware? || pc.StartRegisters? || pc.StartJoin3? || pc.StartSpawn?
  }

  /** At most one worker is live; a joined one is not, nor is any while `cmd_start` sets up the next run or
      `cmd_stop` has its reply ready. */
  ghost predicate ThreadsInv(s: Server) {
    && (forall id :: 0 <= id < |s.workers| - 1 ==> s.workers[id].pc.Done?)
    && (s.joined ==> !Live(s))
    && (Exclusive(s.pc) || s.pc == Answer(Stopped) ==> s.joined)
    && !s.terminated
  }

  lemma ThreadsInit(s: Server)
    requires Init(s)
    ensures ThreadsInv(s)
  {
  }

  /** Only the last worker can step. */
  lemma OnlyLastSteps(s: Server, id: nat, flush: seq<nat>)
    requires ThreadsInv(s) && Can(s, Work(id, flush))
    ensures id == |s.workers| - 1 && Live(s) && !s.joined
  {
  }

  lemma ThreadsWork(s: Server, id: nat, flush: seq<nat>)
    requires ThreadsInv(s) && Can(s, Work(id, flush))
    ensures ThreadsInv(Apply(s, Work(id, flush)))
  {
    OnlyLastSteps(s, id, flush);
  }

  lemma ControlThreads(s: Server)
    ensures Control(s).workers == if s.pc.StartSpawn? then s.workers + [Spawn(s.sh)] else s.workers
    ensures Control(s).joined == ((s.joined || Joining(s.pc)) && !s.pc.StartSpawn?)
    ensures Control(s).terminated == (s.terminated || (s.pc.StartSpawn? && !s.joined))
    ensures Control(s).pc == NextPc(s.pc)
  {
  }

  lemma ThreadsProceed(s: Server)
    requires ThreadsInv(s) && Can(s, Proceed)
    ensures ThreadsInv(Control(s))
  {
    ControlThreads(s);
  }

  lemma ThreadsSocket(s: Server, a: Action)
    requires ThreadsInv(s) && Can(s, a) && (a.Recv? || a.Respond?)
    ensures ThreadsInv(Apply(s, a))
  {
  }

  lemma ThreadsStep(s: Server, a: Action)
    requires ThreadsInv(s) && Can(s, a)
    ensures ThreadsInv(Apply(s, a))
  {
    match a
    case Work(id, flush) => ThreadsWork(s, id, flush);
    case Engine =>
    case Adc(_, _) =>
    case Proceed => ThreadsProceed(s);
    case _ => ThreadsSocket(s, a);
  }

  /** The hardware has been configured since power-up. */
  predicate Set(s: Server) {
    s.workers != [] || HardwareSet(s.pc)
  }

  predicate HardwareSet(pc: CtrlPc) {
    pc.StartRegisters? || pc.StartJoin3? || pc.StartSpawn?
  }

  /** While a worker is live the data path is its own; otherwise the engine rests, ready for the ring of the last
      configuration.  `cmd_start` copies the settings to the fields and then to the hardware. */
  ghost predicate HardwareInv(s: Server) {
    var hw := s.sh.hw;
    && WellFormed(hw.dma) && Roomy(hw.dma, s.settings.nReads)
    && (Live(s) ==> DataInv(s.sh, Last(s)))
    && (!Live(s) ==> !hw.dma.busy && !hw.dma.fault)
    && (Set(s) && !Live(s) ==> Ready(hw.dma, hw.srcs, hw.nEvents) && Driven(hw))
    && (HardwareSet(s.pc) || s.pc.StartHardware? ==> s.sh.fields == FieldsFrom(s.settings))
    && (HardwareSet(s.pc) ==> hw.srcs == Sources(s.settings.chipMask) && hw.nEvents == s.settings.nReads)
  }

  lemma RoomyFrame(d: Dma, e: Dma, n: nat)
    requires Roomy(d, n) && SameBoard(d, e)
    ensures Roomy(e, n)
  {
  }

  lemma HardwareWork(s: Server, id: nat, flush: seq<nat>)
    requires ThreadsInv(s) && HardwareInv(s) && Can(s, Work(id, flush))
    ensures HardwareInv(Apply(s, Work(id, flush)))
    ensures Grown(s.sh.hw.dma.fifos, Apply(s, Work(id, flush)).sh.hw.dma.fifos)
  {
    OnlyLastSteps(s, id, flush);
    var t := s.workers[id];
    DataStep(s.sh, t, flush);
    BoardStep(s.sh, t, flush);
    RoomyFrame(s.sh.hw.dma, SharedOf(s.sh, t, flush).hw.dma, s.settings.nReads);
    DataEnds(SharedOf(s.sh, t, flush), ThreadOf(s.sh, t, flush));
  }

  lemma DataEnds(sh: Shared, t: Thread)
    requires DataInv(sh, t)
    ensures WellFormed(sh.hw.dma)
    ensures t.pc.Done? ==> Ready(sh.hw.dma, sh.hw.srcs, sh.hw.nEvents) && Driven(sh.hw)
  {
  }

  lemma HardwareEngine(s: Server)
    requires ThreadsInv(s) && HardwareInv(s)
    ensures HardwareInv(Apply(s, Engine))
    ensures Grown(s.sh.hw.dma.fifos, Apply(s, Engine).sh.hw.dma.fifos)
  {
    if Live(s) {
      EngineKeepsData(s.sh, Last(s));
      BoardEngine(s.sh);
      RoomyFrame(s.sh.hw.dma, EngineMoves(s.sh).hw.dma, s.settings.nReads);
      DataEnds(EngineMoves(s.sh), Last(s));
    } else {
      IdleEngineRests(s.sh);
    }
  }

  lemma HardwareAdc(s: Server, i: nat, words: seq<u32>)
    requires ThreadsInv(s) && HardwareInv(s) && i < 9
    ensures HardwareInv(Apply(s, Adc(i, words)))
    ensures Grown(s.sh.hw.dma.fifos, Apply(s, Adc(i, words)).sh.hw.dma.fifos)
  {
    if Live(s) {
      FillKeepsData(s.sh, Last(s), i, words);
    } else if Set(s) {
      FillKeepsReady(s.sh.hw.dma, s.sh.hw.srcs, s.sh.hw.nEvents, i, words);
    }
    RoomyFrame(s.sh.hw.dma, AdcFills(s.sh, i, words).hw.dma, s.settings.nReads);
  }

  lemma HardwareConfigure(s: Server)
    requires ThreadsInv(s) && HardwareInv(s) && s.pc.StartHardware?
    ensures HardwareInv(Control(s))
  {
    var c, hw := s.settings, s.sh.hw;
    ConfigureFrame(hw, c.chipMask, c.chanMask, c.range, c.nReads);
    ConfigureReady(hw, c.chipMask, c.chanMask, c.range, c.nReads);
    HardwareConfigured(s, Configure(hw, c.chipMask, c.chanMask, c.range, c.nReads));
  }

  lemma HardwareConfigured(s: Server, hw: Hw)
    requires ThreadsInv(s) && HardwareInv(s) && s.pc.StartHardware?
    requires SameBoard(s.sh.hw.dma, hw.dma) && Ready(hw.dma, hw.srcs, hw.nEvents) && Driven(hw)
    requires hw.srcs == Sources(s.settings.chipMask) && hw.nEvents == s.settings.nReads
    ensures forall chan, range ::
              HardwareInv(s.(sh := s.sh.(hw := hw), chan := chan, range := range, pc := StartRegisters))
  {
    RoomyFrame(s.sh.hw.dma, hw.dma, s.settings.nReads);
  }

  lemma HardwareSpawn(s: Server)
    requires ThreadsInv(s) && HardwareInv(s) && s.pc.StartSpawn?
    ensures HardwareInv(Control(s))
  {
    assert DataInv(s.sh, Spawn(s.sh));
  }

  /** The two agree on everything that the worker relies on. */
  predicate SameDrive(a: Hw, b: Hw) {
    && b.dma == a.dma && b.nEvents == a.nEvents && b.srcs == a.srcs
    && b.nSGBuf == a.nSGBuf && b.lastTail == a.lastTail && b.retired == a.retired && b.control == a.control
  }

  lemma HardwareSame(s: Server, s': Server)
    requires HardwareInv(s) && ThreadsInv(s)
    requires s'.workers == s.workers && Roomy(s.sh.hw.dma, s'.settings.nReads)
    requires SameDrive(s.sh.hw, s'.sh.hw)
    requires s'.sh.fields == s.sh.fields || !Live(s)
    requires HardwareSet(s'.pc) || s'.pc.StartHardware? ==> s'.sh.fields == FieldsFrom(s'.settings)
    requires HardwareSet(s'.pc) ==> HardwareSet(s.pc) && s'.settings == s.settings
    ensures HardwareInv(s')
  {
    if Live(s) {
      DataFrame(s.sh, s'.sh, Last(s));
    }
  }

  lemma DataFrame(sh: Shared, sh': Shared, t: Thread)
    requires DataInv(sh, t) && sh'.fields == sh.fields && SameDrive(sh.hw, sh'.hw)
    ensures DataInv(sh', t)
  {
  }

  /** The control thread's other steps leave the engine, the FIFOs and what the worker relies on alone. */
  lemma ControlFrame(s: Server)
    requires !s.pc.StartHardware? && !s.pc.StartSpawn?
    ensures Control(s).workers == s.workers && Control(s).settings == s.settings
    ensures SameDrive(s.sh.hw, Control(s).sh.hw)
    ensures Control(s).sh.fields == if s.pc.StartFields? then FieldsFrom(s.settings) else s.sh.fields
  {
  }

  lemma ControlOrder(s: Server)
    requires !s.pc.StartHardware?
    ensures HardwareSet(Control(s).pc) ==> HardwareSet(s.pc)
    ensures Control(s).pc.StartHardware? ==> s.pc.StartFields? || s.pc.StartHardware?
  {
  }

  lemma HardwareControl(s: Server)
    requires ThreadsInv(s) && HardwareInv(s) && Can(s, Proceed)
    ensures HardwareInv(Control(s))
  {
    if s.pc.StartHardware? {
      HardwareConfigure(s);
    } else if s.pc.StartSpawn? {
      HardwareSpawn(s);
    } else {
      ControlFrame(s);
      ControlOrder(s);
      HardwareSame(s, Control(s));
    }
  }

  lemma HardwareSocket(s: Server, a: Action)
    requires ThreadsInv(s) && HardwareInv(s) && Can(s, a) && (a.Recv? || a.Respond?)
    ensures HardwareInv(Apply(s, a))
  {
    HardwareSame(s, Apply(s, a));
  }

  /** No step takes anything back that a FIFO has held. */
  lemma FifosGrow(s: Server, a: Action)
    requires ThreadsInv(s) && HardwareInv(s) && Can(s, a)
    ensures Grown(s.sh.hw.dma.fifos, Apply(s, a).sh.hw.dma.fifos)
  {
    match a
    case Work(id, flush) => HardwareWork(s, id, flush);
    case Engine => HardwareEngine(s);
    case Adc(i, words) => HardwareAdc(s, i, words);
    case Proceed => ControlKeepsFifos(s);
    case _ =>
  }

  lemma ControlKeepsFifos(s: Server)
    ensures Control(s).sh.hw.dma.fifos == s.sh.hw.dma.fifos
  {
    if s.pc.StartHardware? {
      var c := s.settings;
      ConfigureFrame(s.sh.hw, c.chipMask, c.chanMask, c.range, c.nReads);
    } else if !s.pc.StartSpawn? {
      ControlFrame(s);
    }
  }

  lemma HardwareStep(s: Server, a: Action)
    requires ThreadsInv(s) && HardwareInv(s) && Can(s, a)
    ensures HardwareInv(Apply(s, a))
  {
    match a
    case Work(id, flush) => HardwareWork(s, id, flush);
    case Engine => HardwareEngine(s);
    case Adc(i, words) => HardwareAdc(s, i, words);
    case Proceed => HardwareControl(s);
    case _ => HardwareSocket(s, a);
  }

  /** The readout registers hold the settings. */
  predicate Readout(hw: Hw, c: Settings) {
    hw.readEvents == c.nReads && hw.depth == c.nReads && hw.period == c.readPeriod && hw.numSum == c.numSum
  }

  /** Once `DAQ_Thread::configure` is past them, the registers hold the settings. */
  ghost predicate ReadoutInv(s: Server) {
    && (HardwareSet(s.pc) ==>
          && s.sh.hw.readEvents == s.settings.nReads
          && s.word == WriteWord(s.settings.chanMask, s.settings.range, false))
    && (s.pc.StartJoin3? || s.pc.StartSpawn? ==> Readout(s.sh.hw, s.settings))
  }

  lemma ReadoutControl(s: Server)
    requires ReadoutInv(s)
    requires s.pc.StartRegisters? ==> s.sh.fields == FieldsFrom(s.settings)
    ensures ReadoutInv(Control(s))
  {
  }

  lemma ReadoutStep(s: Server, a: Action)
    requires ThreadsInv(s) && HardwareInv(s) && ReadoutInv(s) && Can(s, a)
    ensures ReadoutInv(Apply(s, a))
  {
    match a
    case Work(id, flush) => OnlyLastSteps(s, id, flush);
    case Proceed => ReadoutControl(s);
    case _ =>
  }

  // ---------- settings ----------

  /** The settings in force when these documents have been received. */
  function ConfigOf(leftover: u32, docs: seq<Document>): Settings {
    MergeAll(Defaults(leftover), docs)
  }

  ghost predicate SettingsInv(s: Server) {
    s.settings == ConfigOf(s.leftover, s.documents)
  }

  lemma MergeOne(c: Settings, docs: seq<Document>, d: Document)
    ensures MergeAll(c, docs + [d]) == Merge(MergeAll(c, docs), d)
  {
    assert (docs + [d])[..|docs|] == docs;
  }

  lemma SettingsStep(s: Server, a: Action)
    requires SettingsInv(s) && Can(s, a)
    ensures SettingsInv(Apply(s, a))
  {
    if a.Recv? && a.request.Data? {
      MergeOne(Defaults(s.leftover), s.documents, a.request.document);
    }
  }

  /** A run uses the settings that follow from these documents, and is of the kind that they ask for. */
  predicate RunsWith(t: Thread, leftover: u32, docs: seq<Document>) {
    var c := ConfigOf(leftover, docs);
    var ok := && t.fields == Fields(c.nReads, c.numTriggers, c.numSum, Rank(c.chipMask, 8))
              && t.srcs == Sources(c.chipMask)
              && t.base == WriteWord(c.chanMask, c.range, false)
              && (t.pc.Entry? || t.sum == (c.numSum != 0));
    ok
  }

  predicate ReadoutOf(hw: Hw, leftover: u32, docs: seq<Document>) {
    var ok := Readout(hw, ConfigOf(leftover, docs));
    ok
  }

  /** Every run uses the settings that were in force when it was started, and while it lasts the readout registers
      hold them. */
  ghost predicate StartedInv(s: Server) {
    && |s.started| == |s.workers|
    && (forall id :: 0 <= id < |s.workers| ==> RunsWith(s.workers[id], s.leftover, s.started[id]))
    && (Live(s) ==> ReadoutOf(s.sh.hw, s.leftover, s.started[|s.started| - 1]))
  }

  lemma RunsWithSame(t: Thread, t': Thread, leftover: u32, docs: seq<Document>)
    requires RunsWith(t, leftover, docs) && t'.fields == t.fields && t'.srcs == t.srcs && t'.base == t.base
    requires t'.pc.Entry? || t'.sum == (t'.fields.nsum != 0)
    ensures RunsWith(t', leftover, docs)
  {
  }

  lemma ReadoutSame(hw: Hw, hw': Hw, leftover: u32, docs: seq<Document>)
    requires ReadoutOf(hw, leftover, docs) && SameReadout(hw, hw')
    ensures ReadoutOf(hw', leftover, docs)
  {
  }

  /** A live worker knows of which kind it is, and the fields are its own. */
  lemma LiveKind(s: Server)
    requires HardwareInv(s) && RegistersInv(s) && Live(s)
    ensures KindKnown(Last(s)) && s.sh.fields == Last(s).fields
  {
  }

  lemma StartedWork(s: Server, id: nat, flush: seq<nat>)
    requires StartedInv(s) && Can(s, Work(id, flush)) && id == |s.workers| - 1
    requires KindKnown(s.workers[id]) && s.sh.fields == s.workers[id].fields && Live(s)
    ensures StartedInv(Apply(s, Work(id, flush)))
  {
    var t := s.workers[id];
    ThreadKeeps(s.sh, t, flush);
    KindStep(s.sh, t, flush);
    RunsWithSame(t, ThreadOf(s.sh, t, flush), s.leftover, s.started[id]);
    HwAfterFrame(s.sh.hw, t.pc, flush);
    ReadoutSame(s.sh.hw, SharedOf(s.sh, t, flush).hw, s.leftover, s.started[id]);
  }

  lemma SpawnRunsWith(s: Server)
    requires ThreadsInv(s) && HardwareInv(s) && ReadoutInv(s) && SettingsInv(s) && RegistersInv(s) && s.pc.StartSpawn?
    ensures RunsWith(Spawn(s.sh), s.leftover, s.documents)
    ensures ReadoutOf(s.sh.hw, s.leftover, s.documents)
  {
    SignedRoundTrip(s.settings.numTriggers);
  }

  lemma StartedSame(s: Server, s': Server)
    requires StartedInv(s) && s'.workers == s.workers && s'.started == s.started && s'.leftover == s.leftover
    requires Live(s) ==> SameReadout(s.sh.hw, s'.sh.hw)
    ensures StartedInv(s')
  {
    if Live(s) {
      ReadoutSame(s.sh.hw, s'.sh.hw, s.leftover, s.started[|s.started| - 1]);
    }
  }

  lemma StartedSpawned(s: Server, s': Server, t: Thread, docs: seq<Document>)
    requires StartedInv(s) && s'.workers == s.workers + [t] && s'.started == s.started + [docs]
    requires s'.leftover == s.leftover && RunsWith(t, s.leftover, docs) && ReadoutOf(s'.sh.hw, s.leftover, docs)
    ensures StartedInv(s')
  {
  }

  lemma StartedSpawn(s: Server)
    requires ThreadsInv(s) && HardwareInv(s) && ReadoutInv(s) && SettingsInv(s) && RegistersInv(s) && StartedInv(s)
    requires s.pc.StartSpawn?
    ensures StartedInv(Control(s))
  {
    SpawnRunsWith(s);
    ControlWorkers(s);
    ControlReadout(s);
    StartedSpawned(s, Control(s), Spawn(s.sh), s.documents);
  }

  lemma StartedControl(s: Server)
    requires ThreadsInv(s) && StartedInv(s) && !s.pc.StartSpawn?
    ensures StartedInv(Control(s))
  {
    ControlWorkers(s);
    ControlReadout(s);
    StartedSame(s, Control(s));
  }

  lemma ControlReadout(s: Server)
    ensures Control(s).leftover == s.leftover
    ensures Control(s).started == if s.pc.StartSpawn? then s.started + [s.documents] else s.started
    ensures !s.pc.StartHardware? && !s.pc.StartRegisters? ==> Control(s).sh.hw == s.sh.hw
  {
  }

  lemma StartedOther(s: Server, a: Action)
    requires StartedInv(s) && Can(s, a) && !a.Work? && !a.Proceed?
    ensures StartedInv(Apply(s, a))
  {
    WorkersAfter(s, a);
    StartedSame(s, Apply(s, a));
  }

  lemma StartedStep(s: Server, a: Action)
    requires ThreadsInv(s) && HardwareInv(s) && ReadoutInv(s) && SettingsInv(s) && RegistersInv(s) && StartedInv(s)
    requires Can(s, a)
    ensures StartedInv(Apply(s, a))
  {
    if a.Work? {
      OnlyLastSteps(s, a.id, a.flush);
      LiveKind(s);
      StartedWork(s, a.id, a.flush);
    } else if a.Proceed? {
      if s.pc.StartSpawn? {
        StartedSpawn(s);
      } else {
        StartedControl(s);
      }
    } else {
      StartedOther(s, a);
    }
  }

  // ---------- messages ----------

  /** What every worker has sent, the ended ones included, is an in-order copy of what the FIFOs held. */
  ghost predicate SentAll(s: Server) {
    forall id :: 0 <= id < |s.workers| ==> SentInv(s.sh, s.workers[id])
  }

  lemma SentWork(s: Server, id: nat, flush: seq<nat>)
    requires ThreadsInv(s) && HardwareInv(s) && SentAll(s) && Can(s, Work(id, flush))
    ensures SentAll(Apply(s, Work(id, flush)))
  {
    OnlyLastSteps(s, id, flush);
    SentStep(s.sh, s.workers[id], flush);
    FifosGrow(s, Work(id, flush));
    forall j | 0 <= j < |s.workers| && j != id
      ensures SentInv(SharedOf(s.sh, s.workers[id], flush), s.workers[j])
    {
      SentGrown(s.sh, SharedOf(s.sh, s.workers[id], flush), s.workers[j]);
    }
  }

  lemma SentKept(s: Server, s': Server, count: nat)
    requires SentAll(s) && Grown(s.sh.hw.dma.fifos, s'.sh.hw.dma.fifos)
    requires count == |s.workers| <= |s'.workers| && s'.workers[..count] == s.workers
    ensures forall j :: 0 <= j < count ==> SentInv(s'.sh, s'.workers[j])
  {
    forall j | 0 <= j < count
      ensures SentInv(s'.sh, s'.workers[j])
    {
      assert s'.workers[j] == s.workers[j];
      SentGrown(s.sh, s'.sh, s.workers[j]);
    }
  }

  lemma SentSpawn(s: Server)
    requires WellFormed(s.sh.hw.dma)
    ensures SentInv(s.sh, Spawn(s.sh))
  {
  }

  lemma SentOther(s: Server, a: Action)
    requires ThreadsInv(s) && HardwareInv(s) && SentAll(s) && Can(s, a) && !a.Work?
    ensures SentAll(Apply(s, a))
  {
    var s' := Apply(s, a);
    FifosGrow(s, a);
    WorkersAfter(s, a);
    SentKept(s, s', |s.workers|);
    if s'.workers != s.workers {
      SentSpawn(s);
      SpawnShares(s);
    }
  }

  lemma SpawnShares(s: Server)
    requires s.pc.StartSpawn?
    ensures Control(s).sh == s.sh
  {
  }

  /** Only a spawn adds a worker, and only a worker's own step changes one. */
  lemma WorkersAfter(s: Server, a: Action)
    requires Can(s, a) && !a.Work?
    ensures Apply(s, a).workers == if a.Proceed? && s.pc.StartSpawn? then s.workers + [Spawn(s.sh)] else s.workers
    ensures Apply(s, a).produced == s.produced
  {
    if a.Proceed? {
      ControlWorkers(s);
    }
  }

  lemma ControlWorkers(s: Server)
    ensures Control(s).workers == if s.pc.StartSpawn? then s.workers + [Spawn(s.sh)] else s.workers
    ensures Control(s).produced == s.produced
  {
  }

  lemma SentAllStep(s: Server, a: Action)
    requires ThreadsInv(s) && HardwareInv(s) && SentAll(s) && Can(s, a)
    ensures SentAll(Apply(s, a))
  {
    if a.Work? {
      SentWork(s, a.id, a.flush);
    } else {
      SentOther(s, a);
    }
  }

  /** The messages of all the workers, in the order in which the workers were spawned. */
  function AllMessages(workers: seq<Thread>): seq<seq<u32>> {
    if workers == [] then [] else AllMessages(workers[..|workers| - 1]) + workers[|workers| - 1].msgs
  }

  /** The order of the send calls is the order of the runs. */
  ghost predicate ProducedInv(s: Server) {
    s.produced == AllMessages(s.workers)
  }

  lemma ProducedStep(s: Server, a: Action)
    requires ThreadsInv(s) && ProducedInv(s) && Can(s, a)
    ensures ProducedInv(Apply(s, a))
  {
    if a.Work? {
      OnlyLastSteps(s, a.id, a.flush);
      var t, t' := s.workers[a.id], ThreadOf(s.sh, s.workers[a.id], a.flush);
      MessagesStep(s.sh, t, a.flush);
      assert Apply(s, a).workers[..a.id] == s.workers[..a.id];
    } else {
      WorkersAfter(s, a);
      if Apply(s, a).workers != s.workers {
        assert (s.workers + [Spawn(s.sh)])[..|s.workers|] == s.workers;
      }
    }
  }

  lemma MessagesStep(sh: Shared, t: Thread, flush: seq<nat>)
    requires CanStep(sh, t, flush)
    ensures ThreadOf(sh, t, flush).msgs == if t.pc.Send? then t.msgs + [t.pc.message] else t.msgs
  {
  }

  // ---------- counting ----------

  ghost predicate CountAll(s: Server) {
    forall id :: 0 <= id < |s.workers| ==> CountInv(s.workers[id])
  }

  /** A live worker runs with the parameters it was started with. */
  lemma FieldsOwned(s: Server)
    requires HardwareInv(s) && Live(s)
    ensures s.sh.fields == Last(s).fields
  {
  }

  lemma CountWork(s: Server, id: nat, flush: seq<nat>)
    requires CountAll(s) && Can(s, Work(id, flush)) && s.sh.fields == s.workers[id].fields
    ensures CountAll(Apply(s, Work(id, flush)))
  {
    CountStep(s.sh, s.workers[id], flush);
  }

  lemma CountAllStep(s: Server, a: Action)
    requires ThreadsInv(s) && HardwareInv(s) && CountAll(s) && Can(s, a)
    ensures CountAll(Apply(s, a))
  {
    if a.Work? {
      OnlyLastSteps(s, a.id, a.flush);
      FieldsOwned(s);
      CountWork(s, a.id, a.flush);
    } else {
      WorkersAfter(s, a);
    }
  }

  /** The run ended because one of its loop heads saw the flag. */
  predicate StoppedRun(t: Thread) {
    Leaving(t) && |t.heads| > 0 && t.heads[|t.heads| - 1]
  }

  function StoppedRuns(workers: seq<Thread>): nat {
    if workers == [] then 0
    else StoppedRuns(workers[..|workers| - 1]) + if StoppedRun(workers[|workers| - 1]) then 1 else 0
  }

  /** The flag is up exactly when it was raised once more often than cleared, and every clearing ended one run. */
  ghost predicate FlagInv(s: Server) {
    && s.sh.raised == s.sh.cleared + (if s.sh.stop then 1 else 0)
    && s.sh.cleared == StoppedRuns(s.workers)
    && (Live(s) && Last(s).pc.Clear? ==> s.sh.stop)
  }

  lemma FlagShared(sh: Shared, t: Thread, flush: seq<nat>)
    requires CanStep(sh, t, flush)
    ensures SharedOf(sh, t, flush).raised == sh.raised
    ensures SharedOf(sh, t, flush).cleared == if t.pc.Clear? then sh.cleared + 1 else sh.cleared
    ensures SharedOf(sh, t, flush).stop == if t.pc.Clear? then false else sh.stop
  {
  }

  lemma FlagThread(sh: Shared, t: Thread, flush: seq<nat>)
    requires CanStep(sh, t, flush) && CountInv(t)
    ensures StoppedRun(ThreadOf(sh, t, flush)) <==> t.pc.Clear? || StoppedRun(t)
    ensures t.pc.Clear? ==> !StoppedRun(t)
    ensures ThreadOf(sh, t, flush).pc.Clear? ==> sh.stop && !t.pc.Clear?
  {
  }

  lemma FlagWork(s: Server, id: nat, flush: seq<nat>)
    requires ThreadsInv(s) && CountAll(s) && FlagInv(s) && Can(s, Work(id, flush))
    ensures FlagInv(Apply(s, Work(id, flush)))
  {
    OnlyLastSteps(s, id, flush);
    FlagShared(s.sh, s.workers[id], flush);
    FlagThread(s.sh, s.workers[id], flush);
    assert s.workers[id := ThreadOf(s.sh, s.workers[id], flush)][..id] == s.workers[..id];
  }

  lemma FlagControl(s: Server)
    requires FlagInv(s) && ThreadsInv(s)
    ensures FlagInv(Control(s))
  {
    ControlWorkers(s);
    FlagOfControl(s);
    if s.pc.StartSpawn? {
      assert (s.workers + [Spawn(s.sh)])[..|s.workers|] == s.workers;
    }
  }

  lemma FlagOfControl(s: Server)
    ensures Control(s).sh.cleared == s.sh.cleared
    ensures Control(s).sh.stop == (s.sh.stop || s.pc.StopRaise?)
    ensures Control(s).sh.raised == if s.pc.StopRaise? && !s.sh.stop then s.sh.raised + 1 else s.sh.raised
  {
  }

  lemma FlagStep(s: Server, a: Action)
    requires ThreadsInv(s) && CountAll(s) && FlagInv(s) && Can(s, a)
    ensures FlagInv(Apply(s, a))
  {
    match a
    case Work(id, flush) => FlagWork(s, id, flush);
    case Proceed => FlagControl(s);
    case _ =>
  }

  /** A stop has had its effect: the flag is up, or the last run was ended by it. */
  predicate StopHeard(s: Server) {
    s.sh.stop || (s.workers != [] && StoppedRun(Last(s)))
  }

  /** From the moment `cmd_stop` has raised the flag to its reply. */
  predicate Stopping(pc: CtrlPc) {
    pc.StopJoin? || pc == Answer(Stopped)
  }

  ghost predicate StopInv(s: Server) {
    Stopping(s.pc) ==> StopHeard(s)
  }

  /** What a stop has done stays done until the next run is started. */
  lemma HeardStays(s: Server, a: Action)
    requires ThreadsInv(s) && CountAll(s) && Can(s, a) && StopHeard(s) && !(a.Proceed? && s.pc.StartSpawn?)
    ensures StopHeard(Apply(s, a))
  {
    if a.Work? {
      OnlyLastSteps(s, a.id, a.flush);
      FlagShared(s.sh, s.workers[a.id], a.flush);
      FlagThread(s.sh, s.workers[a.id], a.flush);
    } else {
      WorkersAfter(s, a);
      if a.Proceed? {
        FlagOfControl(s);
      }
    }
  }

  lemma StopBegins(s: Server, a: Action)
    requires Can(s, a)
    ensures Stopping(Apply(s, a).pc) ==> Stopping(s.pc) || (a.Proceed? && s.pc.StopRaise?)
  {
  }

  lemma StopStep(s: Server, a: Action)
    requires ThreadsInv(s) && CountAll(s) && StopInv(s) && Can(s, a)
    ensures StopInv(Apply(s, a))
  {
    StopBegins(s, a);
    if Stopping(s.pc) {
      HeardStays(s, a);
    } else if a.Proceed? && s.pc.StopRaise? {
      FlagOfControl(s);
    }
  }

  // ---------- registers ----------

  /** The last configured word has the mode bit clear and the configured fields. */
  ghost predicate WordInv(s: Server) {
    Set(s) ==> WordHolds(s.word, s.chan, s.range)
  }

  /** The mode bit is clear, the fields are these. */
  predicate WordHolds(word: Reg, chan: Octet, range: Octet) {
    var ok := && ModeClear(word)
              && ChanField(word) == chan.bits as bv32
              && RangeField(word) == range.bits as bv32 & 0x7;
    ok
  }

  lemma WordWritten(chan: Octet, range: Octet)
    ensures WordHolds(WriteWord(chan, range, false), chan, range)
  {
    WriteWordFields(chan, range, false);
  }

  lemma WordSame(s: Server, a: Action)
    requires Can(s, a) && !(a.Proceed? && s.pc.StartHardware?)
    ensures Apply(s, a).word == s.word && Apply(s, a).chan == s.chan && Apply(s, a).range == s.range
  {
  }

  lemma WordStep(s: Server, a: Action)
    requires WordInv(s) && Can(s, a)
    ensures WordInv(Apply(s, a))
  {
    if a.Proceed? && s.pc.StartHardware? {
      WordWritten(s.settings.chanMask, s.settings.range);
    } else {
      WordSame(s, a);
      SetStays(s, a);
    }
  }

  /** The control register of the DMA engine keeps its switches, and its coalescing field holds the size of the ring. */
  ghost predicate SwitchesInv(s: Server) {
    && Operational(s.sh.hw.control)
    && (Set(s) ==> Coalesced(s.sh.hw))
  }

  predicate Coalesced(hw: Hw) {
    Threshold(hw.control) == |hw.srcs|
  }

  lemma SwitchesSame(s: Server, s': Server)
    requires SwitchesInv(s) && (Set(s') ==> Set(s))
    requires s'.sh.hw.control == s.sh.hw.control && s'.sh.hw.srcs == s.sh.hw.srcs
    ensures SwitchesInv(s')
  {
  }

  lemma SwitchesConfigure(hw: Hw, mask: Octet, chanMask: Octet, range: Octet, n: u32)
    requires Operational(hw.control)
    ensures Operational(Configure(hw, mask, chanMask, range, n).control)
    ensures Coalesced(Configure(hw, mask, chanMask, range, n))
  {
    ConfigureFrame(hw, mask, chanMask, range, n);
    CoalescingSet(hw.control, |Sources(mask)|);
    CoalescingKeepsSwitches(hw.control, |Sources(mask)|);
  }

  lemma ControlSwitches(s: Server)
    requires !s.pc.StartHardware?
    ensures Control(s).sh.hw.control == s.sh.hw.control && Control(s).sh.hw.srcs == s.sh.hw.srcs
    ensures Control(s).sh.hw.readReg == s.sh.hw.readReg && Control(s).sh.hw.writeReg == s.sh.hw.writeReg
    ensures Control(s).word == s.word
  {
  }

  lemma SetStays(s: Server, a: Action)
    requires Can(s, a)
    ensures Set(Apply(s, a)) ==> Set(s) || (a.Proceed? && s.pc.StartHardware?)
  {
    if a.Proceed? {
      if !s.pc.StartHardware? {
        ControlOrder(s);
      }
    } else if !a.Work? {
      WorkersAfter(s, a);
    }
  }

  lemma SwitchesStep(s: Server, a: Action)
    requires SwitchesInv(s) && Can(s, a)
    ensures SwitchesInv(Apply(s, a))
  {
    if a.Proceed? && s.pc.StartHardware? {
      var c := s.settings;
      SwitchesConfigure(s.sh.hw, c.chipMask, c.chanMask, c.range, c.nReads);
    } else {
      SetStays(s, a);
      if a.Work? {
        HwAfterFrame(s.sh.hw, s.workers[a.id].pc, a.flush);
      } else if a.Proceed? {
        ControlSwitches(s);
      }
      SwitchesSame(s, Apply(s, a));
    }
  }

  /** Outside a run the write register holds the configured word, mode bit clear, and after one reading is disabled. */
  ghost predicate RegistersInv(s: Server) {
    && (Live(s) ==> RegisterInv(s.sh, Last(s)) && Last(s).base == s.word)
    && (Set(s) && !Live(s) ==> s.sh.hw.writeReg == s.word)
    && (s.workers != [] && !Live(s) ==> s.sh.hw.readReg == Reg(0))
  }

  lemma BaseStep(sh: Shared, t: Thread, flush: seq<nat>)
    requires CanStep(sh, t, flush)
    ensures ThreadOf(sh, t, flush).base == t.base
  {
  }

  lemma RegistersWork(s: Server, id: nat, flush: seq<nat>)
    requires RegistersInv(s) && Can(s, Work(id, flush))
    requires Live(s) && id == |s.workers| - 1 && s.sh.fields == Last(s).fields
    ensures RegistersInv(Apply(s, Work(id, flush)))
  {
    RegisterStep(s.sh, s.workers[id], flush);
    BaseStep(s.sh, s.workers[id], flush);
    RegistersEnd(SharedOf(s.sh, s.workers[id], flush), ThreadOf(s.sh, s.workers[id], flush));
  }

  lemma RegistersEnd(sh: Shared, t: Thread)
    requires RegisterInv(sh, t)
    ensures t.pc.Done? ==> sh.hw.writeReg == t.base && sh.hw.readReg == Reg(0)
  {
  }

  lemma RegistersSpawn(s: Server)
    requires RegistersInv(s) && WordInv(s) && !Live(s) && s.pc.StartSpawn?
    ensures RegistersInv(Control(s))
  {
    assert RegisterInv(Control(s).sh, Spawn(s.sh));
  }

  lemma RegistersSame(s: Server, s': Server)
    requires RegistersInv(s) && s'.workers == s.workers && (Set(s') ==> Set(s))
    requires s'.sh.hw.readReg == s.sh.hw.readReg && s'.sh.hw.writeReg == s.sh.hw.writeReg
    requires s'.word == s.word
    ensures RegistersInv(s')
  {
    if Live(s) {
      RegisterFrame(s.sh, s'.sh, Last(s));
    }
  }

  lemma RegisterFrame(sh: Shared, sh': Shared, t: Thread)
    requires RegisterInv(sh, t) && sh'.hw.readReg == sh.hw.readReg && sh'.hw.writeReg == sh.hw.writeReg
    ensures RegisterInv(sh', t)
  {
  }

  lemma RegistersConfigure(s: Server)
    requires RegistersInv(s) && !Live(s) && s.pc.StartHardware?
    ensures RegistersInv(Control(s))
  {
    var c := s.settings;
    ConfigureFrame(s.sh.hw, c.chipMask, c.chanMask, c.range, c.nReads);
  }

  lemma RegistersControl(s: Server)
    requires ThreadsInv(s) && RegistersInv(s) && WordInv(s) && Can(s, Proceed)
    ensures RegistersInv(Control(s))
  {
    if s.pc.StartHardware? {
      RegistersConfigure(s);
    } else if s.pc.StartSpawn? {
      RegistersSpawn(s);
    } else {
      ControlSwitches(s);
      SetStays(s, Proceed);
      RegistersSame(s, Control(s));
    }
  }

  lemma RegistersStep(s: Server, a: Action)
    requires ThreadsInv(s) && HardwareInv(s) && RegistersInv(s) && WordInv(s) && Can(s, a)
    ensures RegistersInv(Apply(s, a))
  {
    match a
    case Work(id, flush) =>
      OnlyLastSteps(s, id, flush);
      RegistersWork(s, id, flush);
    case Proceed => RegistersControl(s);
    case _ =>
      SetStays(s, a);
      RegistersSame(s, Apply(s, a));
  }
}
