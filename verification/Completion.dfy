/** That runs do come to their end: from every power-up there is a behaviour in which the client's program delivers
    everything, so the properties of complete runs are not about nothing. */
module Completion {
  import opened Words
  import opened ChipMask
  import opened SgRing
  import opened Cdma
  import opened Reads
  import opened Registers
  import opened Hardware
  import opened Worker
  import opened Config
  import opened Requests
  import opened Server
  import opened Safety
  import opened Protocol
  import opened EndToEnd

  // ---------- single steps ----------

  /** `e` is the state after some behaviour from this power-up. */
  ghost predicate Leads(s: System, e: System) {
    Occurs(e) && PoweredUp(s) && exists steps :: Behaves(s, steps) && Outcome(s, steps) == e
  }

  lemma LeadsStep(s: System, e: System, a: Step)
    requires Leads(s, e) && Possible(e, a)
    ensures Leads(s, Next(e, a))
  {
    var steps :| Behaves(s, steps) && Outcome(s, steps) == e;
    assert (steps + [a])[..|steps|] == steps;
    assert Behaves(s, steps + [a]);
  }

  /** The server takes a step that no socket is involved in; a message sent is accepted. */
  lemma Serves(s: System, e: System, b: Action) returns (e': System)
    requires Leads(s, e) && Can(e.server, b) && !b.Recv? && !b.Respond?
    ensures Leads(s, e') && e'.client == e.client && e'.wire == e.wire && e'.refused == e.refused
    ensures e'.server == Apply(e.server, b)
  {
    e' := Next(e, Serve(b, false));
    LeadsStep(s, e, Serve(b, false));
  }

  /** The first worker of the server is running for a client in state `c`. */
  ghost predicate Running(s: System, e: System, c: Client) {
    Leads(s, e) && e.client == c && e.refused == 0 && |e.server.workers| == 1 && !e.server.sh.stop
  }

  lemma WorkerSteps(s: System, e: System, c: Client, flush: seq<nat>) returns (e': System)
    requires Running(s, e, c) && CanStep(e.server.sh, e.server.workers[0], flush)
    ensures Running(s, e', c)
    ensures e'.server.workers[0] == ThreadOf(e.server.sh, e.server.workers[0], flush)
    ensures e'.server.sh == SharedOf(e.server.sh, e.server.workers[0], flush)
  {
    e' := Serves(s, e, Work(0, flush));
  }

  lemma EngineSteps(s: System, e: System, c: Client) returns (e': System)
    requires Running(s, e, c)
    ensures Running(s, e', c) && e'.server.workers == e.server.workers && e'.server.sh == EngineMoves(e.server.sh)
  {
    e' := Serves(s, e, Engine);
  }

  lemma AdcSteps(s: System, e: System, c: Client, i: nat, words: seq<u32>) returns (e': System)
    requires Running(s, e, c) && i < |e.server.sh.hw.dma.fifos|
    ensures Running(s, e', c) && e'.server.workers == e.server.workers
    ensures e'.server.sh == AdcFills(e.server.sh, i, words)
  {
    e' := Serves(s, e, Adc(i, words));
  }

  /** What the invariants say of a running worker. */
  lemma RunningInv(s: System, e: System, c: Client)
    requires Running(s, e, c) && !e.server.workers[0].pc.Done?
    ensures DataInv(e.server.sh, e.server.workers[0]) && CountInv(e.server.workers[0])
    ensures WellFormed(e.server.sh.hw.dma) && Operational(e.server.sh.hw.control)
  {
    OccursInv(e);
    assert Live(e.server) && Last(e.server) == e.server.workers[0];
  }

  // ---------- one round of the run ----------

  /** Up to the first loop head; a reset leaves the FIFOs as they are. */
  lemma ReachesHead(s: System, e: System, c: Client) returns (e': System)
    requires Running(s, e, c) && (BeforeLoop(e.server.workers[0]) || e.server.workers[0].pc.Head?)
    requires e.server.workers[0].msgs == [] && e.server.workers[0].fields.numTriggers >= 0
    ensures Running(s, e', c) && e'.server.workers[0].pc.Head? && e'.server.workers[0].msgs == []
    ensures e'.server.workers[0].fields == e.server.workers[0].fields
    ensures e'.server.workers[0].srcs == e.server.workers[0].srcs
    decreases StepsLeft(e.server.workers[0])
  {
    e' := e;
    var t := e.server.workers[0];
    if !t.pc.Head? {
      var flush := Positions(e.server.sh.hw.dma.fifos);
      RunningInv(s, e, c);
      PositionsFlushable(e.server.sh.hw.dma);
      SetupSteps(e.server.sh, t, flush);
      e' := WorkerSteps(s, e, c, flush);
      e' := ReachesHead(s, e', c);
    }
  }

  lemma SetupSteps(sh: Shared, t: Thread, flush: seq<nat>)
    requires BeforeLoop(t) && Flushable(sh.hw.dma.fifos, flush)
    requires CountInv(t) && sh.fields == t.fields && t.fields.numTriggers >= 0
    ensures CanStep(sh, t, flush)
    ensures var t' := ThreadOf(sh, t, flush);
            && (BeforeLoop(t') || t'.pc.Head?) && t'.msgs == t.msgs
            && t'.fields == t.fields && t'.srcs == t.srcs && StepsLeft(t') < StepsLeft(t)
  {
    EachStepCounts(sh, t, flush);
  }

  /** The run is at a loop head, with as many messages sent as the client has taken. */
  ghost predicate AtRound(s: System, e: System, c: Client) {
    && Running(s, e, c) && InLoop(c) && c.interrupted == 0 && c.nEvts >= 0
    && e.server.workers[0].pc.Head? && |e.server.workers[0].msgs| == c.i
    && e.server.workers[0].fields.numTriggers == c.nEvts && |e.server.workers[0].srcs| > 1
  }

  lemma Heads(s: System, e: System, c: Client) returns (e': System)
    requires AtRound(s, e, c) && c.i < c.nEvts
    ensures Running(s, e', c) && e'.server.workers[0].pc.Wait?
    ensures SameRun(e.server.workers[0], e'.server.workers[0])
  {
    RunningInv(s, e, c);
    e' := WorkerSteps(s, e, c, []);
  }

  /** The run has gone on without sending anything. */
  predicate SameRun(t: Thread, t': Thread) {
    t'.fields == t.fields && t'.srcs == t.srcs && t'.msgs == t.msgs
  }

  // ---------- the ADC fills the FIFOs in lockstep ----------

  function Level(fifos: seq<Fifo>, srcs: SourceList, k: nat): (level: nat)
    requires k <= |srcs|
  {
    if k == 0 then 0
    else Level(fifos, srcs, k - 1)
         + if Occupancy(fifos, srcs[k - 1]) > 0 then Occupancy(fifos, srcs[k - 1]) else 0
  }

  lemma {:induction false} LevelCovers(fifos: seq<Fifo>, srcs: SourceList, k: nat, j: nat)
    requires j < k <= |srcs|
    ensures Occupancy(fifos, srcs[j]) <= Level(fifos, srcs, k)
  {
    if j < k - 1 {
      LevelCovers(fifos, srcs, k - 1, j);
    }
  }

  /** The first `k` sources are at the level, the others not beyond it. */
  ghost predicate FilledTo(fifos: seq<Fifo>, srcs: SourceList, level: nat, k: nat) {
    && |fifos| == 9 && k <= |srcs|
    && forall j :: 0 <= j < |srcs| ==>
         if j < k then Occupancy(fifos, srcs[j]) == Share(level, srcs[j])
         else Occupancy(fifos, srcs[j]) <= Share(level, srcs[j])
  }

  function Blank(k: nat): (ws: seq<u32>)
    ensures |ws| == k
  {
    seq(k, _ => 0)
  }

  lemma FillOne(d: Dma, srcs: SourceList, level: nat, k: nat, missing: nat)
    requires FilledTo(d.fifos, srcs, level, k) && k < |srcs| && srcs[k] <= 8
    requires missing == Share(level, srcs[k]) - Occupancy(d.fifos, srcs[k])
    ensures FilledTo(Fill(d, srcs[k], Blank(missing)).fifos, srcs, level, k + 1)
  {
    var fifos := Fill(d, srcs[k], Blank(missing)).fifos;
    forall j | 0 <= j < |srcs|
      ensures Occupancy(fifos, srcs[j])
              == if j == k then Share(level, srcs[k]) else Occupancy(d.fifos, srcs[j])
    {
      AscendingBound(srcs, j);
    }
  }

  /** The ADC fills the remaining sources. */
  lemma Fills(s: System, e: System, c: Client, srcs: SourceList, level: nat, k: nat) returns (e': System)
    requires Running(s, e, c) && FilledTo(e.server.sh.hw.dma.fifos, srcs, level, k)
    ensures Running(s, e', c) && e'.server.workers == e.server.workers
    ensures SameFront(e.server.sh, e'.server.sh)
    ensures FilledTo(e'.server.sh.hw.dma.fifos, srcs, level, |srcs|)
    decreases |srcs| - k
  {
    e' := e;
    if k < |srcs| {
      AscendingBound(srcs, k);
      var d := e.server.sh.hw.dma;
      var missing := Share(level, srcs[k]) - Occupancy(d.fifos, srcs[k]);
      FillOne(d, srcs, level, k, missing);
      e' := AdcSteps(s, e, c, srcs[k], Blank(missing));
      e' := Fills(s, e', c, srcs, level, k + 1);
    }
  }

  /** Nothing that the wait depends on has changed beside the FIFOs. */
  predicate SameFront(a: Shared, b: Shared) {
    b.hw.srcs == a.hw.srcs && b.hw.nEvents == a.hw.nEvents && b.fields == a.fields
  }

  lemma LevelIsEnough(hw: Hw, level: nat)
    requires FilledTo(hw.dma.fifos, hw.srcs, level, |hw.srcs|) && level >= hw.nEvents && |hw.srcs| > 1
    ensures PollPasses(hw) && Lockstep(hw) && BlockWaiting(hw)
  {
    AscendingBound(hw.srcs, 0);
    assert AtLevel(hw, level);
    PollSuffices(hw);
  }

  /** A wait comes to its end. */
  lemma WaitEnds(s: System, e: System, c: Client) returns (e': System)
    requires Running(s, e, c) && e.server.workers[0].pc.Wait? && |e.server.workers[0].srcs| > 1
    ensures Running(s, e', c) && e'.server.workers[0].pc.Start?
    ensures SameRun(e.server.workers[0], e'.server.workers[0])
  {
    RunningInv(s, e, c);
    var hw := e.server.sh.hw;
    var level := Level(hw.dma.fifos, hw.srcs, |hw.srcs|) + hw.nEvents;
    LevelFits(hw, level);
    var f := Fills(s, e, c, hw.srcs, level, 0);
    LevelIsEnough(f.server.sh.hw, level);
    e' := WorkerSteps(s, f, c, []);
  }

  lemma LevelFits(hw: Hw, level: nat)
    requires |hw.dma.fifos| == 9 && level == Level(hw.dma.fifos, hw.srcs, |hw.srcs|) + hw.nEvents
    ensures FilledTo(hw.dma.fifos, hw.srcs, level, 0)
  {
    forall j | 0 <= j < |hw.srcs|
      ensures Occupancy(hw.dma.fifos, hw.srcs[j]) <= Share(level, hw.srcs[j])
    {
      LevelCovers(hw.dma.fifos, hw.srcs, |hw.srcs|, j);
    }
  }

  // ---------- the engine gathers, the message is sent and taken ----------

  lemma Kicks(s: System, e: System, c: Client) returns (e': System)
    requires Running(s, e, c) && e.server.workers[0].pc.Start?
    ensures Running(s, e', c) && e'.server.workers[0].pc.Transferring?
    ensures SameRun(e.server.workers[0], e'.server.workers[0])
  {
    e' := WorkerSteps(s, e, c, []);
  }

  /** The engine works through the ring. */
  lemma EngineEnds(s: System, e: System, c: Client) returns (e': System)
    requires Running(s, e, c) && e.server.workers[0].pc.Transferring?
    ensures Running(s, e', c) && e'.server.workers == e.server.workers && !e'.server.sh.hw.dma.busy
    decreases |e.server.sh.hw.srcs| - e.server.sh.hw.retired
  {
    e' := e;
    if e.server.sh.hw.dma.busy {
      RunningInv(s, e, c);
      StillToDo(e.server.sh, e.server.workers[0]);
      e' := EngineSteps(s, e, c);
      e' := EngineEnds(s, e', c);
    }
  }

  lemma StillToDo(sh: Shared, t: Thread)
    requires DataInv(sh, t) && t.pc.Transferring? && sh.hw.dma.busy
    ensures sh.hw.retired < |sh.hw.srcs|
    ensures EngineMoves(sh).hw.retired == sh.hw.retired + 1 && EngineMoves(sh).hw.srcs == sh.hw.srcs
  {
    BusyEngineMoves(sh);
  }

  lemma TransferEnds(s: System, e: System, c: Client) returns (e': System)
    requires Running(s, e, c) && e.server.workers[0].pc.Transferring? && !e.server.sh.hw.dma.busy
    ensures Running(s, e', c) && e'.server.workers[0].pc.Send?
    ensures SameRun(e.server.workers[0], e'.server.workers[0])
  {
    RunningInv(s, e, c);
    OperationalIrq(e.server.sh.hw.control);
    LiveCopyFits(e.server.sh, e.server.workers[0]);
    TransferInterrupts(e.server.sh, e.server.workers[0]);
    e' := WorkerSteps(s, e, c, []);
  }

  lemma SendEnds(s: System, e: System, c: Client) returns (e': System)
    requires Running(s, e, c) && e.server.workers[0].pc.Send?
    ensures Running(s, e', c) && e'.server.workers[0].pc.Head?
    ensures e'.server.workers[0].fields == e.server.workers[0].fields
    ensures e'.server.workers[0].srcs == e.server.workers[0].srcs
    ensures |e'.server.workers[0].msgs| == |e.server.workers[0].msgs| + 1
  {
    e' := WorkerSteps(s, e, c, []);
  }

  /** One message more has been sent than taken. */
  lemma MessageWaits(s: System, e: System, c: Client)
    requires Running(s, e, c) && InLoop(c) && c.interrupted == 0 && |e.server.workers[0].msgs| == c.i + 1
    requires Starts(c.asked) == 1
    ensures e.taken < |e.accepted|
  {
    OccursQueue(e);
    OccursStarts(e);
    OneWorker(e);
  }

  lemma OccursStarts(e: System)
    requires Occurs(e)
    ensures StartsInv(e)
  {
    OccursInv(e);
  }

  /** The client takes it. */
  lemma Takes(s: System, e: System, c: Client) returns (e': System, c': Client)
    requires Running(s, e, c) && InLoop(c) && c.interrupted == 0 && c.i < c.nEvts
    requires |e.server.workers[0].msgs| == c.i + 1 && Starts(c.asked) == 1
    ensures Running(s, e', c') && e'.server == e.server && c'.i == c.i + 1 && SameCall(c, c')
  {
    MessageWaits(s, e, c);
    e' := Next(e, LoopTakes(false));
    LeadsStep(s, e, LoopTakes(false));
    c' := e'.client;
  }

  /** The client is still in the same run. */
  predicate SameCall(c: Client, c': Client) {
    && InLoop(c') == InLoop(c) && c'.interrupted == c.interrupted && c'.nEvts == c.nEvts
    && c'.begun == c.begun && c'.asked == c.asked && c'.pending == c.pending
  }

  lemma Round(s: System, e: System, c: Client) returns (e': System, c': Client)
    requires AtRound(s, e, c) && c.i < c.nEvts && Starts(c.asked) == 1
    ensures AtRound(s, e', c') && c'.i == c.i + 1 && SameCall(c, c')
  {
    var waiting := Heads(s, e, c);
    var ready := WaitEnds(s, waiting, c);
    var kicked := Kicks(s, ready, c);
    var idle := EngineEnds(s, kicked, c);
    var holding := TransferEnds(s, idle, c);
    var sent := SendEnds(s, holding, c);
    e', c' := Takes(s, sent, c);
  }

  lemma Rounds(s: System, e: System, c: Client) returns (e': System, c': Client)
    requires AtRound(s, e, c) && c.i <= c.nEvts && Starts(c.asked) == 1
    ensures AtRound(s, e', c') && c'.i == c'.nEvts && SameCall(c, c')
    decreases c.nEvts - c.i
  {
    e', c' := e, c;
    if c.i < c.nEvts {
      e', c' := Round(s, e, c);
      e', c' := Rounds(s, e', c');
    }
  }

  /** The loop ends by itself. */
  lemma Finishes(s: System, e: System, c: Client) returns (e': System)
    requires AtRound(s, e, c) && c.i == c.nEvts
    ensures Leads(s, e') && e'.refused == 0 && e'.client == c.(looping := false, finished := true)
  {
    e' := Next(e, LoopEnds);
    LeadsStep(s, e, LoopEnds);
  }

  // ---------- the calls before the run ----------

  predicate OnStart(pc: CtrlPc) {
    pc.StartJoin? || Exclusive(pc)
  }

  /** The one worker has been spawned and has done nothing yet. */
  predicate Fresh(v: Server) {
    |v.workers| == 1 && v.workers[0].pc.Entry? && v.workers[0].msgs == []
  }

  /** The server's control thread works on a request of a client in state `c`, other than a stop. */
  ghost predicate Handling(s: System, e: System, c: Client) {
    && Leads(s, e) && e.client == c && e.refused == 0 && e.wire.Serving? && !e.server.sh.stop
    && !e.server.pc.StopRaise? && !e.server.pc.StopJoin?
    && (if OnStart(e.server.pc) then e.server.workers == [] else e.server.workers == [] || Fresh(e.server))
  }

  lemma HandlerProceeds(v: Server)
    requires !Receives(v.pc) && Sends(v.pc).None? && !v.pc.StopRaise? && !v.pc.StopJoin?
    requires if OnStart(v.pc) then v.workers == [] else v.workers == [] || Fresh(v)
    ensures Can(v, Proceed)
    ensures var w := Control(v);
            && w.pc == NextPc(v.pc) && !w.pc.StopRaise? && !w.pc.StopJoin? && w.sh.stop == v.sh.stop
            && w.settings == v.settings
            && (if OnStart(w.pc) then w.workers == [] else w.workers == [] || Fresh(w))
            && (if OnStart(v.pc) then OnStart(w.pc) || Fresh(w)
                else !OnStart(w.pc) && w.workers == v.workers && w.sh == v.sh)
  {
    ControlThreads(v);
    FlagOfControl(v);
  }

  lemma Responds(s: System, e: System, c: Client) returns (e': System)
    requires Handling(s, e, c) && TurnInv(e) && Sends(e.server.pc).Some?
    ensures Leads(s, e') && e'.client == c && e'.refused == 0 && e'.wire.Replied? && !e'.server.sh.stop
    ensures e'.server.settings == e.server.settings && !OnStart(e.server.pc)
    ensures e'.server.workers == e.server.workers && e'.server.sh == e.server.sh
  {
    e' := Next(e, Serve(Respond, false));
    LeadsStep(s, e, Serve(Respond, false));
  }

  lemma Proceeds(s: System, e: System, c: Client) returns (e': System)
    requires Handling(s, e, c) && TurnInv(e) && Sends(e.server.pc).None?
    ensures Handling(s, e', c) && Distance(e'.server.pc) < Distance(e.server.pc)
    ensures e'.server.settings == e.server.settings
    ensures if OnStart(e.server.pc) then OnStart(e'.server.pc) || Fresh(e'.server)
            else !OnStart(e'.server.pc) && e'.server.workers == e.server.workers && e'.server.sh == e.server.sh
  {
    HandlerProceeds(e.server);
    e' := Serves(s, e, Proceed);
  }

  /** The handler runs to its reply. */
  lemma Replies(s: System, e: System, c: Client) returns (e': System)
    requires Handling(s, e, c)
    ensures Leads(s, e') && e'.client == c && e'.refused == 0 && e'.wire.Replied? && !e'.server.sh.stop
    ensures e'.server.settings == e.server.settings
    ensures if OnStart(e.server.pc) then Fresh(e'.server)
            else e'.server.workers == e.server.workers && e'.server.sh == e.server.sh
    decreases Distance(e.server.pc)
  {
    OccursTurn(e);
    if Sends(e.server.pc).Some? {
      e' := Responds(s, e, c);
    } else {
      e' := Proceeds(s, e, c);
      e' := Replies(s, e', c);
    }
  }

  /** Before its run: no worker yet, and what this document asks for fits. */
  ghost predicate Calm(s: System, e: System, c: Client, d: Document) {
    && Leads(s, e) && e.client == c && e.refused == 0 && !e.server.sh.stop && e.server.workers == []
    && Roomy(e.server.sh.hw.dma, Or(d.nReads, 1024))
    && Or(d.nReads, e.server.settings.nReads) == Or(d.nReads, 1024)
  }

  /** A request that is part of the client's program. */
  predicate Ordinary(r: Request, d: Document) {
    !r.CmdStop? && (r.Data? ==> r.document == d)
  }

  lemma Asks(s: System, e: System, c: Client, d: Document) returns (e': System, c': Client)
    requires Calm(s, e, c, d) && c.pending != [] && !c.awaiting
    ensures Calm(s, e', c', d) && c' == c.(awaiting := true, asked := c.asked + [c.pending[0]])
    ensures e'.wire == Requested(c.pending[0])
  {
    OccursTurn(e);
    e' := Next(e, Ask);
    LeadsStep(s, e, Ask);
    c' := e'.client;
  }

  lemma Accepts(s: System, e: System, c: Client, d: Document, r: Request) returns (e': System)
    requires Calm(s, e, c, d) && e.wire == Requested(r) && Ordinary(r, d)
    ensures Handling(s, e', c) && e'.server.workers == [] && e'.server.sh == e.server.sh
    ensures OnStart(e'.server.pc) <==> r.CmdStart?
    ensures e'.server.settings == if r.Data? then Merge(e.server.settings, d) else e.server.settings
  {
    OccursTurn(e);
    e' := Next(e, Serve(Recv(r), false));
    LeadsStep(s, e, Serve(Recv(r), false));
  }

  lemma Hears(s: System, e: System, c: Client) returns (e': System, c': Client)
    requires Leads(s, e) && e.client == c && e.wire.Replied?
    ensures c.pending != [] && Leads(s, e') && e'.client == c' && e'.server == e.server && e'.refused == e.refused
    ensures c' == HearReply(c, e.wire.reply, e.taken)
  {
    OccursTurn(e);
    e' := Next(e, Hear);
    LeadsStep(s, e, Hear);
    c' := e'.client;
  }

  /** One exchange, whatever it is for. */
  lemma Exchange(s: System, e: System, c: Client, d: Document) returns (e': System, c': Client)
    requires Calm(s, e, c, d) && c.pending != [] && !c.awaiting && Ordinary(c.pending[0], d)
    ensures Leads(s, e') && e'.client == c' && e'.refused == 0 && !e'.server.sh.stop
    ensures c'.pending == c.pending[1..] && !c'.awaiting
    ensures c'.script == c.script && c'.begun == c.begun && c'.nEvts == c.nEvts
    ensures if c.starting && |c.pending| == 1 then c'.looping && !c'.starting && c'.i == 0 && c'.interrupted == 0
            else c'.looping == c.looping && c'.starting == c.starting
    ensures if c.pending[0].CmdStart? then Fresh(e'.server) else Calm(s, e', c', d)
  {
    var asked, ca := Asks(s, e, c, d);
    var handling := Accepts(s, asked, ca, d, c.pending[0]);
    var replied := Replies(s, handling, ca);
    e', c' := Hears(s, replied, ca);
  }

  /** The exchanges of a call that starts nothing. */
  lemma Drains(s: System, e: System, c: Client, d: Document) returns (e': System, c': Client)
    requires Calm(s, e, c, d) && !c.awaiting && !c.looping && !c.starting
    requires forall k :: 0 <= k < |c.pending| ==> Ordinary(c.pending[k], d) && !c.pending[k].CmdStart?
    ensures Calm(s, e', c', d) && BetweenCalls(c')
    ensures c'.script == c.script && c'.begun == c.begun && c'.nEvts == c.nEvts
    decreases |c.pending|
  {
    e', c' := e, c;
    if c.pending != [] {
      e', c' := Exchange(s, e, c, d);
      e', c' := Drains(s, e', c', d);
    }
  }

  lemma Begins(s: System, e: System, c: Client, d: Document) returns (e': System, c': Client)
    requires Calm(s, e, c, d) && BetweenCalls(c) && c.script != []
    ensures Calm(s, e', c', d) && c' == BeginCall(c)
  {
    e' := Next(e, Begin);
    LeadsStep(s, e, Begin);
    c' := e'.client;
  }

  /** A call of the client's program before its run. */
  lemma Calls(s: System, e: System, c: Client, d: Document) returns (e': System, c': Client)
    requires Calm(s, e, c, d) && BetweenCalls(c) && c.script != []
    requires c.script[0] == SendConfig(d) || c.script[0].SetBias? || c.script[0].ReadTemp?
    ensures Calm(s, e', c', d) && BetweenCalls(c')
    ensures c'.script == c.script[1..] && c'.begun == c.begun + [c.script[0]] && c'.nEvts == c.nEvts
  {
    var begun, cb := Begins(s, e, c, d);
    e', c' := Drains(s, begun, cb, d);
  }

  /** The start of the run. */
  lemma Starting(s: System, e: System, c: Client, d: Document) returns (e': System, c': Client)
    requires Calm(s, e, c, d) && BetweenCalls(c) && c.script == [StartRun]
    ensures Leads(s, e') && e'.client == c' && e'.refused == 0 && !e'.server.sh.stop && Fresh(e'.server)
    ensures InLoop(c') && c'.i == 0 && c'.interrupted == 0
    ensures c'.begun == c.begun + [StartRun] && c'.nEvts == c.nEvts
  {
    var begun, cb := Begins(s, e, c, d);
    e', c' := Exchange(s, begun, cb, d);
  }

  /** The program up to the start. */
  lemma Prepares(s: System, e: System, c: Client, d: Document) returns (e': System, c': Client)
    requires Calm(s, e, c, d) && BetweenCalls(c) && c.script == MainCalls(d) && c.begun == []
    ensures Calm(s, e', c', d) && BetweenCalls(c') && c'.script == [StartRun] && c'.nEvts == c.nEvts
    ensures c'.begun + [StartRun] == MainCalls(d)
  {
    e', c' := Calls(s, e, c, d);
    e', c' := Calls(s, e', c', d);
    e', c' := Calls(s, e', c', d);
    e', c' := Calls(s, e', c', d);
  }

  /** The run is the one that the document asks for. */
  lemma RunIsAsked(s: System, e: System, c: Client, d: Document)
    requires Leads(s, e) && e.client == c && c.pending == [] && c.begun == MainCalls(d) && |e.server.workers| == 1
    requires d.numTriggers.Some?
    ensures Starts(c.asked) == 1
    ensures e.server.workers[0].fields.numTriggers == d.numTriggers.value
    ensures e.server.workers[0].srcs == Sources(Or(d.chipMask, Octet(0xff)))
  {
    MainHistory(d);
    CallsAreAnswered(e);
    DocumentsArrive(e);
    OccursStarted(e);
    assert RunsWith(e.server.workers[0], e.server.leftover, e.server.started[0]);
    SettingsOf(e.server.workers[0], e.server.leftover, d);
  }

  lemma PoweredUpCalm(s: System, d: Document)
    requires PoweredUp(s) && Roomy(s.server.sh.hw.dma, Or(d.nReads, 1024))
    ensures Calm(s, s, s.client, d) && BetweenCalls(s.client) && s.client.begun == []
  {
    assert Behaves(s, []) && Outcome(s, []) == s;
  }

  lemma MainRuns(s: System, d: Document) returns (e: System)
    requires PoweredUp(s) && Roomy(s.server.sh.hw.dma, Or(d.nReads, 1024))
    requires s.client.script == MainCalls(d) && d.numTriggers == Some(s.client.nEvts) && s.client.nEvts >= 0
    requires Rank(Or(d.chipMask, Octet(0xff)), 8) > 0
    ensures Leads(s, e) && MainEnded(e, d)
  {
    PoweredUpCalm(s, d);
    var ready, cr := Prepares(s, s, s.client, d);
    var started, cs := Starting(s, ready, cr, d);
    RunIsAsked(s, started, cs, d);
    var head := ReachesHead(s, started, cs);
    var over, co := Rounds(s, head, cs);
    e := Finishes(s, over, co);
  }

  /** From every power-up on a board with room for it, for every document with at least one chip and a trigger count
      that is not negative, the client's program can come to its end. */
  lemma MainCanEnd(s: System, d: Document)
    requires PoweredUp(s) && Roomy(s.server.sh.hw.dma, Or(d.nReads, 1024))
    requires s.client.script == MainCalls(d) && d.numTriggers == Some(s.client.nEvts) && s.client.nEvts >= 0
    requires Rank(Or(d.chipMask, Octet(0xff)), 8) > 0
    ensures exists e :: Leads(s, e) && MainEnded(e, d)
  {
    var e := MainRuns(s, d);
  }
}
