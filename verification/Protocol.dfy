/** The client and the server together: one request-reply channel, one data queue, any script of client calls. */
module Protocol {
  import opened Words
  import opened Reads
  import opened Worker
  import opened Config
  import opened Requests
  import opened Server
  import opened Safety

  // ---------- the client ----------

  datatype Call = SendConfig(document: Document) | SetBias | ReadTemp(channel: int) | StartRun | StopRun

  /** The requests that a call sends, one exchange each. */
  function Exchanges(c: Call): seq<Request> {
    match c
    case SendConfig(d) => [CmdConfig, Data(d)]
    case SetBias => [CmdBias]
    case ReadTemp(n) => [CmdTemp, Channel(if n == 1 then '1' else '2')]
    case StartRun => [CmdStart]
    case StopRun => [CmdStop]
  }

  /** The client.  `pending` is what its current call still has to exchange; `awaiting` says that the first of it has
      been sent.  `i` is the loop counter of `startRun`.  The rest is history: the calls begun, the requests sent
      and replies heard, where in the data queue the run began, the messages it wrote, how many receives were
      interrupted or thrown away, and whether the run ended by itself or by the stop flag. */
  datatype Client = Client(
    script: seq<Call>, pending: seq<Request>, awaiting: bool,
    nEvts: i32, starting: bool, looping: bool, i: nat,
    begun: seq<Call>, asked: seq<Request>, heard: seq<Reply>,
    base: nat, written: seq<seq<u32>>, interrupted: nat, dropped: nat, finished: bool, stopped: bool)

  datatype Wire = Quiet | Requested(request: Request) | Serving | Replied(reply: Reply)

  /** `accepted` is everything the data queue ever took, `taken` how much of it the client has received, `refused`
      how many sends were refused. */
  datatype System = System(
    client: Client, wire: Wire, server: Server, accepted: seq<seq<u32>>, taken: nat, refused: nat)

  datatype Step =
    | Begin | Ask | Hear                           // the client's calls
    | LoopEnds | LoopTakes(stop: bool) | LoopInterrupted(stop: bool)
    | Serve(action: Action, refuse: bool)          // anything on the server's side

  predicate BetweenCalls(c: Client) {
    c.pending == [] && !c.awaiting && !c.looping && !c.starting
  }

  predicate InLoop(c: Client) {
    c.looping && c.pending == [] && !c.awaiting
  }

  predicate WantsMore(c: Client) {
    c.i < c.nEvts || c.nEvts < 0
  }

  ghost predicate Possible(s: System, a: Step) {
    var c := s.client;
    match a
    case Begin => BetweenCalls(c) && c.script != []
    case Ask => c.pending != [] && !c.awaiting && s.wire.Quiet?
    case Hear => c.awaiting && c.pending != [] && s.wire.Replied?
    case LoopEnds => InLoop(c) && !WantsMore(c)
    case LoopTakes(_) => InLoop(c) && WantsMore(c) && s.taken < |s.accepted|
    case LoopInterrupted(_) => InLoop(c) && WantsMore(c)
    case Serve(b, refuse) =>
      && Can(s.server, b)
      && (b.Recv? ==> s.wire == Requested(b.request))
      && (b.Respond? ==> s.wire.Serving?)
  }

  function BeginCall(c: Client): Client
    requires c.script != []
  {
    c.(script := c.script[1..], pending := Exchanges(c.script[0]), starting := c.script[0].StartRun?,
       begun := c.begun + [c.script[0]])
  }

  /** `stopRun`, called from the receive loop. */
  function StopFromLoop(c: Client): Client {
    c.(looping := false, stopped := true, pending := Exchanges(StopRun), begun := c.begun + [StopRun])
  }

  function HearReply(c: Client, r: Reply, taken: nat): Client
    requires c.pending != []
  {
    var d := c.(pending := c.pending[1..], awaiting := false, heard := c.heard + [r]);
    if c.starting && |c.pending| == 1
    then d.(starting := false, looping := true, i := 0, base := taken, written := [], interrupted := 0, dropped := 0,
            finished := false, stopped := false)
    else d
  }

  function Next(s: System, a: Step): System
    requires Possible(s, a)
  {
    var c := s.client;
    match a
    case Begin => s.(client := BeginCall(c))
    case Ask => s.(client := c.(awaiting := true, asked := c.asked + [c.pending[0]]), wire := Requested(c.pending[0]))
    case Hear => s.(client := HearReply(c, s.wire.reply, s.taken), wire := Quiet)
    case LoopEnds => s.(client := c.(looping := false, finished := true))
    case LoopTakes(stop) =>
      s.(client := if stop then StopFromLoop(c).(dropped := c.dropped + 1)
                   else c.(i := c.i + 1, written := c.written + [s.accepted[s.taken]]),
         taken := s.taken + 1)
    case LoopInterrupted(stop) =>
      s.(client := if stop then StopFromLoop(c) else c.(i := c.i + 1, interrupted := c.interrupted + 1))
    case Serve(b, refuse) =>
      var sends := b.Work? && s.server.workers[b.id].pc.Send?;
      s.(server := Apply(s.server, b),
         wire := if b.Recv? then Serving else if b.Respond? then Replied(Sends(s.server.pc).value) else s.wire,
         accepted := if sends && !refuse then s.accepted + [s.server.workers[b.id].pc.message] else s.accepted,
         refused := if sends && refuse then s.refused + 1 else s.refused)
  }

  /** Both ends have just come up; the script and the client's trigger count are anything. */
  ghost predicate PoweredUp(s: System) {
    && Init(s.server) && s.wire.Quiet? && s.accepted == [] && s.taken == s.refused == 0
    && s.client == Client([], [], false, 0, false, false, 0, [], [], [], 0, [], 0, 0, false, false)
                   .(script := s.client.script, nEvts := s.client.nEvts)
  }

  // ---------- taking turns ----------

  /** Somebody is about to use the channel out of turn: the client sends before it heard the last reply, or the server
      receives before it replied or replies without a request. */
  predicate OutOfTurn(s: System) {
    || (s.client.pending != [] && !s.client.awaiting && !s.wire.Quiet?)
    || (Receives(s.server.pc) && s.wire.Serving?)
    || (Sends(s.server.pc).Some? && !s.wire.Serving?)
  }

  /** What is left of some call. */
  predicate Commands(p: seq<Request>) {
    || p == [] || p == [CmdStart] || p == [CmdStop] || p == [CmdBias]
    || (|p| == 2 && p[0].CmdConfig? && p[1].Data?)
    || (|p| == 2 && p[0].CmdTemp? && p[1].Channel? && ValidChannel(p[1].c))
  }

  /** The server waits for just the requests that are left. */
  predicate Expects(pc: CtrlPc, p: seq<Request>) {
    || (pc.Idle? && Commands(p))
    || (pc.ConfigRecv? && |p| == 1 && p[0].Data?)
    || (pc.TempRecv? && |p| == 1 && p[0].Channel? && ValidChannel(p[0].c))
  }

  function ReplyTo(r: Request): Reply {
    match r
    case CmdStart => Running
    case CmdStop => Stopped
    case CmdConfig => ReadyMsg
    case Data(_) => Configured
    case CmdTemp => ReadyMsg
    case Channel(c) => if ValidChannel(c) then Voltage else TempError
    case CmdBias => ReadyMsg
    case Unknown => UnknownCmd
  }

  /** The server is in the handler of the first request that is left. */
  predicate Handles(pc: CtrlPc, p: seq<Request>) {
    match pc
    case StopRaise => p == [CmdStop]
    case StopJoin => p == [CmdStop]
    case ConfigReady => |p| == 2 && p[0].CmdConfig? && p[1].Data?
    case TempReady => |p| == 2 && p[0].CmdTemp? && p[1].Channel? && ValidChannel(p[1].c)
    case TempCheck(c) => p == [Channel(c)] && ValidChannel(c)
    case TempMeasure => |p| == 1 && p[0].Channel? && ValidChannel(p[0].c)
    case Answer(r) => |p| == 1 && r == ReplyTo(p[0])
    case _ => p == [CmdStart] && !Receives(pc)
  }

  /** Who is where in the current exchange. */
  predicate TurnInv(s: System) {
    var p, pc := s.client.pending, s.server.pc;
    match s.wire
    case Quiet => !s.client.awaiting && Expects(pc, p)
    case Requested(r) => s.client.awaiting && p != [] && r == p[0] && Expects(pc, p)
    case Serving => s.client.awaiting && p != [] && Handles(pc, p)
    case Replied(r) => s.client.awaiting && p != [] && r == ReplyTo(p[0]) && Expects(pc, p[1..])
  }

  lemma TurnSocket(s: System, b: Action, refuse: bool)
    requires TurnInv(s) && Possible(s, Serve(b, refuse)) && (b.Recv? || b.Respond?)
    ensures TurnInv(Next(s, Serve(b, refuse)))
  {
  }

  lemma TurnProceed(s: System, refuse: bool)
    requires TurnInv(s) && Possible(s, Serve(Proceed, refuse))
    ensures TurnInv(Next(s, Serve(Proceed, refuse)))
  {
  }

  lemma TurnServe(s: System, b: Action, refuse: bool)
    requires TurnInv(s) && Possible(s, Serve(b, refuse))
    ensures TurnInv(Next(s, Serve(b, refuse)))
  {
    if b.Recv? || b.Respond? {
      TurnSocket(s, b, refuse);
    } else if b.Proceed? {
      TurnProceed(s, refuse);
    }
  }

  lemma TurnClient(s: System, a: Step)
    requires TurnInv(s) && Possible(s, a) && !a.Serve?
    ensures TurnInv(Next(s, a))
  {
  }

  lemma TurnStep(s: System, a: Step)
    requires TurnInv(s) && Possible(s, a)
    ensures TurnInv(Next(s, a))
  {
    if a.Serve? {
      TurnServe(s, a.action, a.refuse);
    } else {
      TurnClient(s, a);
    }
  }

  lemma TurnsKept(s: System)
    requires TurnInv(s)
    ensures !OutOfTurn(s)
  {
  }

  // ---------- one reply per request ----------

  /** The replies that the control thread sends, from `pc` on, before it receives again. */
  function RepliesFrom(pc: CtrlPc): seq<Reply>
    decreases Distance(pc)
  {
    if Receives(pc) then []
    else if Sends(pc).Some? then [Sends(pc).value] + RepliesFrom(AfterSend(pc))
    else RepliesFrom(NextPc(pc))
  }

  /** Steps left until the control thread receives again. */
  function Distance(pc: CtrlPc): nat {
    match pc
    case StartJoin => 8
    case StartJoin2 => 7
    case StartFields => 6
    case StartHardware => 5
    case StartRegisters => 4
    case StartJoin3 => 3
    case StartSpawn => 2
    case StopRaise => 3
    case StopJoin => 2
    case ConfigReady => 1
    case TempReady => 1
    case TempCheck(_) => 3
    case TempMeasure => 2
    case Answer(_) => 1
    case _ => 0
  }

  /** The replies still to come at each point of a handler. */
  function Due(pc: CtrlPc): seq<Reply> {
    match pc
    case StopRaise => [Stopped]
    case StopJoin => [Stopped]
    case ConfigReady => [ReadyMsg]
    case TempReady => [ReadyMsg]
    case TempCheck(c) => if c == '1' || c == '2' then [Voltage] else [TempError, Voltage]
    case TempMeasure => [Voltage]
    case Answer(r) => [r]
    case _ => if Receives(pc) then [] else [Running]
  }

  lemma {:induction false} RepliesOf(pc: CtrlPc)
    ensures RepliesFrom(pc) == Due(pc)
    decreases Distance(pc)
  {
    if !Receives(pc) {
      if Sends(pc).None? {
        RepliesOf(NextPc(pc));
      } else {
        RepliesOf(AfterSend(pc));
      }
    }
  }

  /** What each request is answered with.  A configuration and a channel are only read as such by the handler that waits
      for one; a temperature request for a channel other than '1' and '2' is answered twice, since the error reply does
      not end the handler. */
  lemma RepliesPerRequest(pc: CtrlPc, r: Request)
    requires Receives(pc)
    ensures pc.Idle? ==> RepliesFrom(Dispatch(pc, r))
                         == if r.CmdStart? then [Running] else if r.CmdStop? then [Stopped]
                            else if r.CmdConfig? || r.CmdTemp? || r.CmdBias? then [ReadyMsg] else [UnknownCmd]
    ensures pc.ConfigRecv? ==> RepliesFrom(Dispatch(pc, r)) == [Configured]
    ensures pc.TempRecv? ==> RepliesFrom(Dispatch(pc, r))
                             == if r == Channel('1') || r == Channel('2') then [Voltage] else [TempError, Voltage]
  {
    RepliesOf(Dispatch(pc, r));
  }

  /** So there is one reply per request, except for an invalid channel. */
  lemma OneReplyEach(pc: CtrlPc, r: Request)
    requires Receives(pc)
    ensures |RepliesFrom(Dispatch(pc, r))| == 1 <==> !(pc.TempRecv? && r != Channel('1') && r != Channel('2'))
  {
    RepliesPerRequest(pc, r);
  }

  // ---------- what was asked and heard ----------

  function AllExchanges(calls: seq<Call>): seq<Request> {
    if calls == [] then [] else AllExchanges(calls[..|calls| - 1]) + Exchanges(calls[|calls| - 1])
  }

  /** What the client has yet to send of the calls it has begun. */
  function Unsent(c: Client): seq<Request> {
    if c.awaiting && c.pending != [] then c.pending[1..] else c.pending
  }

  /** The requests sent are the exchanges of the calls begun, in order, and each reply heard answers its request. */
  ghost predicate HistoryInv(c: Client) {
    && c.asked + Unsent(c) == AllExchanges(c.begun)
    && |c.heard| == |c.asked| - (if c.awaiting then 1 else 0)
    && (forall k :: 0 <= k < |c.heard| ==> c.heard[k] == ReplyTo(c.asked[k]))
    && (c.awaiting ==> c.pending != [] && c.asked != [] && c.asked[|c.asked| - 1] == c.pending[0])
    && (c.looping ==> c.pending == [] && !c.awaiting)
    && (c.starting <==> c.pending != [] && c.pending[0].CmdStart?)
    && (c.starting ==> |c.pending| == 1)
    && (|c.pending| > 1 ==> |c.pending| == 2 && !c.pending[1].CmdStart?)
  }

  lemma AllExchangesStep(calls: seq<Call>, c: Call)
    ensures AllExchanges(calls + [c]) == AllExchanges(calls) + Exchanges(c)
  {
    assert (calls + [c])[..|calls|] == calls;
  }

  lemma HistoryBegin(c: Client)
    requires HistoryInv(c) && BetweenCalls(c) && c.script != []
    ensures HistoryInv(BeginCall(c))
  {
    AllExchangesStep(c.begun, c.script[0]);
  }

  lemma HistoryStop(c: Client)
    requires HistoryInv(c) && InLoop(c)
    ensures HistoryInv(StopFromLoop(c))
  {
    AllExchangesStep(c.begun, StopRun);
  }

  lemma HistoryAsk(s: System)
    requires HistoryInv(s.client) && Possible(s, Ask)
    ensures HistoryInv(Next(s, Ask).client)
  {
    var c := s.client;
    assert c.asked + c.pending == (c.asked + [c.pending[0]]) + c.pending[1..];
  }

  lemma HistoryHear(s: System)
    requires HistoryInv(s.client) && TurnInv(s) && Possible(s, Hear)
    ensures HistoryInv(Next(s, Hear).client)
  {
    HistoryHeard(s.client, s.wire.reply, s.taken);
  }

  lemma HistoryHeard(c: Client, r: Reply, taken: nat)
    requires HistoryInv(c) && c.awaiting && r == ReplyTo(c.pending[0])
    ensures HistoryInv(HearReply(c, r, taken))
  {
    var d := HearReply(c, r, taken);
    assert d.pending == c.pending[1..] && d.heard == c.heard + [r];
    assert Unsent(d) == Unsent(c);
    assert |c.pending| == 1 ==> d.pending == [];
  }

  lemma HistoryStep(s: System, a: Step)
    requires HistoryInv(s.client) && TurnInv(s) && Possible(s, a)
    ensures HistoryInv(Next(s, a).client)
  {
    match a
    case Begin => HistoryBegin(s.client);
    case Ask => HistoryAsk(s);
    case Hear => HistoryHear(s);
    case LoopTakes(stop) => if stop { HistoryStop(s.client); }
    case LoopInterrupted(stop) => if stop { HistoryStop(s.client); }
    case _ =>
  }

  // ---------- the data queue ----------

  /** `a` is what is left of `b` when some elements are left out. */
  ghost predicate Subsequence<T>(a: seq<T>, b: seq<T>) {
    a == [] || (b != [] && (|| Subsequence(a, b[..|b| - 1])
                            || (a[|a| - 1] == b[|b| - 1] && Subsequence(a[..|a| - 1], b[..|b| - 1]))))
  }

  lemma SubsequenceStep<T>(a: seq<T>, b: seq<T>, x: T)
    requires Subsequence(a, b)
    ensures Subsequence(a, b + [x]) && Subsequence(a + [x], b + [x])
  {
    assert (b + [x])[..|b|] == b && (a + [x])[..|a|] == a;
  }

  /** The queue took a subsequence of what the workers produced, all of it if nothing was refused; the client has
      written, in order, what it received since its run began. */
  ghost predicate QueueInv(s: System) {
    var c := s.client;
    && Subsequence(s.accepted, s.server.produced)
    && (s.refused == 0 ==> s.accepted == s.server.produced)
    && c.base + |c.written| + c.dropped == s.taken <= |s.accepted|
    && c.written == s.accepted[c.base..c.base + |c.written|]
    && (c.looping ==> c.i == |c.written| + c.interrupted && !c.finished && (c.nEvts >= 0 ==> c.i <= c.nEvts))
    && (c.looping || c.finished ==> !c.stopped)
    && c.dropped <= (if c.stopped then 1 else 0)
    && (c.finished ==> c.i == |c.written| + c.interrupted == c.nEvts)
  }

  /** A worker offers a message to the queue. */
  lemma QueueOffers(s: System, t: System, m: seq<u32>, refuse: bool)
    requires QueueInv(s) && t.client == s.client && t.taken == s.taken
    requires t.server.produced == s.server.produced + [m]
    requires t.accepted == if refuse then s.accepted else s.accepted + [m]
    requires t.refused == if refuse then s.refused + 1 else s.refused
    ensures QueueInv(t)
  {
    SubsequenceStep(s.accepted, s.server.produced, m);
    assert t.accepted[..|s.accepted|] == s.accepted;
    var c := s.client;
    assert t.accepted[c.base..c.base + |c.written|] == s.accepted[c.base..c.base + |c.written|];
  }

  lemma QueueServe(s: System, b: Action, refuse: bool)
    requires QueueInv(s) && Possible(s, Serve(b, refuse))
    ensures QueueInv(Next(s, Serve(b, refuse)))
  {
    if b.Work? {
      if s.server.workers[b.id].pc.Send? {
        QueueOffers(s, Next(s, Serve(b, refuse)), s.server.workers[b.id].pc.message, refuse);
      }
    } else {
      WorkersAfter(s.server, b);
    }
  }

  lemma SliceGrows<T>(a: seq<T>, lo: nat, hi: nat)
    requires lo <= hi < |a|
    ensures a[lo..hi] + [a[hi]] == a[lo..hi + 1]
  {
  }

  lemma QueueTakes(s: System, stop: bool)
    requires QueueInv(s) && Possible(s, LoopTakes(stop))
    ensures QueueInv(Next(s, LoopTakes(stop)))
  {
    SliceGrows(s.accepted, s.client.base, s.taken);
  }

  lemma QueueClient(s: System, a: Step)
    requires QueueInv(s) && HistoryInv(s.client) && Possible(s, a) && !a.Serve? && !a.LoopTakes?
    ensures QueueInv(Next(s, a))
  {
  }

  lemma QueueStep(s: System, a: Step)
    requires QueueInv(s) && HistoryInv(s.client) && Possible(s, a)
    ensures QueueInv(Next(s, a))
  {
    if a.Serve? {
      QueueServe(s, a.action, a.refuse);
    } else if a.LoopTakes? {
      QueueTakes(s, a.stop);
    } else {
      QueueClient(s, a);
    }
  }

  // ---------- one run, one worker ----------

  function Starts(rs: seq<Request>): nat {
    if rs == [] then 0 else Starts(rs[..|rs| - 1]) + (if rs[|rs| - 1].CmdStart? then 1 else 0)
  }

  /** The last start requested has not been carried out yet. */
  predicate StartUnderway(s: System) {
    s.wire == Requested(CmdStart) || Exclusive(s.server.pc) || s.server.pc.StartJoin?
  }

  /** Every start request spawns one worker, and the first run of the client finds the data queue untouched. */
  ghost predicate StartsInv(s: System) {
    var n := Starts(s.client.asked);
    && n == |s.server.workers| + (if StartUnderway(s) then 1 else 0)
    && (n == 0 || (n == 1 && s.client.starting && s.client.awaiting) ==>
          s.taken == 0 && !s.client.looping && !s.client.finished)
    && (n <= 1 ==> s.client.base == 0)
  }

  lemma StartsServe(s: System, b: Action, refuse: bool)
    requires StartsInv(s) && TurnInv(s) && Possible(s, Serve(b, refuse))
    ensures StartsInv(Next(s, Serve(b, refuse)))
  {
    if !b.Work? {
      WorkersAfter(s.server, b);
    }
  }

  lemma StartsAsk(s: System)
    requires StartsInv(s) && TurnInv(s) && HistoryInv(s.client) && Possible(s, Ask)
    ensures StartsInv(Next(s, Ask))
  {
    var c := s.client;
    assert (c.asked + [c.pending[0]])[..|c.asked|] == c.asked;
  }

  lemma StartsClient(s: System, a: Step)
    requires StartsInv(s) && TurnInv(s) && HistoryInv(s.client) && Possible(s, a) && !a.Serve? && !a.Ask?
    ensures StartsInv(Next(s, a))
  {
    if a.Hear? && s.client.starting {
      assert s.client.asked[|s.client.asked| - 1] == CmdStart;
    }
  }

  lemma StartsStep(s: System, a: Step)
    requires StartsInv(s) && TurnInv(s) && HistoryInv(s.client) && Possible(s, a)
    ensures StartsInv(Next(s, a))
  {
    match a
    case Serve(b, refuse) => StartsServe(s, b, refuse);
    case Ask => StartsAsk(s);
    case _ => StartsClient(s, a);
  }

  // ---------- what the server was told, and when ----------

  function Docs(rs: seq<Request>): seq<Document> {
    if rs == [] then []
    else Docs(rs[..|rs| - 1]) + (if rs[|rs| - 1].Data? then [rs[|rs| - 1].document] else [])
  }

  /** For each start requested, the documents sent before it. */
  function StartDocs(rs: seq<Request>): seq<seq<Document>> {
    if rs == [] then []
    else StartDocs(rs[..|rs| - 1]) + (if rs[|rs| - 1].CmdStart? then [Docs(rs[..|rs| - 1])] else [])
  }

  /** The document on its way to the server, if any. */
  function InFlight(w: Wire): seq<Document> {
    if w.Requested? && w.request.Data? then [w.request.document] else []
  }

  /** The server has received the documents that the client sent, but for one on its way, and has started each run
      with those that were sent before its start. */
  ghost predicate DocsInv(s: System) {
    && Docs(s.client.asked) == s.server.documents + InFlight(s.wire)
    && StartDocs(s.client.asked) == s.server.started + (if StartUnderway(s) then [s.server.documents] else [])
  }

  lemma DocsAppend(rs: seq<Request>, r: Request)
    ensures Docs(rs + [r]) == Docs(rs) + (if r.Data? then [r.document] else [])
    ensures StartDocs(rs + [r]) == StartDocs(rs) + (if r.CmdStart? then [Docs(rs)] else [])
  {
    assert (rs + [r])[..|rs|] == rs;
  }

  lemma DocsAsk(s: System)
    requires DocsInv(s) && TurnInv(s) && Possible(s, Ask)
    ensures DocsInv(Next(s, Ask))
  {
    var c := s.client;
    DocsAppend(c.asked, c.pending[0]);
    assert !StartUnderway(s) && InFlight(s.wire) == [];
    assert s.server.started + [] == s.server.started && s.server.documents + [] == s.server.documents;
  }

  lemma DocsClient(s: System, a: Step)
    requires DocsInv(s) && TurnInv(s) && HistoryInv(s.client) && Possible(s, a) && !a.Serve? && !a.Ask?
    ensures DocsInv(Next(s, a))
  {
  }

  lemma DocsReceived(s: System, r: Request, refuse: bool)
    requires DocsInv(s) && TurnInv(s) && Possible(s, Serve(Recv(r), refuse))
    ensures DocsInv(Next(s, Serve(Recv(r), refuse)))
  {
  }

  lemma StartProceeds(s: System, refuse: bool)
    requires TurnInv(s) && Possible(s, Serve(Proceed, refuse))
    ensures StartUnderway(Next(s, Serve(Proceed, refuse))) == (StartUnderway(s) && !s.server.pc.StartSpawn?)
    ensures s.server.pc.StartSpawn? ==> StartUnderway(s)
  {
    ControlDocs(s.server);
  }

  lemma DocsProceed(s: System, refuse: bool)
    requires DocsInv(s) && TurnInv(s) && Possible(s, Serve(Proceed, refuse))
    ensures DocsInv(Next(s, Serve(Proceed, refuse)))
  {
    StartProceeds(s, refuse);
    ControlDocs(s.server);
  }

  lemma ControlDocs(v: Server)
    ensures Control(v).documents == v.documents
    ensures Control(v).started == if v.pc.StartSpawn? then v.started + [v.documents] else v.started
    ensures Control(v).pc == NextPc(v.pc)
  {
  }

  lemma DocsServe(s: System, b: Action, refuse: bool)
    requires DocsInv(s) && TurnInv(s) && Possible(s, Serve(b, refuse)) && !b.Recv? && !b.Proceed?
    ensures DocsInv(Next(s, Serve(b, refuse)))
  {
  }

  lemma DocsStep(s: System, a: Step)
    requires DocsInv(s) && TurnInv(s) && HistoryInv(s.client) && Possible(s, a)
    ensures DocsInv(Next(s, a))
  {
    match a
    case Serve(Recv(r), refuse) => DocsReceived(s, r, refuse);
    case Serve(Proceed, refuse) => DocsProceed(s, refuse);
    case Serve(b, refuse) => DocsServe(s, b, refuse);
    case Ask => DocsAsk(s);
    case _ => DocsClient(s, a);
  }

  // ---------- stops ----------

  /** The last of the requests that starts or stops a run is a stop. */
  predicate Halted(rs: seq<Request>) {
    rs != [] && (rs[|rs| - 1].CmdStop? || (!rs[|rs| - 1].CmdStart? && Halted(rs[..|rs| - 1])))
  }

  lemma HaltedAppend(rs: seq<Request>, r: Request)
    ensures Halted(rs + [r]) == (r.CmdStop? || (!r.CmdStart? && Halted(rs)))
  {
    assert (rs + [r])[..|rs|] == rs;
  }

  lemma {:induction false} HaltedHasStop(rs: seq<Request>) returns (k: nat)
    requires Halted(rs)
    ensures k < |rs| && rs[k] == CmdStop && forall j :: k < j < |rs| ==> rs[j] != CmdStart
  {
    if rs[|rs| - 1].CmdStop? {
      k := |rs| - 1;
    } else {
      k := HaltedHasStop(rs[..|rs| - 1]);
    }
  }

  /** A stop has been requested and is not answered yet. */
  predicate StopUnderway(s: System) {
    s.wire == Requested(CmdStop) || s.server.pc.StopRaise? || s.server.pc.StopJoin?
  }

  /** After a stop, once it has been carried out, no worker is live until the next start is requested, and the stop has
      had its effect; and a client whose run was stopped asks for that. */
  ghost predicate HaltInv(s: System) {
    && (Halted(s.client.asked) && !StopUnderway(s) ==> !Live(s.server) && StopHeard(s.server))
    && (s.client.stopped ==> || (s.client.pending == [CmdStop] && !s.client.awaiting)
                             || Halted(s.client.asked) || s.client.starting)
  }

  /** No start is being carried out after a stop. */
  lemma HaltedIsQuiet(s: System)
    requires TurnInv(s) && HistoryInv(s.client) && Halted(s.client.asked)
    ensures !StartUnderway(s)
  {
    assert s.client.awaiting ==> s.client.asked[|s.client.asked| - 1] == s.client.pending[0];
  }

  lemma HaltClient(s: System, a: Step)
    requires HaltInv(s) && TurnInv(s) && HistoryInv(s.client) && Possible(s, a) && !a.Serve? && !a.Ask?
    ensures HaltInv(Next(s, a))
  {
  }

  lemma HaltAsk(s: System)
    requires HaltInv(s) && TurnInv(s) && HistoryInv(s.client) && Possible(s, Ask)
    ensures HaltInv(Next(s, Ask))
  {
    HaltedAppend(s.client.asked, s.client.pending[0]);
  }

  /** What the server's steps do to a stop under way. */
  lemma StopProceeds(s: System, b: Action, refuse: bool)
    requires TurnInv(s) && Possible(s, Serve(b, refuse))
    ensures StopUnderway(s) && !StopUnderway(Next(s, Serve(b, refuse))) ==> b.Proceed? && s.server.pc.StopJoin?
    ensures b.Proceed? && s.server.pc.StopJoin? ==> Next(s, Serve(b, refuse)).server.pc == Answer(Stopped)
  {
  }

  lemma HaltServe(s: System, b: Action, refuse: bool)
    requires HaltInv(s) && TurnInv(s) && HistoryInv(s.client) && Possible(s, Serve(b, refuse))
    requires ThreadsInv(s.server) && CountAll(s.server)
    requires ThreadsInv(Apply(s.server, b)) && StopInv(Apply(s.server, b))
    ensures HaltInv(Next(s, Serve(b, refuse)))
  {
    var t := Next(s, Serve(b, refuse));
    StopProceeds(s, b, refuse);
    if Halted(s.client.asked) && !StopUnderway(t) {
      if StopUnderway(s) {
        StoppedRests(t.server);
      } else {
        HaltedIsQuiet(s);
        RestStays(s.server, b);
      }
    }
  }

  lemma StoppedRests(v: Server)
    requires ThreadsInv(v) && StopInv(v) && v.pc == Answer(Stopped)
    ensures !Live(v) && StopHeard(v)
  {
  }

  lemma RestStays(v: Server, b: Action)
    requires ThreadsInv(v) && CountAll(v) && Can(v, b) && !Live(v) && StopHeard(v) && !v.pc.StartSpawn?
    ensures !Live(Apply(v, b)) && StopHeard(Apply(v, b))
  {
    HeardStays(v, b);
    assert !b.Work? by {
      if b.Work? {
        OnlyLastSteps(v, b.id, b.flush);
      }
    }
    WorkersAfter(v, b);
  }

  lemma HaltStep(s: System, a: Step)
    requires HaltInv(s) && TurnInv(s) && HistoryInv(s.client) && Safety.Inv(s.server) && Possible(s, a)
    requires a.Serve? ==> Safety.Inv(Apply(s.server, a.action))
    ensures HaltInv(Next(s, a))
  {
    match a
    case Serve(b, refuse) => HaltServe(s, b, refuse);
    case Ask => HaltAsk(s);
    case _ => HaltClient(s, a);
  }

  // ---------- every behaviour of client and server ----------

  ghost predicate SystemInv(s: System) {
    && Safety.Inv(s.server)
    && TurnInv(s) && HistoryInv(s.client) && QueueInv(s) && StartsInv(s) && DocsInv(s)
    && HaltInv(s)
  }

  lemma ClientStart(s: System)
    requires PoweredUp(s)
    ensures TurnInv(s) && HistoryInv(s.client) && QueueInv(s)
  {
  }

  lemma RunsStart(s: System)
    requires PoweredUp(s)
    ensures StartsInv(s) && DocsInv(s) && HaltInv(s)
  {
  }

  lemma SystemStart(s: System)
    requires PoweredUp(s)
    ensures SystemInv(s)
  {
    InitInv(s.server);
    ClientStart(s);
    RunsStart(s);
  }

  lemma SystemStep(s: System, a: Step)
    requires SystemInv(s) && Possible(s, a)
    ensures SystemInv(Next(s, a))
  {
    if a.Serve? {
      StepInv(s.server, a.action);
    }
    TurnStep(s, a);
    HistoryStep(s, a);
    QueueStep(s, a);
    StartsStep(s, a);
    DocsStep(s, a);
    HaltStep(s, a);
  }

  /** `steps` is a possible behaviour of the two from `s`. */
  ghost predicate Behaves(s: System, steps: seq<Step>)
    decreases |steps|, 0
  {
    steps == [] || (Behaves(s, steps[..|steps| - 1]) && Possible(Outcome(s, steps[..|steps| - 1]), steps[|steps| - 1]))
  }

  ghost function Outcome(s: System, steps: seq<Step>): System
    requires Behaves(s, steps)
    decreases |steps|, 1
  {
    if steps == [] then s else Next(Outcome(s, steps[..|steps| - 1]), steps[|steps| - 1])
  }

  lemma {:induction false} AlwaysInv(s: System, steps: seq<Step>)
    requires PoweredUp(s) && Behaves(s, steps)
    ensures SystemInv(Outcome(s, steps))
  {
    if steps == [] {
      SystemStart(s);
    } else {
      AlwaysInv(s, steps[..|steps| - 1]);
      SystemStep(Outcome(s, steps[..|steps| - 1]), steps[|steps| - 1]);
    }
  }

  /** `e` is the state of the two after some behaviour from power-up. */
  ghost predicate Occurs(e: System) {
    exists s, steps :: PoweredUp(s) && Behaves(s, steps) && Outcome(s, steps) == e
  }

  lemma OccursInv(e: System)
    requires Occurs(e)
    ensures SystemInv(e)
  {
    var s, steps :| PoweredUp(s) && Behaves(s, steps) && Outcome(s, steps) == e;
    AlwaysInv(s, steps);
  }

  /** Whatever calls the client makes, neither side ever uses the channel out of turn. */
  lemma TurnsAlternate(e: System)
    requires Occurs(e)
    ensures !OutOfTurn(e)
  {
    OccursInv(e);
    TurnsKept(e);
  }

  /** When the client is between calls, the requests sent are exactly the exchanges of the calls made, and each was
      answered once, with its own answer. */
  lemma CallsAreAnswered(e: System)
    requires Occurs(e) && e.client.pending == []
    ensures e.client.asked == AllExchanges(e.client.begun)
    ensures |e.client.heard| == |e.client.asked|
    ensures forall k :: 0 <= k < |e.client.heard| ==> e.client.heard[k] == ReplyTo(e.client.asked[k])
  {
    OccursInv(e);
    assert e.client.asked + [] == e.client.asked;
  }

  lemma OccursTurn(e: System)
    requires Occurs(e)
    ensures TurnInv(e)
  {
    OccursInv(e);
  }

  lemma OccursHalt(e: System)
    requires Occurs(e)
    ensures TurnInv(e) && HistoryInv(e.client) && HaltInv(e)
  {
    OccursInv(e);
  }

  /** Request `k` was a stop, was answered as one, and no start was requested since. */
  ghost predicate LastStop(c: Client, k: nat) {
    && k < |c.asked| && k < |c.heard| && c.asked[k] == CmdStop && c.heard[k] == Stopped
    && forall j :: k < j < |c.asked| ==> c.asked[j] != CmdStart
  }

  /** Between calls, when the last of the client's requests that starts or stops a run is a stop, or its run saw the stop
      flag: a stop was requested and answered with "Stopped", no run was started since, no worker is live, and the stop
      has ended the last run or left the flag up for the next. */
  lemma StopsAreCarriedOut(e: System)
    requires Occurs(e) && e.client.pending == [] && (e.client.stopped || Halted(e.client.asked))
    ensures exists k :: LastStop(e.client, k)
    ensures !Live(e.server) && StopHeard(e.server)
  {
    OccursHalt(e);
    var k := HaltedHasStop(e.client.asked);
    CallsAreAnswered(e);
    assert LastStop(e.client, k);
  }

  lemma StopCallHalts(calls: seq<Call>)
    requires calls != [] && calls[|calls| - 1] == StopRun
    ensures Halted(AllExchanges(calls))
  {
    HaltedAppend(AllExchanges(calls[..|calls| - 1]), CmdStop);
  }

  /** A stop that the client's program calls for is one of those. */
  lemma StopRunStops(e: System)
    requires Occurs(e) && e.client.pending == [] && e.client.begun != []
    requires e.client.begun[|e.client.begun| - 1] == StopRun
    ensures exists k :: LastStop(e.client, k)
    ensures !Live(e.server) && StopHeard(e.server)
  {
    CallsAreAnswered(e);
    StopCallHalts(e.client.begun);
    StopsAreCarriedOut(e);
  }

  lemma OccursDocs(e: System)
    requires Occurs(e)
    ensures TurnInv(e) && HistoryInv(e.client) && DocsInv(e)
  {
    OccursInv(e);
  }

  /** When the client is between calls the server has received every document sent, in order, and has started one run
      per start, each with exactly the documents sent before it. */
  lemma DocumentsArrive(e: System)
    requires Occurs(e) && e.client.pending == []
    ensures e.server.documents == Docs(AllExchanges(e.client.begun))
    ensures e.server.started == StartDocs(AllExchanges(e.client.begun))
  {
    OccursDocs(e);
    CallsAreAnswered(e);
  }

  lemma OccursQueue(e: System)
    requires Occurs(e)
    ensures QueueInv(e) && ProducedInv(e.server)
  {
    OccursInv(e);
  }

  /** What the queue took is a subsequence of what the runs produced, in order, all of it when no send was refused;
      what the client has written is an uninterrupted stretch of that; and of what a run received it has written
      everything but at most one message, and that only if the run saw the stop flag. */
  lemma DataInOrder(e: System)
    requires Occurs(e)
    ensures Subsequence(e.accepted, AllMessages(e.server.workers))
    ensures e.refused == 0 ==> e.accepted == AllMessages(e.server.workers)
    ensures e.client.base + |e.client.written| + e.client.dropped == e.taken <= |e.accepted|
    ensures e.client.dropped <= if e.client.stopped then 1 else 0
    ensures e.client.written == e.accepted[e.client.base..e.client.base + |e.client.written|]
  {
    OccursQueue(e);
  }

  /** A run that ended by itself has written its trigger count less the receives that were interrupted. */
  lemma FinishedCounts(e: System)
    requires Occurs(e) && e.client.finished
    ensures |e.client.written| + e.client.interrupted == e.client.nEvts
    ensures |e.client.written| == e.client.nEvts <==> e.client.interrupted == 0
  {
    OccursQueue(e);
  }

  /** The first run of a client, no send refused, its worker spawned. */
  ghost predicate InFirstRun(e: System) {
    Occurs(e) && Starts(e.client.asked) == 1 && e.refused == 0 && e.server.workers != []
  }

  /** In the first run what is written is a prefix of what the only worker sent. */
  lemma FirstRunPrefix(e: System)
    requires InFirstRun(e)
    ensures |e.server.workers| == 1 && e.client.written <= e.server.workers[0].msgs
  {
    OccursInv(e);
    OneWorker(e);
  }

  lemma OneWorker(e: System)
    requires QueueInv(e) && StartsInv(e) && ProducedInv(e.server)
    requires Starts(e.client.asked) == 1 && e.refused == 0 && e.server.workers != []
    ensures |e.server.workers| == 1 && e.client.base == 0
    ensures e.accepted == e.server.workers[0].msgs && e.client.written <= e.server.workers[0].msgs
  {
    SingleWorker(e.server.workers);
  }

  lemma SingleWorker(w: seq<Thread>)
    requires |w| == 1
    ensures AllMessages(w) == w[0].msgs
  {
    assert AllMessages(w[..0]) == [];
  }

  /** The first run has come to its end: the receive loop was not stopped, and no receive was interrupted. */
  ghost predicate FirstRunEnded(e: System) {
    && Occurs(e) && Starts(e.client.asked) == 1 && e.refused == 0
    && e.client.finished && e.client.interrupted == 0
  }

  /** Then the client has written exactly as many messages as it counts; and all that the worker sent, if both ends
      count alike. */
  lemma FirstRunComplete(e: System)
    requires FirstRunEnded(e)
    ensures InFirstRun(e) && |e.client.written| == e.client.nEvts
    ensures e.client.written <= e.server.workers[0].msgs
    ensures e.server.workers[0].fields.numTriggers == e.client.nEvts ==> e.client.written == e.server.workers[0].msgs
  {
    OccursInv(e);
    FinishedHasWorker(e);
    OneWorker(e);
    assert CountInv(e.server.workers[0]);
  }

  lemma FinishedHasWorker(e: System)
    requires SystemInv(e) && e.client.finished && Starts(e.client.asked) == 1
    ensures e.server.workers != []
  {
  }

  /** The receive loop cannot starve: once the worker has ended without being stopped, a client that counts no further
      than it, with no send refused and no receive interrupted, finds another message as long as it wants one. */
  lemma LoopNeverStarves(e: System)
    requires InFirstRun(e) && InLoop(e.client) && WantsMore(e.client) && e.client.interrupted == 0
    requires e.server.workers[0].pc.Done? && true !in e.server.workers[0].heads
    requires 0 <= e.client.nEvts <= e.server.workers[0].fields.numTriggers
    ensures Possible(e, LoopTakes(false))
  {
    OccursInv(e);
    OneWorker(e);
    RunLength(e.server.workers[0]);
  }
}
