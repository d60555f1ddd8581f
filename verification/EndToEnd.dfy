/** From the FIFOs to the disk: what the files of a run contain. */
module EndToEnd {
  import opened Words
  import opened ChipMask
  import opened Cdma
  import opened Reads
  import opened Worker
  import opened Server
  import opened Protocol
  import opened Config
  import opened Requests
  import Rotation
  import Loop = Client

  /** The messages as the byte strings that travel over the data queue. */
  function Encoded(msgs: seq<seq<u32>>): (bytes: seq<Rotation.Message>)
    ensures |bytes| == |msgs|
  {
    if msgs == [] then [] else Encoded(msgs[..|msgs| - 1]) + [Bytes(msgs[|msgs| - 1])]
  }

  /** Everything a reader of the files does: skip the separator after every `size` bytes, and of each message keep
      `len` bytes from `off` on.  Separators cannot be searched for, since samples may contain the same byte. */
  function Recover(disk: seq<byte>, size: nat, off: nat, len: nat): seq<byte> {
    if |disk| < size + 1 || off + len > size then []
    else disk[off..off + len] + Recover(disk[size + 1..], size, off, len)
  }

  lemma FrontOf<T>(a: seq<T>, b: seq<T>, k: nat, lo: nat, len: nat)
    requires lo + len <= k <= |a|
    ensures (a + b)[k..] == a[k..] + b
    ensures (a + b)[lo..lo + len] == a[lo..lo + len]
  {
  }

  lemma {:induction false} RecoverAppend(disk: seq<byte>, count: nat, chunk: seq<byte>, size: nat, off: nat, len: nat,
                                         all: seq<byte>)
    requires |disk| == Times(size + 1, count) && |chunk| == size + 1 && off + len <= size
    requires all == disk + chunk
    ensures Recover(all, size, off, len) == Recover(disk, size, off, len) + chunk[off..off + len]
  {
    if count == 0 {
      assert all == chunk;
      RecoverLast(chunk, size, off, len);
    } else {
      TimesMonotone(size + 1, 1, count);
      FrontOf(disk, chunk, size + 1, off, len);
      var rest, tail := disk[size + 1..], all[size + 1..];
      RecoverAppend(rest, count - 1, chunk, size, off, len, tail);
      Rotation.Regroup(disk[off..off + len], Recover(rest, size, off, len), chunk[off..off + len], []);
    }
  }

  lemma RecoverLast(chunk: seq<byte>, size: nat, off: nat, len: nat)
    requires |chunk| == size + 1 && off + len <= size
    ensures Recover(chunk, size, off, len) == chunk[off..off + len]
  {
    assert |chunk[size + 1..]| == 0;
    assert Recover(chunk[size + 1..], size, off, len) == [];
  }

  ghost predicate AllOfWords(msgs: seq<seq<u32>>, w: nat) {
    forall r :: 0 <= r < |msgs| ==> |msgs[r]| == w
  }

  lemma {:induction false} CutOfPrefix(a: seq<seq<u32>>, b: seq<seq<u32>>, count: nat, lo: nat, len: nat)
    requires count <= |a| && a <= b
    ensures Cut(a, count, lo, len) == Cut(b, count, lo, len)
  {
    if count > 0 {
      CutOfPrefix(a, b, count - 1, lo, len);
    }
  }

  /** What one more message adds to the files, and to what is recovered from them. */
  lemma RecoverMessage(disk: seq<byte>, count: nat, m: seq<u32>, lo: nat, len: nat)
    requires |disk| == Times(4 * |m| + 1, count) && lo + len <= |m|
    ensures Recover(disk + Bytes(m) + [Rotation.NEWLINE], 4 * |m|, 4 * lo, 4 * len)
            == Recover(disk, 4 * |m|, 4 * lo, 4 * len) + Bytes(m[lo..lo + len])
  {
    var b := Bytes(m);
    assert disk + b + [Rotation.NEWLINE] == disk + (b + [Rotation.NEWLINE]);
    RecoverAppend(disk, count, b + [Rotation.NEWLINE], 4 * |m|, 4 * lo, 4 * len, disk + b + [Rotation.NEWLINE]);
    assert (b + [Rotation.NEWLINE])[4 * lo..4 * lo + 4 * len] == b[4 * lo..4 * lo + 4 * len];
    BytesSlice(m, lo, len, b, Bytes(m[lo..lo + len]));
  }

  /** Recovering a slice from the framed bytes is the memory image of the slices of the messages. */
  lemma {:induction false} RecoverIsCut(msgs: seq<seq<u32>>, w: nat, lo: nat, len: nat)
    requires AllOfWords(msgs, w) && lo + len <= w
    ensures |Rotation.FileBytes(Encoded(msgs))| == Times(4 * w + 1, |msgs|)
    ensures Recover(Rotation.FileBytes(Encoded(msgs)), 4 * w, 4 * lo, 4 * len) == Bytes(Cut(msgs, |msgs|, lo, len))
  {
    if msgs != [] {
      var r := |msgs| - 1;
      var m := msgs[r];
      RecoverIsCut(msgs[..r], w, lo, len);
      Rotation.FileBytesAppend(Encoded(msgs[..r]), Bytes(m));
      RecoverMessage(Rotation.FileBytes(Encoded(msgs[..r])), r, m, lo, len);
      CutOfPrefix(msgs[..r], msgs, r, lo, len);
      BytesAppend(Cut(msgs, r, lo, len), m[lo..lo + len]);
    }
  }

  /** The bytes that a run's files yield for slot `k`. */
  function Recovered(msgs: seq<seq<u32>>, max: i32, srcs: SourceList, n: nat, k: nat): seq<byte>
    requires k < |srcs|
  {
    Recover(Rotation.Disk(Rotation.Split(Encoded(msgs), max)),
            4 * Times(n, |srcs| + 1), 4 * Times(n, k), 4 * Share(n, srcs[k]))
  }

  lemma ProducedPrefix(a: seq<seq<u32>>, b: seq<seq<u32>>, fifos: seq<Fifo>, start: seq<nat>, srcs: SourceList, n: nat)
    requires a <= b && Produced(b, fifos, start, srcs, n)
    ensures Produced(a, fifos, start, srcs, n)
  {
  }

  lemma MessageSizes(msgs: seq<seq<u32>>, fifos: seq<Fifo>, start: seq<nat>, srcs: SourceList, n: nat)
    requires Produced(msgs, fifos, start, srcs, n)
    ensures AllOfWords(msgs, Times(n, |srcs| + 1))
  {
    forall r | 0 <= r < |msgs|
      ensures |msgs[r]| == Times(n, |srcs| + 1)
    {
      assert IsMessage(msgs[r], fifos, Later(start, srcs, n, r), srcs, n);
      MessageCut(msgs[r], fifos, Later(start, srcs, n, r), srcs, n, 0);
    }
  }

  /** Slot `k` of the files is the stream of its source, from `start` on, one share per message and nothing else. */
  ghost predicate FilesYield(msgs: seq<seq<u32>>, max: i32, fifos: seq<Fifo>, start: seq<nat>, srcs: SourceList, n: nat,
                             k: nat)
    requires k < |srcs|
  {
    var i := srcs[k];
    && i < |fifos| && i < |start|
    && start[i] + Times(Share(n, i), |msgs|) <= |fifos[i].stream|
    && Recovered(msgs, max, srcs, n, k) == Bytes(fifos[i].stream[start[i]..start[i] + Times(Share(n, i), |msgs|)])
  }

  lemma FilesHoldStreams(msgs: seq<seq<u32>>, fifos: seq<Fifo>, start: seq<nat>, srcs: SourceList, n: nat, max: i32,
                         k: nat)
    requires Produced(msgs, fifos, start, srcs, n) && k < |srcs|
    requires |fifos| == |start| == 9 && srcs[k] < 9 && start[srcs[k]] <= |fifos[srcs[k]].stream|
    ensures FilesYield(msgs, max, fifos, start, srcs, n, k)
  {
    Rotation.SplitConserves(Encoded(msgs), max);
    MessageSizes(msgs, fifos, start, srcs, n);
    SlotInBuffer(n, srcs, k);
    RecoverIsCut(msgs, Times(n, |srcs| + 1), Times(n, k), Share(n, srcs[k]));
    CutIsStream(msgs, fifos, start, srcs, n, k);
  }

  /** The same for whatever part of a worker's messages has been written. */
  lemma WorkerFiles(sh: Shared, t: Thread, written: seq<seq<u32>>, max: i32, k: nat)
    requires SentInv(sh, t) && written <= t.msgs && k < |t.srcs|
    ensures FilesYield(written, max, sh.hw.dma.fifos, t.start, t.srcs, t.fields.nReads, k)
  {
    AscendingBound(t.srcs, k);
    ProducedPrefix(written, t.msgs, sh.hw.dma.fifos, t.start, t.srcs, t.fields.nReads);
    FilesHoldStreams(written, sh.hw.dma.fifos, t.start, t.srcs, t.fields.nReads, max, k);
  }

  /** The whole path, for every behaviour of client, server, engine and ADC: in the client's first run, with no send
      refused, the files written so far - with any size limit, stopped or not - yield for every slot exactly what the
      FIFO of its source held from where the run began. */
  lemma FilesAreFifos(e: System, max: i32, k: nat)
    requires InFirstRun(e) && k < |e.server.workers[0].srcs|
    ensures var t := e.server.workers[0];
            FilesYield(e.client.written, max, e.server.sh.hw.dma.fifos, t.start, t.srcs, t.fields.nReads, k)
  {
    OccursInv(e);
    OneWorker(e);
    FirstWorkerFiles(e.server, e.client.written, max, k);
  }

  lemma FirstWorkerFiles(v: Server, written: seq<seq<u32>>, max: i32, k: nat)
    requires SentAll(v) && v.workers != [] && written <= v.workers[0].msgs && k < |v.workers[0].srcs|
    ensures var t := v.workers[0];
            FilesYield(written, max, v.sh.hw.dma.fifos, t.start, t.srcs, t.fields.nReads, k)
  {
    assert SentInv(v.sh, v.workers[0]);
    WorkerFiles(v.sh, v.workers[0], written, max, k);
  }

  /** From files whose messages have `slots` slots of `n` words and one more, the samples at slot `slot` are the first
      `count` shares of the stream of source `i`. */
  ghost predicate SourceYields(disk: seq<byte>, slots: nat, slot: nat, n: nat, i: nat,
                               fifos: seq<Fifo>, start: seq<nat>, count: nat) {
    && i < |fifos| && i < |start|
    && Stretch(Samples(Recover(disk, 4 * Times(n, slots + 1), 4 * Times(n, slot), 4 * Share(n, i))),
               fifos[i].stream, start[i], Times(Share(n, i), count))
  }

  lemma SlotYieldsSource(msgs: seq<seq<u32>>, max: i32, fifos: seq<Fifo>, start: seq<nat>, srcs: SourceList, n: nat,
                         k: nat)
    requires k < |srcs| && FilesYield(msgs, max, fifos, start, srcs, n, k)
    ensures SourceYields(Rotation.Disk(Rotation.Split(Encoded(msgs), max)), |srcs|, k, n, srcs[k], fifos, start, |msgs|)
  {
    var i := srcs[k];
    SamplesStretch(Recovered(msgs, max, srcs, n, k), fifos[i].stream, start[i], Times(Share(n, i), |msgs|));
  }

  lemma SamplesStretch(recovered: seq<byte>, stream: seq<u32>, from: nat, done: nat)
    requires from + done <= |stream| && recovered == Bytes(stream[from..from + done])
    ensures Stretch(Samples(recovered), stream, from, done)
  {
    SamplesOfBytes(stream[from..from + done]);
  }

  /** From the files of the run, whose messages have `slots` slots of `n` words and one more, the samples at slot `slot`
      are what source `i` gave in `triggers` reads from where the run began. */
  ghost predicate RunYields(e: System, max: i32, slots: nat, slot: nat, i: nat, n: nat, triggers: nat)
    requires e.server.workers != []
  {
    var ok := SourceYields(Rotation.Disk(Rotation.Split(Encoded(e.client.written), max)), slots, slot, n, i,
                           e.server.sh.hw.dma.fifos, e.server.workers[0].start, triggers);
    ok
  }

  /** For a run that came to its end, slot by slot. */
  lemma CompleteSlot(e: System, max: i32, slots: nat, k: nat, i: nat, n: nat, triggers: nat)
    requires FirstRunEnded(e) && e.server.workers != [] && k < |e.server.workers[0].srcs| == slots
    requires e.server.workers[0].srcs[k] == i && e.server.workers[0].fields.nReads == n
    requires e.client.nEvts == triggers
    ensures RunYields(e, max, slots, k, i, n, triggers)
  {
    var t := e.server.workers[0];
    FirstRunComplete(e);
    FilesAreFifos(e, max, k);
    SlotYieldsSource(e.client.written, max, e.server.sh.hw.dma.fifos, t.start, t.srcs, t.fields.nReads, k);
  }

  lemma SlotNumber(mask: Octet, i: nat, srcs: SourceList)
    requires i <= 8 && IsSource(mask, i) && srcs == Sources(mask)
    ensures Rank(mask, i) < |srcs| == Rank(mask, 8) + 1 && srcs[Rank(mask, i)] == i
  {
    SlotOf(mask, i);
  }

  /** From the files of a complete run each enabled chip yields exactly triggers * reads samples of its FIFO, from
      where the run began, and the timestamps twice as many words: sliced at rank * length, in order, nothing else. */
  lemma CompleteRun(e: System, max: i32, mask: Octet, i: nat, n: nat, triggers: nat, slots: nat, slot: nat)
    requires FirstRunEnded(e) && e.server.workers != [] && e.server.workers[0].srcs == Sources(mask)
    requires e.server.workers[0].fields.nReads == n && e.client.nEvts == triggers
    requires i == 8 || BitSet(mask, i)
    requires slots == |Selected(mask, 8)| + 1 && slot == |Selected(mask, i)|
    ensures RunYields(e, max, slots, slot, i, n, triggers)
  {
    EnabledIsBit(mask, i);
    RankIsBits(mask, 8);
    RankIsBits(mask, i);
    SlotNumber(mask, i, e.server.workers[0].srcs);
    CompleteSlot(e, max, slots, slot, i, n, triggers);
  }

  // ---------- the client's own program ----------

  /** What the client's `main` calls. */
  function MainCalls(d: Document): seq<Call> {
    [SendConfig(d), SetBias, ReadTemp(1), ReadTemp(2), StartRun]
  }

  lemma MainRequests(d: Document)
    ensures AllExchanges(MainCalls(d))
            == [CmdConfig, Data(d)] + [CmdBias, CmdTemp, Channel('1'), CmdTemp, Channel('2')] + [CmdStart]
  {
    var a := [SendConfig(d)];
    var b := a + [SetBias];
    var c := b + [ReadTemp(1)];
    var e := c + [ReadTemp(2)];
    assert MainCalls(d) == e + [StartRun];
    assert a == [] + [SendConfig(d)] && AllExchanges([]) == [];
    AllExchangesStep([], SendConfig(d));
    AllExchangesStep(a, SetBias);
    AllExchangesStep(b, ReadTemp(1));
    AllExchangesStep(c, ReadTemp(2));
    AllExchangesStep(e, StartRun);
  }

  lemma StartsAppend(rs: seq<Request>, r: Request)
    ensures Starts(rs + [r]) == Starts(rs) + if r.CmdStart? then 1 else 0
  {
    assert (rs + [r])[..|rs|] == rs;
  }

  /** Requests other than starts and documents leave the history of both as it is. */
  lemma {:induction false} NoStarts(rs: seq<Request>, qs: seq<Request>)
    requires forall k :: 0 <= k < |qs| ==> !qs[k].CmdStart? && !qs[k].Data?
    ensures Starts(rs + qs) == Starts(rs) && Docs(rs + qs) == Docs(rs) && StartDocs(rs + qs) == StartDocs(rs)
  {
    if qs == [] {
      assert rs + qs == rs;
    } else {
      var init, last := qs[..|qs| - 1], qs[|qs| - 1];
      assert rs + qs == (rs + init) + [last];
      NoStarts(rs, init);
      StartsAppend(rs + init, last);
      DocsAppend(rs + init, last);
    }
  }

  lemma ConfigHistory(d: Document)
    ensures Starts([CmdConfig, Data(d)]) == 0
    ensures Docs([CmdConfig, Data(d)]) == [d] && StartDocs([CmdConfig, Data(d)]) == []
  {
    assert [] + [CmdConfig] == [CmdConfig] && [CmdConfig] + [Data(d)] == [CmdConfig, Data(d)];
    NoStarts([], [CmdConfig]);
    StartsAppend([CmdConfig], Data(d));
    DocsAppend([CmdConfig], Data(d));
  }

  lemma OneStart(first: seq<Request>, rest: seq<Request>, d: Document)
    requires Starts(first) == 0 && Docs(first) == [d] && StartDocs(first) == []
    requires forall k :: 0 <= k < |rest| ==> !rest[k].CmdStart? && !rest[k].Data?
    ensures Starts(first + rest + [CmdStart]) == 1 && StartDocs(first + rest + [CmdStart]) == [[d]]
  {
    NoStarts(first, rest);
    StartsAppend(first + rest, CmdStart);
    DocsAppend(first + rest, CmdStart);
  }

  lemma MainHistory(d: Document)
    ensures Starts(AllExchanges(MainCalls(d))) == 1
    ensures StartDocs(AllExchanges(MainCalls(d))) == [[d]]
  {
    MainRequests(d);
    ConfigHistory(d);
    OneStart([CmdConfig, Data(d)], [CmdBias, CmdTemp, Channel('1'), CmdTemp, Channel('2')], d);
  }

  /** The client's program has come to its end: it has sent this configuration, with its own trigger count in it, and
      its run was neither stopped nor interrupted, nor any send refused. */
  ghost predicate MainEnded(e: System, d: Document) {
    && Occurs(e) && e.client.begun == MainCalls(d) && e.client.pending == []
    && e.client.finished && e.client.interrupted == 0 && e.refused == 0
    && d.numTriggers == Some(e.client.nEvts)
  }

  lemma OccursStarted(e: System)
    requires Occurs(e)
    ensures StartedInv(e.server)
  {
    OccursInv(e);
  }

  lemma MainIsFirstRun(e: System, d: Document)
    requires MainEnded(e, d)
    ensures FirstRunEnded(e) && e.server.started == [[d]]
  {
    MainHistory(d);
    CallsAreAnswered(e);
    DocumentsArrive(e);
  }

  lemma SettingsOf(t: Thread, leftover: u32, d: Document)
    requires RunsWith(t, leftover, [d])
    ensures t.srcs == Sources(Or(d.chipMask, Octet(0xff))) && t.fields.nReads == Or(d.nReads, 1024)
    ensures d.numTriggers.Some? ==> t.fields.numTriggers == d.numTriggers.value
  {
    assert [d][..0] == [];
    assert MergeAll(Defaults(leftover), [d]) == Merge(Defaults(leftover), d);
    SignedRoundTrip(Or(d.numTriggers, 1000));
  }

  /** There was one run, it used the document's settings, and all that it sent has been written. */
  lemma MainRan(e: System, d: Document)
    requires MainEnded(e, d)
    ensures FirstRunEnded(e) && |e.server.workers| == 1 && e.client.nEvts >= 0
    ensures var t := e.server.workers[0];
            && t.srcs == Sources(Or(d.chipMask, Octet(0xff))) && t.fields.nReads == Or(d.nReads, 1024)
            && t.fields.numTriggers == e.client.nEvts && e.client.written == t.msgs && |t.msgs| == e.client.nEvts
  {
    MainIsFirstRun(e, d);
    FirstRunComplete(e);
    FirstRunPrefix(e);
    OccursStarted(e);
    assert e.server.started[0] == [d];
    assert RunsWith(e.server.workers[0], e.server.leftover, [d]);
    SettingsOf(e.server.workers[0], e.server.leftover, d);
  }

  /** What the client's program is for.  Given a configuration with a trigger count, when it comes to its end without
      interruption the files, sliced as the configuration says, give for every chip whose bit is set in the mask exactly
      triggers * reads samples of its FIFO from where the run began, and the timestamps twice as many words.  The slot of
      a chip is the number of bits set below its own. */
  lemma MainDelivers(e: System, d: Document, max: i32, i: nat, mask: Octet, n: nat, triggers: i32, slots: nat, slot: nat)
    requires MainEnded(e, d) && d.numTriggers == Some(triggers)
    requires mask == Or(d.chipMask, Octet(0xff)) && n == Or(d.nReads, 1024)
    requires i == 8 || BitSet(mask, i)
    requires slots == |Selected(mask, 8)| + 1 && slot == |Selected(mask, i)|
    ensures |e.server.workers| == 1 && triggers >= 0
    ensures RunYields(e, max, slots, slot, i, n, triggers)
  {
    EnabledIsBit(mask, i);
    RankIsBits(mask, 8);
    RankIsBits(mask, i);
    MainByRank(e, d, max, i, mask, n, triggers, slots, slot);
  }

  lemma MainByRank(e: System, d: Document, max: i32, i: nat, mask: Octet, n: nat, triggers: i32, slots: nat, slot: nat)
    requires MainEnded(e, d) && d.numTriggers == Some(triggers)
    requires mask == Or(d.chipMask, Octet(0xff)) && n == Or(d.nReads, 1024)
    requires i <= 8 && IsSource(mask, i) && slots == Rank(mask, 8) + 1 && slot == Rank(mask, i)
    ensures |e.server.workers| == 1 && triggers >= 0
    ensures RunYields(e, max, slots, slot, i, n, triggers)
  {
    MainRan(e, d);
    SlotNumber(mask, i, e.server.workers[0].srcs);
    CompleteSlot(e, max, slots, slot, i, n, triggers);
  }

  // ---------- the receive loop as a method ----------

  /** What one step of the system is to the client's receive loop. */
  function Meets(s: System, a: Step): seq<Loop.Event>
    requires a.LoopTakes? ==> s.taken < |s.accepted|
  {
    match a
    case LoopTakes(stop) => [Loop.Event(Some(Bytes(s.accepted[s.taken])), stop)]
    case LoopInterrupted(stop) => [Loop.Event(None, stop)]
    case _ => []
  }

  /** The turns of the receive loop since the client's last run began. */
  ghost function LoopEvents(s: System, steps: seq<Step>): seq<Loop.Event>
    requires Behaves(s, steps)
  {
    if steps == [] then []
    else
      var init, a := steps[..|steps| - 1], steps[|steps| - 1];
      if a.Hear? && Outcome(s, init).client.starting then [] else LoopEvents(s, init) + Meets(Outcome(s, init), a)
  }

  ghost predicate NoStop(events: seq<Loop.Event>) {
    forall k :: 0 <= k < |events| ==> !events[k].stop
  }

  /** The client has written what the loop writes in these turns. */
  ghost predicate InStepWithLoop(c: Client, events: seq<Loop.Event>) {
    && Encoded(c.written) == Loop.Written(events, c.nEvts, 0)
    && (c.looping ==> !c.stopped && NoStop(events) && |events| == c.i)
    && (c.stopped <==> Loop.Stopped(events, c.nEvts, 0))
  }

  /** One more turn appended to those that ran through. */
  lemma {:induction false} WrittenAppend(events: seq<Loop.Event>, e: Loop.Event, nEvts: Words.i32, i: nat)
    requires i <= |events| && NoStop(events) && Loop.Wants(|events|, nEvts)
    ensures Loop.Written(events + [e], nEvts, i)
            == Loop.Written(events, nEvts, i) + (if e.received.Some? && !e.stop then [e.received.value] else [])
    ensures Loop.Stopped(events + [e], nEvts, i) == e.stop
    decreases |events| - i
  {
    var all := events + [e];
    if i < |events| {
      WrittenAppend(events, e, nEvts, i + 1);
      assert all[i] == events[i];
    } else {
      assert all[i] == e && Loop.Written(all, nEvts, i + 1) == [];
    }
  }

  lemma EncodedAppend(msgs: seq<seq<u32>>, m: seq<u32>)
    ensures Encoded(msgs + [m]) == Encoded(msgs) + [Bytes(m)]
  {
    assert (msgs + [m])[..|msgs|] == msgs;
  }

  lemma LoopTurn(c: Client, d: Client, events: seq<Loop.Event>, e: Loop.Event, m: seq<u32>)
    requires InStepWithLoop(c, events) && c.looping && WantsMore(c) && d.nEvts == c.nEvts
    requires e.received.Some? ==> e.received.value == Bytes(m)
    requires d.written == if e.received.Some? && !e.stop then c.written + [m] else c.written
    requires d.looping ==> !e.stop && d.i == c.i + 1
    requires d.stopped == e.stop
    ensures InStepWithLoop(d, events + [e])
  {
    WrittenAppend(events, e, c.nEvts, 0);
    EncodedAppend(c.written, m);
  }

  lemma LoopElsewhere(s: System, a: Step, events: seq<Loop.Event>)
    requires Possible(s, a) && InStepWithLoop(s.client, events) && HistoryInv(s.client)
    requires !a.LoopTakes? && !a.LoopInterrupted?
    ensures InStepWithLoop(Next(s, a).client, if a.Hear? && s.client.starting then [] else events)
  {
  }

  lemma LoopStep(s: System, a: Step, events: seq<Loop.Event>)
    requires Possible(s, a) && InStepWithLoop(s.client, events) && HistoryInv(s.client)
    ensures InStepWithLoop(Next(s, a).client,
                           if a.Hear? && s.client.starting then [] else events + Meets(s, a))
  {
    var d := Next(s, a).client;
    match a
    case LoopTakes(stop) =>
      LoopTurn(s.client, d, events, Meets(s, a)[0], s.accepted[s.taken]);
    case LoopInterrupted(stop) =>
      LoopTurn(s.client, d, events, Meets(s, a)[0], []);
    case _ =>
      LoopElsewhere(s, a, events);
      assert events + [] == events;
  }

  lemma {:induction false} LoopAgrees(s: System, steps: seq<Step>)
    requires PoweredUp(s) && Behaves(s, steps)
    ensures InStepWithLoop(Outcome(s, steps).client, LoopEvents(s, steps))
  {
    if steps != [] {
      var init := steps[..|steps| - 1];
      LoopAgrees(s, init);
      AlwaysInv(s, init);
      LoopStep(Outcome(s, init), steps[|steps| - 1], LoopEvents(s, init));
    }
  }

  /** The files that the client's loop leaves behind in the turns it met, put together, are the bytes that the
      properties of the whole system speak of. */
  lemma LoopWritesFiles(s: System, steps: seq<Step>, max: i32)
    requires PoweredUp(s) && Behaves(s, steps)
    ensures var c := Outcome(s, steps).client;
            c.stopped <==> Loop.Stopped(LoopEvents(s, steps), c.nEvts, 0)
    ensures var c := Outcome(s, steps).client;
            Rotation.Concat(Loop.Contents(Rotation.Split(Loop.Written(LoopEvents(s, steps), c.nEvts, 0), max)))
            == Rotation.Disk(Rotation.Split(Encoded(c.written), max))
  {
    LoopAgrees(s, steps);
    Loop.ContentsJoin(Rotation.Split(Encoded(Outcome(s, steps).client.written), max));
  }
}
