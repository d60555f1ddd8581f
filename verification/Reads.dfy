/** Repeated reads over one ring: every read is the gather of the next shares, and leaves the ring as it found it. */
module Reads {
  import opened Words
  import opened ChipMask
  import opened SgRing
  import opened Cdma

  // ---------- one read ----------

  /** The descriptor buffer with the first `count` status words cleared, one `sgBufReset` after another. */
  function Rearmed(sg: seq<u32>, count: nat): (cleared: seq<u32>)
    requires 32 * count <= |sg|
    ensures |cleared| == |sg|
  {
    if count == 0 then sg else Rearmed(sg, count - 1)[32 * (count - 1) + 7 := 0]
  }

  /** The buffers agree on everything but the status words of the first `count` descriptors. */
  ghost predicate SameButStatus(a: seq<u32>, b: seq<u32>, count: nat) {
    && |a| == |b|
    && forall w :: 0 <= w < |a| && !IsStatus(w, count) ==> a[w] == b[w]
  }

  predicate IsStatus(w: nat, count: nat) {
    w % 32 == 7 && w / 32 < count
  }

  /** From `d` to `e` nothing was rewritten that a read must leave alone, and no FIFO lost or gained a word. */
  ghost predicate Untouched(d: Dma, e: Dma, srcs: SourceList) {
    && SameButStatus(d.sg, e.sg, |srcs|)
    && Grown(d.fifos, e.fifos) && Grown(e.fifos, d.fifos)
    && e.sgBase == d.sgBase && e.dataBase == d.dataBase && |e.data| == |d.data|
  }

  lemma StepUntouched(d: Dma, srcs: SourceList, n: nat, start: seq<nat>, slots: nat)
    requires Gathering(d, srcs, n, start, slots) && slots < |srcs|
    ensures Untouched(d, Step(d), srcs)
  {
    StepTransfers(d, srcs, n, start, slots);
    assert IsStatus(32 * slots + 7, |srcs|);
  }

  lemma UntouchedTwice(d: Dma, e: Dma, f: Dma, srcs: SourceList)
    requires Untouched(d, e, srcs) && Untouched(e, f, srcs)
    ensures Untouched(d, f, srcs)
  {
  }

  /** After the kick the engine is busy for exactly one step per descriptor, and each step adds one slot. */
  lemma {:induction false} RunGathers(d: Dma, srcs: SourceList, n: nat, start: seq<nat>, count: nat)
    requires Gathering(d, srcs, n, start, 0)
    requires count <= |srcs|
    ensures Gathering(Steps(d, count), srcs, n, start, count)
    ensures Untouched(d, Steps(d, count), srcs)
  {
    if count > 0 {
      RunGathers(d, srcs, n, start, count - 1);
      StepGathers(Steps(d, count - 1), srcs, n, start, count - 1);
      StepUntouched(Steps(d, count - 1), srcs, n, start, count - 1);
      UntouchedTwice(d, Steps(d, count - 1), Steps(d, count), srcs);
    }
  }

  lemma {:induction false} RearmedSame(sg: seq<u32>, count: nat, total: nat)
    requires count <= total && 32 * total <= |sg|
    ensures SameButStatus(sg, Rearmed(sg, count), total)
    ensures forall k :: 0 <= k < count ==> Rearmed(sg, count)[32 * k + 7] == 0
  {
    if count > 0 {
      RearmedSame(sg, count - 1, total);
      assert IsStatus(32 * (count - 1) + 7, total);
    }
  }

  /** Re-arming a finished gather makes the engine ready again, at the head of the same ring. */
  lemma RearmReady(d: Dma, srcs: SourceList, n: nat, start: seq<nat>)
    requires Gathering(d, srcs, n, start, |srcs|)
    ensures Ready(d.(sg := Rearmed(d.sg, |srcs|)), srcs, n)
  {
    var sg := Rearmed(d.sg, |srcs|);
    RearmedSame(d.sg, |srcs|, |srcs|);
    SameLinked(d.sg, sg, Ring(d.sgBase, d.dataBase, srcs, 4 * n));
  }

  lemma SameLinked(a: seq<u32>, b: seq<u32>, g: Ring)
    requires Linked(a, g) && SameButStatus(a, b, |g.srcs|)
    ensures Linked(b, g)
  {
    forall k | 0 <= k < |g.srcs|
      ensures Describes(Desc(b, k), g, k)
    {
      assert Describes(Desc(a, k), g, k);
      SameDesc(a, b, |g.srcs|, k);
    }
  }

  lemma SameDesc(a: seq<u32>, b: seq<u32>, count: nat, k: nat)
    requires SameButStatus(a, b, count) && 32 * k + 8 <= |a|
    ensures Desc(b, k) == Desc(a, k).(status := Desc(b, k).status)
  {
    assert !IsStatus(32 * k, count) && !IsStatus(32 * k + 1, count) && !IsStatus(32 * k + 2, count);
    assert !IsStatus(32 * k + 3, count) && !IsStatus(32 * k + 4, count) && !IsStatus(32 * k + 5, count);
    assert !IsStatus(32 * k + 6, count);
  }

  /** The engine's state after a whole read: kicked, run until idle, and re-armed. */
  ghost function ReadOnce(d: Dma, srcs: SourceList, n: nat): (after: Dma)
    requires Ready(d, srcs, n) && Holds(d.fifos, Positions(d.fifos), srcs, n)
  {
    KickStartsGathering(d, srcs, n);
    var k := Kick(d, TailOf(d, srcs));
    RunGathers(k, srcs, n, Positions(d.fifos), |srcs|);
    Steps(k, |srcs|).(sg := Rearmed(Steps(k, |srcs|).sg, |srcs|))
  }

  /** One read, from kick to re-arm: the data buffer starts with the message, every listed source has given
      exactly its share, and the whole descriptor buffer is back as it was. */
  lemma ReadRefinesGather(d: Dma, srcs: SourceList, n: nat)
    requires Ready(d, srcs, n) && Holds(d.fifos, Positions(d.fifos), srcs, n)
    ensures Ready(ReadOnce(d, srcs, n), srcs, n)
    ensures Message(d.fifos, Positions(d.fifos), srcs, n) <= ReadOnce(d, srcs, n).data
    ensures ReadOnce(d, srcs, n).sg == d.sg
    ensures Untouched(d, ReadOnce(d, srcs, n), srcs)
    ensures Positions(ReadOnce(d, srcs, n).fifos) == After(Positions(d.fifos), srcs, n)
  {
    KickStartsGathering(d, srcs, n);
    var start, k := Positions(d.fifos), Kick(d, TailOf(d, srcs));
    RunGathers(k, srcs, n, start, |srcs|);
    var e := Steps(k, |srcs|);
    RearmReady(e, srcs, n, start);
    RearmedSame(e.sg, |srcs|, |srcs|);
    GatherStable(d.fifos, e.fifos, start, srcs, n, |srcs|);
    SameButStatusCleared(d.sg, Rearmed(e.sg, |srcs|), |srcs|);
    assert srcs[..|srcs|] == srcs;
  }

  lemma SameButStatusCleared(a: seq<u32>, b: seq<u32>, count: nat)
    requires SameButStatus(a, b, count) && 32 * count <= |a|
    requires forall k :: 0 <= k < count ==> Desc(a, k).status == 0
    requires forall k :: 0 <= k < count ==> b[32 * k + 7] == 0
    ensures a == b
  {
    forall w | 0 <= w < |a|
      ensures a[w] == b[w]
    {
      var k := w / 32;
      if IsStatus(w, count) {
        assert w == 32 * k + 7;
        assert a[w] == Desc(a, k).status;
      }
    }
  }

  // ---------- many reads ----------

  /** Where every source stands after one read. */
  function After(start: seq<nat>, srcs: SourceList, n: nat): (next: seq<nat>)
    ensures |next| == |start|
  {
    seq(|start|, i requires 0 <= i < |start| => if i in srcs then start[i] + Share(n, i) else start[i])
  }

  /** Where every source stands after `r` reads. */
  function Later(start: seq<nat>, srcs: SourceList, n: nat, r: nat): (next: seq<nat>)
    ensures |next| == |start|
  {
    if r == 0 then start else After(Later(start, srcs, n, r - 1), srcs, n)
  }

  lemma {:induction false} LaterAt(start: seq<nat>, srcs: SourceList, n: nat, r: nat, i: nat)
    requires i < |start|
    ensures Later(start, srcs, n, r)[i] == if i in srcs then start[i] + Times(Share(n, i), r) else start[i]
  {
    if r > 0 {
      LaterAt(start, srcs, n, r - 1, i);
    }
  }

  /** `m` is what a read gathers when the sources stand at `start`. */
  ghost predicate IsMessage(m: seq<u32>, fifos: seq<Fifo>, start: seq<nat>, srcs: SourceList, n: nat) {
    Holds(fifos, start, srcs, n) && m == Message(fifos, start, srcs, n)
  }

  /** `msgs` are the first messages of a run that began with the sources at `start`. */
  ghost predicate Produced(msgs: seq<seq<u32>>, fifos: seq<Fifo>, start: seq<nat>, srcs: SourceList, n: nat) {
    forall r :: 0 <= r < |msgs| ==> IsMessage(msgs[r], fifos, Later(start, srcs, n, r), srcs, n)
  }

  lemma IsMessageStable(m: seq<u32>, fifos: seq<Fifo>, later: seq<Fifo>, start: seq<nat>, srcs: SourceList, n: nat)
    requires IsMessage(m, fifos, start, srcs, n) && Grown(fifos, later)
    ensures IsMessage(m, later, start, srcs, n)
  {
    GatherStable(fifos, later, start, srcs, n, |srcs|);
  }

  /** Messages already produced stay what they are while the FIFOs go on filling. */
  lemma ProducedStable(msgs: seq<seq<u32>>, fifos: seq<Fifo>, later: seq<Fifo>, start: seq<nat>, srcs: SourceList,
                       n: nat)
    requires Produced(msgs, fifos, start, srcs, n) && Grown(fifos, later)
    ensures Produced(msgs, later, start, srcs, n)
  {
    forall r | 0 <= r < |msgs|
      ensures IsMessage(msgs[r], later, Later(start, srcs, n, r), srcs, n)
    {
      IsMessageStable(msgs[r], fifos, later, Later(start, srcs, n, r), srcs, n);
    }
  }

  lemma MessageCut(m: seq<u32>, fifos: seq<Fifo>, start: seq<nat>, srcs: SourceList, n: nat, k: nat)
    requires IsMessage(m, fifos, start, srcs, n) && k < |srcs|
    ensures srcs[k] < 9 && |fifos| == |start| == 9
    ensures |m| == Times(n, |srcs| + 1)
    ensures CutFollows(m, Times(n, k), Share(n, srcs[k]), fifos[srcs[k]].stream, start[srcs[k]])
  {
    GatherLength(fifos, start, srcs, n, |srcs|);
    GatherSlot(fifos, start, srcs, n, k, |srcs|);
  }

  // ---------- one source of all the messages ----------

  /** The cut of `len` words at `lo` is what the stream holds at `at`. */
  ghost predicate CutFollows(m: seq<u32>, lo: nat, len: nat, stream: seq<u32>, at: nat) {
    lo + len <= |m| && at + len <= |stream| && m[lo..lo + len] == stream[at..at + len]
  }

  /** Message `r` of a run gives the `r`-th stretch of the stream. */
  ghost predicate InStep(m: seq<u32>, r: nat, lo: nat, len: nat, stream: seq<u32>, from: nat) {
    var ok := CutFollows(m, lo, len, stream, from + Times(len, r));
    ok
  }

  /** The first `count` messages cut at the same place, one cut after the other. */
  function Cut(msgs: seq<seq<u32>>, count: nat, lo: nat, len: nat): seq<u32>
    requires count <= |msgs|
  {
    if count == 0 then []
    else Cut(msgs, count - 1, lo, len) + if lo + len <= |msgs[count - 1]| then msgs[count - 1][lo..lo + len] else []
  }

  /** The first `count` messages give one stretch of the stream after the other. */
  ghost predicate AllInStep(msgs: seq<seq<u32>>, count: nat, lo: nat, len: nat, stream: seq<u32>, from: nat)
    requires count <= |msgs|
  {
    forall r {:trigger InStep(msgs[r], r, lo, len, stream, from)} :: 0 <= r < count ==>
      InStep(msgs[r], r, lo, len, stream, from)
  }

  lemma OneInStep(msgs: seq<seq<u32>>, count: nat, lo: nat, len: nat, stream: seq<u32>, from: nat)
    requires 0 < count <= |msgs| && AllInStep(msgs, count, lo, len, stream, from)
    ensures AllInStep(msgs, count - 1, lo, len, stream, from)
    ensures InStep(msgs[count - 1], count - 1, lo, len, stream, from)
  {
  }

  /** `cut` is the stretch of `done` words at `from`. */
  ghost predicate Stretch(cut: seq<u32>, stream: seq<u32>, from: nat, done: nat) {
    var ok := from + done <= |stream| && cut == stream[from..from + done];
    ok
  }

  lemma {:induction false} CutsJoin(msgs: seq<seq<u32>>, count: nat, lo: nat, len: nat, stream: seq<u32>, from: nat,
                                    done: nat, cut: seq<u32>)
    requires from <= |stream| && count <= |msgs| && AllInStep(msgs, count, lo, len, stream, from)
    requires done == Times(len, count) && cut == Cut(msgs, count, lo, len)
    ensures Stretch(cut, stream, from, done)
  {
    if count > 0 {
      var d, c := Times(len, count - 1), Cut(msgs, count - 1, lo, len);
      OneInStep(msgs, count, lo, len, stream, from);
      CutsJoin(msgs, count - 1, lo, len, stream, from, d, c);
      JoinOne(msgs[count - 1], count - 1, lo, len, stream, from, d, c, done, cut);
    }
  }

  lemma JoinOne(m: seq<u32>, r: nat, lo: nat, len: nat, stream: seq<u32>, from: nat, done: nat, cut: seq<u32>,
                more: nat, longer: seq<u32>)
    requires InStep(m, r, lo, len, stream, from) && done == Times(len, r)
    requires Stretch(cut, stream, from, done)
    requires more == done + len && longer == cut + (if lo + len <= |m| then m[lo..lo + len] else [])
    ensures Stretch(longer, stream, from, more)
  {
    Adjoin(stream, from, done, len);
  }

  /** No loss, duplication or mixing: slot `k` of a run's messages, put together, is an uninterrupted stretch of
      the stream of its source, beginning where the run began. */
  lemma CutIsStream(msgs: seq<seq<u32>>, fifos: seq<Fifo>, start: seq<nat>, srcs: SourceList, n: nat, k: nat)
    requires Produced(msgs, fifos, start, srcs, n) && k < |srcs|
    requires |fifos| == |start| == 9 && srcs[k] < 9 && start[srcs[k]] <= |fifos[srcs[k]].stream|
    ensures start[srcs[k]] + Times(Share(n, srcs[k]), |msgs|) <= |fifos[srcs[k]].stream|
    ensures Cut(msgs, |msgs|, Times(n, k), Share(n, srcs[k])) ==
            fifos[srcs[k]].stream[start[srcs[k]]..start[srcs[k]] + Times(Share(n, srcs[k]), |msgs|)]
  {
    var i := srcs[k];
    forall r | 0 <= r < |msgs|
      ensures InStep(msgs[r], r, Times(n, k), Share(n, i), fifos[i].stream, start[i])
    {
      MessageCut(msgs[r], fifos, Later(start, srcs, n, r), srcs, n, k);
      LaterAt(start, srcs, n, r, i);
    }
    CutsJoin(msgs, |msgs|, Times(n, k), Share(n, i), fifos[i].stream, start[i],
             Times(Share(n, i), |msgs|), Cut(msgs, |msgs|, Times(n, k), Share(n, i)));
  }

  lemma Adjoin<T>(s: seq<T>, lo: nat, a: nat, b: nat)
    requires lo + a + b <= |s|
    ensures s[lo..lo + a] + s[lo + a..lo + a + b] == s[lo..lo + (a + b)]
  {
  }
}
