/** The client's receive loop, which splits what it receives over files. */
module Client {
  import opened Words
  import opened Config
  import opened Rotation
  import Requests

  /** What one turn of the loop meets: the receive returns a message or is interrupted, and the stop flag is then up
      or not. */
  datatype Event = Event(received: Option<Message>, stop: bool)

  predicate Wants(i: nat, nEvts: i32) {
    i < nEvts || nEvts < 0
  }

  /** The messages that the loop writes, from turn `i` on.  An interrupted receive uses up its turn, and the message
      received in the turn that sees the flag is thrown away. */
  function Written(events: seq<Event>, nEvts: i32, i: nat): seq<Message>
    requires i <= |events|
    decreases |events| - i
  {
    if i == |events| || !Wants(i, nEvts) || events[i].stop then []
    else (if events[i].received.Some? then [events[i].received.value] else []) + Written(events, nEvts, i + 1)
  }

  /** The loop reaches a turn that sees the flag. */
  predicate Stopped(events: seq<Event>, nEvts: i32, i: nat)
    requires i <= |events|
    decreases |events| - i
  {
    i < |events| && Wants(i, nEvts) && (events[i].stop || Stopped(events, nEvts, i + 1))
  }

  /** The messages that these turns received. */
  function Received(events: seq<Event>): seq<Message> {
    if events == [] then []
    else Received(events[..|events| - 1])
         + (if events[|events| - 1].received.Some? then [events[|events| - 1].received.value] else [])
  }

  /** The first turn that sees the flag, if any. */
  function FirstStop(events: seq<Event>): (q: nat)
    ensures q <= |events|
    ensures forall k :: 0 <= k < q ==> !events[k].stop
    ensures q < |events| ==> events[q].stop
  {
    if events == [] || events[0].stop then 0 else 1 + FirstStop(events[1..])
  }

  /** How many turns run through: up to the first that sees the flag, the trigger count, or the last. */
  function Through(events: seq<Event>, nEvts: i32): (q: nat)
    ensures q <= |events|
  {
    if 0 <= nEvts < FirstStop(events) then nEvts else FirstStop(events)
  }

  lemma {:induction false} WrittenFrom(events: seq<Event>, nEvts: i32, i: nat)
    requires i <= Through(events, nEvts)
    ensures Received(events[..i]) + Written(events, nEvts, i) == Received(events[..Through(events, nEvts)])
    ensures Stopped(events, nEvts, i) <==> Through(events, nEvts) < |events| && Wants(Through(events, nEvts), nEvts)
    decreases |events| - i
  {
    if i < Through(events, nEvts) {
      WrittenFrom(events, nEvts, i + 1);
      assert events[..i + 1][..i] == events[..i];
    }
  }

  /** What the loop writes is exactly what the turns received that ran through, and it is stopped iff the turn after
      those sees the flag. */
  lemma WrittenIsReceived(events: seq<Event>, nEvts: i32)
    ensures Written(events, nEvts, 0) == Received(events[..Through(events, nEvts)])
    ensures Stopped(events, nEvts, 0) <==> Through(events, nEvts) < |events| && Wants(Through(events, nEvts), nEvts)
  {
    WrittenFrom(events, nEvts, 0);
    assert Received(events[..0]) == [];
  }

  /** The turns that the loop takes: those that run through, and the one that sees the flag. */
  function Taken(events: seq<Event>, nEvts: i32): (q: nat)
    ensures q <= |events|
  {
    var q := Through(events, nEvts);
    if q < |events| && Wants(q, nEvts) then q + 1 else q
  }

  /** Of all that the loop receives, only a message received in the turn that sees the flag is not written. */
  lemma OnlyStopTurnDiscards(events: seq<Event>, nEvts: i32)
    ensures Received(events[..Taken(events, nEvts)])
            == Written(events, nEvts, 0)
               + (if Stopped(events, nEvts, 0) then Received([events[Taken(events, nEvts) - 1]]) else [])
  {
    var q := Through(events, nEvts);
    WrittenIsReceived(events, nEvts);
    if Stopped(events, nEvts, 0) {
      assert events[..q + 1][..q] == events[..q];
      assert [events[q]][..0] == [];
    }
  }

  /** The contents of the files, in the order of their numbers. */
  function Contents(f: Files): (bytes: seq<seq<byte>>)
    ensures |bytes| == |f.closed| + 1
  {
    seq(|f.closed|, k requires 0 <= k < |f.closed| => FileBytes(f.closed[k])) + [FileBytes(f.open)]
  }

  /** Put together, the files are the bytes on disk. */
  lemma ContentsJoin(f: Files)
    ensures Concat(Contents(f)) == Disk(f)
  {
    ClosedJoin(f.closed, Contents(f)[..|f.closed|]);
    assert Contents(f)[|f.closed|] == FileBytes(f.open);
  }

  lemma {:induction false} ClosedJoin(closed: seq<seq<Message>>, contents: seq<seq<byte>>)
    requires |contents| == |closed| && forall k :: 0 <= k < |closed| ==> contents[k] == FileBytes(closed[k])
    ensures Concat(contents) == ClosedBytes(closed)
  {
    if closed != [] {
      ClosedJoin(closed[..|closed| - 1], contents[..|closed| - 1]);
    }
  }

  lemma WrittenBytes(f: Files, m: Message, max: i32)
    ensures Contents(f)[|f.closed| := Contents(f)[|f.closed|] + m + [NEWLINE]]
            + (if Size(f.open + [m]) > max then [[]] else []) == Contents(Write(f, m, max))
  {
    FileBytesAppend(f.open, m);
  }

  lemma WrittenStep(events: seq<Event>, nEvts: i32, i: nat, done: seq<Message>)
    requires i < |events| && Wants(i, nEvts) && !events[i].stop && events[i].received.Some?
    ensures done + Written(events, nEvts, i) == done + [events[i].received.value] + Written(events, nEvts, i + 1)
    ensures Stopped(events, nEvts, i) == Stopped(events, nEvts, i + 1)
  {
  }

  lemma SkippedStep(events: seq<Event>, nEvts: i32, i: nat, done: seq<Message>)
    requires i < |events| && Wants(i, nEvts) && !events[i].stop && events[i].received.None?
    ensures done + Written(events, nEvts, i) == done + Written(events, nEvts, i + 1)
    ensures Stopped(events, nEvts, i) == Stopped(events, nEvts, i + 1)
  {
    assert Written(events, nEvts, i) == [] + Written(events, nEvts, i + 1);
  }

  lemma StoppedStep(events: seq<Event>, nEvts: i32, i: nat, done: seq<Message>)
    requires i < |events| && Wants(i, nEvts) && events[i].stop
    ensures done + Written(events, nEvts, i) == done && Stopped(events, nEvts, i)
  {
  }

  lemma EndedStep(events: seq<Event>, nEvts: i32, i: nat, done: seq<Message>)
    requires i <= |events| && (i == |events| || !Wants(i, nEvts))
    ensures done + Written(events, nEvts, i) == done && !Stopped(events, nEvts, i)
  {
  }

  class DAQCtrl {
    var nEvts: i32
    var maxFileSize: i32
    var files: seq<seq<byte>>
    var requests: seq<Requests.Request>

    constructor (numTriggers: i32, limit: Option<i32>)
      ensures nEvts == numTriggers && maxFileSize == Or(limit, 400000000) && files == [] && requests == []
    {
      maxFileSize := 400000000;
      nEvts, files, requests := numTriggers, [], [];
      new;
      if limit.Some? {
        maxFileSize := limit.value;
      }
    }

    method StopRun()
      modifies this`requests
      ensures requests == old(requests) + [Requests.CmdStop]
    {
      requests := requests + [Requests.CmdStop];
    }

    /** One message into the open file, and a new file if the limit is passed. */
    method Store(m: Message, fileSize: i32, fileNum: nat, ghost f: Files) returns (size: i32, num: nat)
      requires files == Contents(f) && fileSize == Size(f.open) && fileNum == |files|
      modifies this`files
      ensures files == Contents(Write(f, m, maxFileSize))
      ensures size == Size(Write(f, m, maxFileSize).open) && num == |files|
    {
      WrittenBytes(f, m, maxFileSize);
      PayloadAppend(f.open, m);
      size, num := Grow(fileSize, m), fileNum;
      files := files[|files| - 1 := files[|files| - 1] + m + [NEWLINE]];
      if size > maxFileSize {
        files := files + [[]];
        num := num + 1;
        size := 0;
      }
    }

    /** The state at the head of turn `i`, with `done` written so far. */
    ghost predicate AtTurn(events: seq<Event>, i: nat, done: seq<Message>, fileSize: i32, fileNum: nat)
      reads this
    {
      var ok := && i <= |events|
                && done + Written(events, nEvts, i) == Written(events, nEvts, 0)
                && Stopped(events, nEvts, i) == Stopped(events, nEvts, 0)
                && files == Contents(Split(done, maxFileSize)) && fileNum == |files|
                && fileSize == Size(Split(done, maxFileSize).open);
      ok
    }

    /** The state after a run that wrote all it was to write. */
    ghost predicate Finished(events: seq<Event>, stopped: bool)
      reads this
    {
      var ok := && files == Contents(Split(Written(events, nEvts, 0), maxFileSize))
                && Stopped(events, nEvts, 0) == stopped;
      ok
    }

    /** One message of the loop written to the files. */
    method Keep(events: seq<Event>, i: nat, fileSize: i32, fileNum: nat, ghost done: seq<Message>)
      returns (size: i32, num: nat)
      requires AtTurn(events, i, done, fileSize, fileNum)
      requires i < |events| && Wants(i, nEvts) && !events[i].stop && events[i].received.Some?
      modifies this`files
      ensures AtTurn(events, i + 1, done + [events[i].received.value], size, num)
    {
      var m := events[i].received.value;
      WrittenStep(events, nEvts, i, done);
      SplitAppend(done, m, maxFileSize);
      size, num := Store(m, fileSize, fileNum, Split(done, maxFileSize));
    }

    /** One turn: an interrupted receive is skipped, a flag that is up ends the loop with a stop request, and
        anything else is written. */
    method TakeTurn(events: seq<Event>, i: nat, fileSize: i32, fileNum: nat, ghost done: seq<Message>)
      returns (stopped: bool, size: i32, num: nat, ghost after: seq<Message>)
      requires AtTurn(events, i, done, fileSize, fileNum) && i < |events| && Wants(i, nEvts)
      modifies this`files, this`requests
      ensures stopped ==> Finished(events, true) && requests == old(requests) + [Requests.CmdStop]
      ensures !stopped ==> AtTurn(events, i + 1, after, size, num) && requests == old(requests)
    {
      stopped, size, num, after := false, fileSize, fileNum, done;
      if events[i].received.None? && !events[i].stop {
        SkippedStep(events, nEvts, i, done);
      } else if events[i].stop {
        StoppedStep(events, nEvts, i, done);
        StopRun();
        stopped := true;
      } else {
        size, num := Keep(events, i, fileSize, fileNum, done);
        after := done + [events[i].received.value];
      }
    }

    /** The run: after these turns the files hold exactly the messages of the turns that ran through, split as `Split`
        says; the run was requested first, and a stop after it iff the turn after those saw the flag. */
    method StartRun(events: seq<Event>)
      modifies this`files, this`requests
      ensures files == Contents(Split(Received(events[..Through(events, nEvts)]), maxFileSize))
      ensures requests == old(requests) + [Requests.CmdStart]
                          + (if Taken(events, nEvts) > Through(events, nEvts) then [Requests.CmdStop] else [])
    {
      WrittenIsReceived(events, nEvts);
      var fileSize, fileNum, stopped := 0, 0, false;
      files := [[]];
      fileNum := fileNum + 1;
      requests := requests + [Requests.CmdStart];
      ghost var done: seq<Message> := [];
      var i := 0;
      while (i < nEvts || nEvts < 0) && i < |events|
        invariant AtTurn(events, i, done, fileSize, fileNum) && requests == old(requests) + [Requests.CmdStart]
        decreases |events| - i
      {
        stopped, fileSize, fileNum, done := TakeTurn(events, i, fileSize, fileNum, done);
        if stopped {
          break;
        }
        i := i + 1;
      }
      if !stopped {
        EndedStep(events, nEvts, i, done);
      }
    }
  }

  /** Whatever is received and however it is interrupted, the files put together are the messages of the turns that
      ran through, each followed by one newline; and a run without interruption or stop writes the very messages it
      receives, as many as it counts. */
  lemma FilesConserve(events: seq<Event>, nEvts: i32, max: i32)
    ensures Concat(Contents(Split(Written(events, nEvts, 0), max)))
            == FileBytes(Received(events[..Through(events, nEvts)]))
    ensures Undisturbed(events) ==> Through(events, nEvts) == if 0 <= nEvts < |events| then nEvts else |events|
    ensures Undisturbed(events) ==> Each(Written(events, nEvts, 0), events[..Through(events, nEvts)])
  {
    SplitConserves(Written(events, nEvts, 0), max);
    ContentsJoin(Split(Written(events, nEvts, 0), max));
    WrittenIsReceived(events, nEvts);
    if Undisturbed(events) {
      EachReceived(events[..Through(events, nEvts)]);
    }
  }

  /** No receive is interrupted and the flag never goes up. */
  ghost predicate Undisturbed(events: seq<Event>) {
    forall k :: 0 <= k < |events| ==> events[k].received.Some? && !events[k].stop
  }

  /** Message for message what the turns received. */
  ghost predicate Each(msgs: seq<Message>, events: seq<Event>) {
    |msgs| == |events| && forall k :: 0 <= k < |msgs| ==> events[k].received == Some(msgs[k])
  }

  lemma {:induction false} EachReceived(events: seq<Event>)
    requires Undisturbed(events)
    ensures Each(Received(events), events)
  {
    if events != [] {
      EachReceived(events[..|events| - 1]);
    }
  }
}
