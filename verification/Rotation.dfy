/** How the client splits the stream of received messages over files. */
module Rotation {
  import opened Words

  type Message = seq<byte>

  const NEWLINE: byte := '\n' as int

  /** `file_size += request.size()`, with the wrap-around of the conversion back to `int`. */
  function Grow(size: i32, m: Message): i32 {
    ToInt32(size + |m|)
  }

  /** What `file_size` holds once these messages have been written to the current file. */
  function Size(file: seq<Message>): i32 {
    if file == [] then 0 else Grow(Size(file[..|file| - 1]), file[|file| - 1])
  }

  /** The files of a run, as lists of the messages they hold. */
  datatype Files = Files(closed: seq<seq<Message>>, open: seq<Message>)

  /** One message written: the open file grows, and a new one is opened if the running size passes the limit. */
  function Write(f: Files, m: Message, max: i32): Files {
    var grown := f.open + [m];
    if Size(grown) > max then Files(f.closed + [grown], []) else Files(f.closed, grown)
  }

  /** The files after `msgs`. */
  function Split(msgs: seq<Message>, max: i32): Files {
    if msgs == [] then Files([], []) else Write(Split(msgs[..|msgs| - 1], max), msgs[|msgs| - 1], max)
  }

  /** The bytes of a file: every message is followed by one separator. */
  function FileBytes(file: seq<Message>): seq<byte> {
    if file == [] then [] else FileBytes(file[..|file| - 1]) + file[|file| - 1] + [NEWLINE]
  }

  function Concat<T>(parts: seq<seq<T>>): seq<T> {
    if parts == [] then [] else Concat(parts[..|parts| - 1]) + parts[|parts| - 1]
  }

  /** The messages of all the files, one file after the other. */
  function Messages(f: Files): seq<Message> {
    Concat(f.closed) + f.open
  }

  function ClosedBytes(closed: seq<seq<Message>>): seq<byte> {
    if closed == [] then [] else ClosedBytes(closed[..|closed| - 1]) + FileBytes(closed[|closed| - 1])
  }

  /** The bytes of all the files, one file after the other. */
  function Disk(f: Files): seq<byte> {
    ClosedBytes(f.closed) + FileBytes(f.open)
  }

  /** Bytes of the messages alone. */
  function Payload(file: seq<Message>): nat {
    if file == [] then 0 else Payload(file[..|file| - 1]) + |file[|file| - 1]|
  }

  // ---------- conservation ----------

  lemma FileBytesAppend(file: seq<Message>, m: Message)
    ensures FileBytes(file + [m]) == FileBytes(file) + m + [NEWLINE]
  {
    assert (file + [m])[..|file|] == file;
  }

  lemma CloseAppend(closed: seq<seq<Message>>, file: seq<Message>)
    ensures ClosedBytes(closed + [file]) == ClosedBytes(closed) + FileBytes(file)
    ensures Concat(closed + [file]) == Concat(closed) + file
  {
    assert (closed + [file])[..|closed|] == closed;
  }

  lemma Regroup<T>(a: seq<T>, b: seq<T>, c: seq<T>, d: seq<T>)
    ensures a + (b + c + d) == a + b + c + d
    ensures a + (b + c) == a + b + c
    ensures a + [] == a
  {
  }

  lemma WriteConserves(f: Files, m: Message, max: i32)
    ensures Messages(Write(f, m, max)) == Messages(f) + [m]
    ensures Disk(Write(f, m, max)) == Disk(f) + m + [NEWLINE]
  {
    var grown := f.open + [m];
    FileBytesAppend(f.open, m);
    Regroup(ClosedBytes(f.closed), FileBytes(f.open), m, [NEWLINE]);
    Regroup(Concat(f.closed), f.open, [m], []);
    if Size(grown) > max {
      CloseAppend(f.closed, grown);
      Regroup(ClosedBytes(f.closed + [grown]), [], [], []);
      Regroup(Concat(f.closed + [grown]), [], [], []);
    }
  }

  lemma SplitAppend(msgs: seq<Message>, m: Message, max: i32)
    ensures Split(msgs + [m], max) == Write(Split(msgs, max), m, max)
  {
    assert (msgs + [m])[..|msgs|] == msgs;
  }

  /** No message is lost, repeated, reordered or split across files, and the files hold nothing else: read one after
      the other they are every message followed by one newline. */
  lemma {:induction false} SplitConserves(msgs: seq<Message>, max: i32)
    ensures Messages(Split(msgs, max)) == msgs
    ensures Disk(Split(msgs, max)) == FileBytes(msgs)
  {
    if msgs != [] {
      var init, last := msgs[..|msgs| - 1], msgs[|msgs| - 1];
      SplitConserves(init, max);
      WriteConserves(Split(init, max), last, max);
      assert msgs == init + [last];
    }
  }

  /** On disk a file is its payload plus one byte per message. */
  lemma {:induction false} FileLength(file: seq<Message>)
    ensures |FileBytes(file)| == Payload(file) + |file|
  {
    if file != [] {
      FileLength(file[..|file| - 1]);
    }
  }

  // ---------- bounds ----------

  ghost predicate AtMost(msgs: seq<Message>, s: nat) {
    forall k :: 0 <= k < |msgs| ==> |msgs[k]| <= s
  }

  /** A file that was closed: beyond the limit, but not before its last message. */
  ghost predicate ClosedWell(file: seq<Message>, max: int, s: nat) {
    && file != []
    && max < Payload(file) <= max + s
    && Payload(file[..|file| - 1]) <= max
  }

  ghost predicate WithinBounds(f: Files, max: int, s: nat) {
    && (forall k :: 0 <= k < |f.closed| ==> ClosedWell(f.closed[k], max, s))
    && Payload(f.open) <= max
  }

  /** Below the wrap the running size is the payload. */
  lemma {:induction false} SizeIsPayload(file: seq<Message>)
    requires Payload(file) < 0x8000_0000
    ensures Size(file) == Payload(file)
  {
    if file != [] {
      SizeIsPayload(file[..|file| - 1]);
    }
  }

  lemma PayloadAppend(file: seq<Message>, m: Message)
    ensures Payload(file + [m]) == Payload(file) + |m|
    ensures Size(file + [m]) == Grow(Size(file), m)
  {
    assert (file + [m])[..|file|] == file;
  }

  lemma WriteWithinBounds(f: Files, m: Message, max: i32, s: nat)
    requires 0 <= max && max + s < 0x8000_0000 && |m| <= s
    requires WithinBounds(f, max, s)
    ensures WithinBounds(Write(f, m, max), max, s)
  {
    var grown := f.open + [m];
    PayloadAppend(f.open, m);
    SizeIsPayload(grown);
    assert grown[..|grown| - 1] == f.open;
  }

  /** Every closed file is beyond the limit, but was not before its last message; the open one is not beyond it. */
  lemma {:induction false} SplitWithinBounds(msgs: seq<Message>, max: i32, s: nat)
    requires 0 <= max && max + s < 0x8000_0000 && AtMost(msgs, s)
    ensures WithinBounds(Split(msgs, max), max, s)
  {
    if msgs != [] {
      SplitWithinBounds(msgs[..|msgs| - 1], max, s);
      WriteWithinBounds(Split(msgs[..|msgs| - 1], max), msgs[|msgs| - 1], max, s);
    }
  }

  /** The bounds hold for all messages of at most `s` bytes exactly when the limit is not negative and limit and message
      together fit an `int`: beyond that the running size goes negative and the file is not closed, and below zero
      even an empty file is beyond the limit. */
  lemma BoundsIff(max: i32, s: nat)
    requires s < 0x8000_0000
    ensures (forall msgs :: AtMost(msgs, s) ==> WithinBounds(Split(msgs, max), max, s))
            <==> 0 <= max && max + s < 0x8000_0000
  {
    if max < 0 {
      assert AtMost([], s) && !WithinBounds(Split([], max), max, s);
    } else if max + s < 0x8000_0000 {
      forall msgs | AtMost(msgs, s)
        ensures WithinBounds(Split(msgs, max), max, s)
      {
        SplitWithinBounds(msgs, max, s);
      }
    } else {
      var msgs := Overflowing(max, s);
      OverflowingEscapes(max, s);
      assert AtMost(msgs, s) && !WithinBounds(Split(msgs, max), max, s);
    }
  }

  /** `k` messages of `s` bytes each. */
  function Same(k: nat, s: nat): (msgs: seq<Message>)
    ensures |msgs| == k
  {
    if k == 0 then [] else Same(k - 1, s) + [Zeros(s)]
  }

  function Zeros(k: nat): (m: Message)
    ensures |m| == k
  {
    seq(k, _ => 0)
  }

  function Overflowing(max: nat, s: nat): seq<Message> {
    Same(max, 1) + [Zeros(s)]
  }

  lemma {:induction false} SameIs(k: nat, s: nat)
    ensures AllOf(Same(k, s), s)
  {
    if k > 0 {
      SameIs(k - 1, s);
    }
  }

  /** As long as they stay within the limit the messages stay in one file. */
  lemma {:induction false} SameStay(k: nat, s: nat, max: i32)
    requires k * s <= max
    ensures Split(Same(k, s), max) == Files([], Same(k, s))
  {
    if k > 0 {
      assert (k - 1) * s + s == k * s;
      SameStay(k - 1, s, max);
      SameIs(k, s);
      PayloadOf(Same(k, s), s);
      StaysOpen(Same(k - 1, s), Zeros(s), max, Same(k, s));
    }
  }

  lemma StaysOpen(file: seq<Message>, m: Message, max: i32, grown: seq<Message>)
    requires Split(file, max) == Files([], file)
    requires grown == file + [m] && Payload(grown) <= max
    ensures Split(grown, max) == Files([], grown)
  {
    SplitAppend(file, m, max);
    SizeIsPayload(grown);
  }

  lemma OverflowingEscapes(max: i32, s: nat)
    requires 0 <= max && 0 < s < 0x8000_0000 && max + s >= 0x8000_0000
    ensures AtMost(Overflowing(max, s), s)
    ensures !WithinBounds(Split(Overflowing(max, s), max), max, s)
  {
    SameIs(max, 1);
    PayloadOf(Same(max, 1), 1);
    SameStay(max, 1, max);
    SizeIsPayload(Same(max, 1));
    SplitAppend(Same(max, 1), Zeros(s), max);
    OverflowingWrite(Same(max, 1), Zeros(s), max);
  }

  lemma OverflowingWrite(file: seq<Message>, m: Message, max: i32)
    requires 0 <= max && Size(file) == Payload(file) <= max && Payload(file) + |m| >= 0x8000_0000 && |m| < 0x8000_0000
    ensures Write(Files([], file), m, max) == Files([], file + [m])
    ensures Payload(file + [m]) > max
  {
    PayloadAppend(file, m);
    assert Size(file + [m]) == Payload(file) + |m| - 0x1_0000_0000;
  }

  // ---------- closed form ----------

  ghost predicate AllOf(msgs: seq<Message>, s: nat) {
    forall k :: 0 <= k < |msgs| ==> |msgs[k]| == s
  }

  /** How many messages of `s` bytes it takes to fill a file. */
  function PerFile(max: int, s: nat): (m: nat)
    requires s > 0
    ensures m > 0
  {
    if max < 0 then 1 else max / s + 1
  }

  lemma {:induction false} PayloadOf(file: seq<Message>, s: nat)
    requires AllOf(file, s)
    ensures Payload(file) == |file| * s
  {
    if file != [] {
      PayloadOf(file[..|file| - 1], s);
      assert |file| * s == (|file| - 1) * s + s;
    }
  }

  /** A file of `c` equal messages is beyond the limit exactly when `c` reaches the file's capacity. */
  lemma Beyond(c: nat, max: int, s: nat)
    requires s > 0 && (max < 0 ==> c > 0)
    ensures c * s > max <==> c >= PerFile(max, s)
  {
    if max >= 0 {
      var q, r := max / s, max % s;
      assert max == q * s + r;
      if c >= q + 1 {
        Multiples(q + 1, c, s);
        Sum(q, 1, s);
      } else {
        Multiples(c, q, s);
      }
    }
  }

  lemma Sum(a: nat, b: nat, s: nat)
    ensures (a + b) * s == a * s + b * s
  {
  }

  lemma Multiples(a: nat, b: nat, s: nat)
    requires a <= b
    ensures a * s <= b * s
  {
    Sum(a, b - a, s);
  }

  lemma CountsUp(k: nat, m: nat)
    requires m > 0
    ensures (k + 1) / m == k / m + (if k % m + 1 == m then 1 else 0)
    ensures (k + 1) % m == if k % m + 1 == m then 0 else k % m + 1
  {
    var q, r := k / m, k % m;
    assert k == m * q + r;
    if r + 1 == m {
      assert k + 1 == m * (q + 1) + 0;
      QuotientIs(k + 1, m, q + 1, 0);
    } else {
      QuotientIs(k + 1, m, q, r + 1);
    }
  }

  lemma QuotientIs(x: nat, m: nat, q: nat, r: nat)
    requires r < m && x == m * q + r
    ensures x / m == q && x % m == r
  {
    var q', r' := x / m, x % m;
    assert x == m * q' + r';
    if q < q' {
      Larger(m, q, q');
    } else if q' < q {
      Larger(m, q', q);
    }
  }

  lemma Larger(m: nat, a: nat, b: nat)
    requires a < b
    ensures m * a + m <= m * b
  {
    Sum(a, 1, m);
    Multiples(a + 1, b, m);
    assert (a + 1) * m == m * a + m && b * m == m * b;
  }

  /** The open file takes one more message of `s` bytes. */
  lemma FileCountStep(f: Files, m: Message, max: i32, s: nat)
    requires 0 < s && PerFile(max, s) * s < 0x8000_0000 && |m| == s
    requires AllOf(f.open, s) && |f.open| < PerFile(max, s)
    ensures AllOf(Write(f, m, max).open, s)
    ensures if |f.open| + 1 == PerFile(max, s)
            then Write(f, m, max) == Files(f.closed + [f.open + [m]], [])
            else Write(f, m, max) == Files(f.closed, f.open + [m])
  {
    var grown := f.open + [m];
    PayloadOf(grown, s);
    Multiples(|grown|, PerFile(max, s), s);
    Beyond(|grown|, max, s);
    SizeIsPayload(grown);
  }

  /** With messages of equal size, `k` of them have closed k / m files, m = max / s + 1, and left k % m messages in
      the open one, as long as a full file does not wrap the running size. */
  lemma {:induction false} FileCount(msgs: seq<Message>, max: i32, s: nat)
    requires 0 < s && PerFile(max, s) * s < 0x8000_0000 && AllOf(msgs, s)
    ensures |Split(msgs, max).closed| == |msgs| / PerFile(max, s)
    ensures |Split(msgs, max).open| == |msgs| % PerFile(max, s) && AllOf(Split(msgs, max).open, s)
  {
    var m := PerFile(max, s);
    if msgs == [] {
      QuotientIs(0, m, 0, 0);
    } else {
      var k := |msgs| - 1;
      FileCount(msgs[..k], max, s);
      FileCountStep(Split(msgs[..k], max), msgs[k], max, s);
      CountsUp(k, m);
    }
  }

  /** ... of which `file_size` is the bytes. */
  lemma RunningSize(msgs: seq<Message>, max: i32, s: nat)
    requires 0 < s && PerFile(max, s) * s < 0x8000_0000 && AllOf(msgs, s)
    ensures Size(Split(msgs, max).open) == |msgs| % PerFile(max, s) * s
  {
    FileCount(msgs, max, s);
    var open := Split(msgs, max).open;
    PayloadOf(open, s);
    Multiples(|open|, PerFile(max, s), s);
    SizeIsPayload(open);
  }

  /** For messages that an `int` can count, the closed form holds exactly under that condition: otherwise the message
      that should close the first file turns the running size negative. */
  lemma FileCountIff(max: i32, s: nat)
    requires 0 < s < 0x8000_0000
    ensures (forall msgs :: AllOf(msgs, s) ==> |Split(msgs, max).closed| == |msgs| / PerFile(max, s))
            <==> PerFile(max, s) * s < 0x8000_0000
  {
    var m := PerFile(max, s);
    if m * s < 0x8000_0000 {
      forall msgs | AllOf(msgs, s)
        ensures |Split(msgs, max).closed| == |msgs| / m
      {
        FileCount(msgs, max, s);
      }
    } else {
      SameIs(m, s);
      NeverClosed(m, max, s);
      QuotientIs(m, m, 1, 0);
    }
  }

  lemma NeverClosed(m: nat, max: i32, s: nat)
    requires 0 < s < 0x8000_0000 && m == PerFile(max, s) && m * s >= 0x8000_0000
    ensures |Split(Same(m, s), max).closed| == 0
  {
    var file := Same(m - 1, s);
    Sum(m - 1, 1, s);
    Beyond(m - 1, max, s);
    SameStay(m - 1, s, max);
    SameIs(m - 1, s);
    PayloadOf(file, s);
    SizeIsPayload(file);
    SplitAppend(file, Zeros(s), max);
    OverflowingWrite(file, Zeros(s), max);
  }
}
