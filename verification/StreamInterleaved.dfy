/**
 One writer and one reader use a stream or message buffer at the same time (stream_buffer.c).  Every
 load of an index, every byte copied and every index update is a step of its own, and the bytes of
 a memcpy move in any order; the copies run outside any critical section.

 `sent` is every byte ever published and `consumed` how many of them have been given back, so that
 `|sent|` and `consumed` are the unwrapped positions of the two indices.  `delivered` collects the
 payload handed to the readers, `messagesSent` and `messagesGot` whole messages.
 */
module StreamInterleaved {
  import opened ModularTime
  import opened Rings
  import opened StreamBuffers

  /** The writer inside xStreamBufferSend.  In the states that remember a tail, `at` is the unwrapped
      position at which it was loaded. */
  datatype Writer =
    | Resting
    | Sizing(data: seq<byte>)
    | LoadedTail(data: seq<byte>, originalTail: nat)
    | LoadedAgain(data: seq<byte>, originalTail: nat, sum: nat, at: nat)
    | Subtracted(data: seq<byte>, originalTail: nat, sum: nat, at: nat)
    | Sized(data: seq<byte>, space: nat)
    | Copying(data: seq<byte>, bytes: seq<byte>, done: set<nat>, publish: bool)

  /** The reader inside xStreamBufferReceive.  `upTo` is the unwrapped position of the head that was
      loaded and `frames` the number of messages published by then. */
  datatype Reader =
    | Waiting
    | Counting(limit: nat, sum: nat, upTo: nat, frames: nat)
    | Counted(limit: nat, available: nat, upTo: nat, frames: nat)
    | ReadingLength(limit: nat, available: nat, upTo: nat, frames: nat, got: map<nat, byte>)
    | Reading(skip: nat, count: nat, got: map<nat, byte>)

  /** `lengthBytes` is 0 for a plain stream buffer. */
  datatype State = State(
    length: nat, lengthBytes: nat, cells: seq<byte>, head: nat, tail: nat,
    sent: seq<byte>, consumed: nat, delivered: seq<byte>, messagesSent: seq<Message>, messagesGot: seq<Message>,
    writer: Writer, reader: Reader)

  datatype Step =
    | Send(data: seq<byte>)
    | LoadTail
    | LoadTailAgain
    | SubtractHead
    | CompareTail
    | Decide(again: bool)
    | CopyIn(i: nat)
    | Publish
    | Receive(limit: nat)
    | SubtractTail
    | Choose
    | CopyOutLength(i: nat)
    | UseLength
    | Answer
    | CopyOut(i: nat)
    | Consume

  predicate Enabled(s: State, step: Step) {
    match step
    case Send(data) => s.writer.Resting? && (0 < s.lengthBytes ==> |data| < Capacity(s.lengthBytes))
    case LoadTail => s.writer.Sizing?
    case LoadTailAgain => s.writer.LoadedTail?
    case SubtractHead => s.writer.LoadedAgain? && s.head <= s.writer.sum
    case CompareTail => s.writer.Subtracted? && 0 < s.writer.sum
    case Decide(_) => s.writer.Sized?
    case CopyIn(i) =>
      && s.writer.Copying? && i < |s.writer.bytes| && i !in s.writer.done
      && Wrap(s.length, s.head + i) < |s.cells|
    case Publish => s.writer.Copying? && forall i :: 0 <= i < |s.writer.bytes| ==> i in s.writer.done
    case Receive(_) => s.reader.Waiting?
    case SubtractTail => s.reader.Counting? && s.tail <= s.reader.sum
    case Choose => s.reader.Counted?
    case CopyOutLength(i) =>
      && s.reader.ReadingLength? && i < s.lengthBytes && i !in s.reader.got
      && Wrap(s.length, s.tail + i) < |s.cells|
    case UseLength =>
      && s.reader.ReadingLength? && s.lengthBytes <= s.reader.available
      && forall i :: 0 <= i < s.lengthBytes ==> i in s.reader.got
    case Answer => s.reader.ReadingLength? && forall i :: 0 <= i < s.lengthBytes ==> i in s.reader.got
    case CopyOut(i) =>
      && s.reader.Reading? && i < s.reader.count && i !in s.reader.got
      && Wrap(s.length, s.tail + s.reader.skip + i) < |s.cells|
    case Consume => s.reader.Reading? && forall i :: 0 <= i < s.reader.count ==> i in s.reader.got
  }

  /** The bytes collected by a finished copy. */
  function Collected(got: map<nat, byte>, n: nat): (r: seq<byte>)
    requires forall i :: 0 <= i < n ==> i in got
    ensures |r| == n
    ensures forall i :: 0 <= i < n ==> r[i] == got[i]
  {
    seq(n, i requires 0 <= i < n => got[i])
  }

  /** What prvWriteMessageToBuffer decides to copy with `space` bytes of room.  An empty message copies
      its length but is never published. */
  function Plan(s: State, data: seq<byte>, space: nat): Writer {
    if s.lengthBytes == 0 then
      if Min(|data|, space) == 0 then Resting
      else Copying(data, data[..Min(|data|, space)], {}, true)
    else if space >= |data| + s.lengthBytes then Copying(data, Frame(s.lengthBytes, data), {}, data != [])
    else Resting
  }

  function Apply(s: State, step: Step): State
    requires Enabled(s, step)
  {
    match step
    case Send(data) => s.(writer := Sizing(data))
    case LoadTail => s.(writer := LoadedTail(s.writer.data, s.tail))
    case LoadTailAgain => s.(writer := LoadedAgain(s.writer.data, s.writer.originalTail, s.length + s.tail, s.consumed))
    case SubtractHead =>
      s.(writer := Subtracted(s.writer.data, s.writer.originalTail, s.writer.sum - s.head, s.writer.at))
    case CompareTail =>
      if s.writer.originalTail != s.tail then s.(writer := Sizing(s.writer.data))
      else
        var space := s.writer.sum - 1;
        s.(writer := Sized(s.writer.data, if space >= s.length then space - s.length else space))
    case Decide(again) =>
      s.(writer := if again then Sizing(s.writer.data) else Plan(s, s.writer.data, s.writer.space))
    case CopyIn(i) =>
      s.(cells := s.cells[Wrap(s.length, s.head + i) := s.writer.bytes[i]],
         writer := s.writer.(done := s.writer.done + {i}))
    case Publish =>
      if s.writer.publish then
        s.(head := Wrap(s.length, s.head + |s.writer.bytes|), sent := s.sent + s.writer.bytes,
           messagesSent := if s.lengthBytes == 0 then s.messagesSent else s.messagesSent + [s.writer.data],
           writer := Resting)
      else s.(writer := Resting)
    case Receive(limit) => s.(reader := Counting(limit, s.length + s.head, |s.sent|, |s.messagesSent|))
    case SubtractTail =>
      var count := s.reader.sum - s.tail;
      s.(reader := Counted(s.reader.limit, if count >= s.length then count - s.length else count,
                           s.reader.upTo, s.reader.frames))
    case Choose =>
      var r := s.reader;
      if r.available <= s.lengthBytes then s.(reader := Waiting)
      else if s.lengthBytes == 0 then
        s.(reader := if Min(r.limit, r.available) == 0 then Waiting else Reading(0, Min(r.limit, r.available), map[]))
      else s.(reader := ReadingLength(r.limit, r.available, r.upTo, r.frames, map[]))
    case CopyOutLength(i) =>
      var r := s.reader;
      s.(reader := ReadingLength(r.limit, r.available, r.upTo, r.frames,
                                 r.got[i := s.cells[Wrap(s.length, s.tail + i)]]))
    case UseLength =>
      var n := Decode(Collected(s.reader.got, s.lengthBytes));
      var count := Min(if n > s.reader.limit then 0 else n, s.reader.available - s.lengthBytes);
      s.(reader := if count == 0 then Waiting else Reading(s.lengthBytes, count, map[]))
    case Answer => s.(reader := Waiting)
    case CopyOut(i) =>
      var r := s.reader;
      s.(reader := Reading(r.skip, r.count, r.got[i := s.cells[Wrap(s.length, s.tail + r.skip + i)]]))
    case Consume =>
      var n := s.reader.skip + s.reader.count;
      var payload := Collected(s.reader.got, s.reader.count);
      s.(tail := Wrap(s.length, s.tail + n),
         consumed := s.consumed + n, delivered := s.delivered + payload,
         messagesGot := if s.lengthBytes == 0 then s.messagesGot else s.messagesGot + [payload],
         reader := Waiting)
  }

  // ---------- The invariant ----------

  /** The cells between the indices hold what was sent and not yet consumed; one cell stays free. */
  ghost predicate RingOk(s: State) {
    && 0 < s.length == |s.cells|
    && s.consumed <= |s.sent| < s.consumed + s.length
    && s.head == Tick(s.length, |s.sent|) && s.tail == Tick(s.length, s.consumed)
    && forall p :: s.consumed <= p < |s.sent| ==> s.cells[Tick(s.length, p)] == s.sent[p]
  }

  /** A tail loaded earlier gives a lower bound for the room. */
  ghost predicate StaleTail(s: State, at: nat) {
    at <= s.consumed && at <= |s.sent| < at + s.length
  }

  ghost predicate WriterOk(s: State)
    requires 0 < s.length == |s.cells|
  {
    && (!s.writer.Resting? && 0 < s.lengthBytes ==> |s.writer.data| < Capacity(s.lengthBytes))
    && match s.writer
       case LoadedAgain(_, _, sum, at) => StaleTail(s, at) && sum == s.length + Tick(s.length, at)
       case Subtracted(_, _, sum, at) => StaleTail(s, at) && sum == s.length + Tick(s.length, at) - s.head
       case Sized(_, space) => |s.sent| + space < s.consumed + s.length
       case Copying(data, bytes, done, publish) =>
         && 0 < |bytes| && |s.sent| + |bytes| < s.consumed + s.length
         && (forall p :: |s.sent| <= p < |s.sent| + |bytes| && p - |s.sent| in done ==>
               s.cells[Tick(s.length, p)] == bytes[p - |s.sent|])
         && (if s.lengthBytes == 0 then publish && bytes <= data
             else bytes == Frame(s.lengthBytes, data) && (publish <==> data != []))
       case _ => true
  }

  /** A head loaded earlier gives a lower bound for the bytes, at the end of a whole frame. */
  ghost predicate StaleHead(s: State, upTo: nat, frames: nat) {
    && s.consumed <= upTo <= |s.sent|
    && (0 < s.lengthBytes ==>
          |s.messagesGot| <= frames <= |s.messagesSent| && upTo == |Frames(s.lengthBytes, s.messagesSent[..frames])|)
  }

  ghost predicate GotOk(s: State, got: map<nat, byte>, n: nat, from: nat) {
    from + n <= |s.sent| && forall i :: i in got ==> i < n && got[i] == s.sent[from + i]
  }

  ghost predicate ReaderOk(s: State)
    requires 0 < s.length
  {
    match s.reader
    case Waiting => true
    case Counting(_, sum, upTo, frames) => StaleHead(s, upTo, frames) && sum == s.length + Tick(s.length, upTo)
    case Counted(_, available, upTo, frames) => StaleHead(s, upTo, frames) && available == upTo - s.consumed
    case ReadingLength(_, available, upTo, frames, got) =>
      && StaleHead(s, upTo, frames) && available == upTo - s.consumed && 0 < s.lengthBytes < available
      && GotOk(s, got, s.lengthBytes, s.consumed)
    case Reading(skip, count, got) =>
      && 0 < count && skip == s.lengthBytes && GotOk(s, got, count, s.consumed + skip)
      && (0 < s.lengthBytes ==>
            |s.messagesGot| < |s.messagesSent| && count == |s.messagesSent[|s.messagesGot|]|)
  }

  ghost predicate TrafficOk(s: State) {
    if s.lengthBytes == 0 then s.consumed <= |s.sent| && s.delivered == s.sent[..s.consumed]
    else
      && Storable(s.lengthBytes, s.messagesSent) && s.sent == Frames(s.lengthBytes, s.messagesSent)
      && s.messagesGot <= s.messagesSent && s.consumed == |Frames(s.lengthBytes, s.messagesGot)|
  }

  ghost predicate Inv(s: State) {
    RingOk(s) && WriterOk(s) && ReaderOk(s) && TrafficOk(s)
  }

  // ---------- Cells ----------

  /** Positions of the bytes stored and of the bytes being written lie in different cells. */
  lemma CellsApart(s: State, q: nat)
    requires RingOk(s) && s.consumed <= q < s.consumed + s.length
    ensures forall p :: s.consumed <= p < s.consumed + s.length && p != q ==> Tick(s.length, p) != Tick(s.length, q)
  {
    hide Tick;
    forall p | s.consumed <= p < s.consumed + s.length && p != q ensures Tick(s.length, p) != Tick(s.length, q) {
      TicksDiffer(s.length, if p < q then p else q, if p < q then q else p);
    }
  }

  lemma Wrapped(length: nat, p: nat, d: nat)
    requires 0 < length && d <= length
    ensures Wrap(length, Tick(length, p) + d) == Tick(length, p + d) < length
  {
    TickAhead(length, p, d);
  }

  // ---------- Every step keeps the invariant ----------

  lemma CopyInKeepsInv(s: State, i: nat)
    requires Inv(s) && Enabled(s, CopyIn(i))
    ensures Inv(Apply(s, CopyIn(i)))
  {
    hide Tick, Wrap, TrafficOk, ReaderOk;
    Wrapped(s.length, |s.sent|, i);
    CellsApart(s, |s.sent| + i);
    OthersSame(s, Apply(s, CopyIn(i)));
  }

  /** The reader's view and the traffic do not depend on the cells or on the writer. */
  lemma OthersSame(s: State, r: State)
    requires 0 < s.length && r == s.(cells := r.cells, writer := r.writer)
    ensures ReaderOk(s) ==> ReaderOk(r)
    ensures TrafficOk(s) ==> TrafficOk(r)
  {
  }

  lemma PublishKeepsInv(s: State)
    requires Inv(s) && Enabled(s, Publish)
    ensures Inv(Apply(s, Publish))
  {
    hide Tick, Wrap, TrafficOk, ReaderOk, Frame, Frames;
    var r := Apply(s, Publish);
    if s.writer.publish {
      Wrapped(s.length, |s.sent|, |s.writer.bytes|);
      PublishRing(s);
      PublishTraffic(s);
      PublishReader(s);
    } else {
      OthersSame(s, r);
    }
  }

  lemma PublishRing(s: State)
    requires RingOk(s) && WriterOk(s) && Enabled(s, Publish) && s.writer.publish
    ensures RingOk(Apply(s, Publish))
  {
    hide Tick, Wrap;
    var n := |s.writer.bytes|;
    Wrapped(s.length, |s.sent|, n);
    var sent := s.sent + s.writer.bytes;
    forall p | s.consumed <= p < |sent| ensures s.cells[Tick(s.length, p)] == sent[p] {
      assert |s.sent| <= p ==> p - |s.sent| in s.writer.done;
    }
  }

  lemma PublishTraffic(s: State)
    requires RingOk(s) && WriterOk(s) && TrafficOk(s) && Enabled(s, Publish) && s.writer.publish
    ensures TrafficOk(Apply(s, Publish))
  {
    hide Tick, Wrap, Frame, Frames;
    if 0 < s.lengthBytes {
      FramesAppend(s.lengthBytes, s.messagesSent, s.writer.data);
    }
  }

  lemma PublishReader(s: State)
    requires RingOk(s) && WriterOk(s) && ReaderOk(s) && Enabled(s, Publish) && s.writer.publish
    ensures ReaderOk(Apply(s, Publish))
  {
    hide Tick, Wrap, Frame, Frames;
    var r := Apply(s, Publish);
    match s.reader
    case Waiting =>
    case Counting(_, _, upTo, frames) => StaleHeadStays(s, r, upTo, frames);
    case Counted(_, _, upTo, frames) => StaleHeadStays(s, r, upTo, frames);
    case ReadingLength(_, _, upTo, frames, _) => StaleHeadStays(s, r, upTo, frames);
    case Reading(_, _, _) =>
  }

  /** Publishing more does not invalidate a head loaded before. */
  lemma StaleHeadStays(s: State, r: State, upTo: nat, frames: nat)
    requires StaleHead(s, upTo, frames) && s.sent <= r.sent && s.messagesSent <= r.messagesSent
    requires r.consumed == s.consumed && r.lengthBytes == s.lengthBytes && r.messagesGot == s.messagesGot
    ensures StaleHead(r, upTo, frames)
  {
    if 0 < s.lengthBytes {
      assert s.messagesSent[..frames] == r.messagesSent[..frames];
    }
  }

  /** Sizing: whatever the reader does between the loads, the room computed is really there. */
  lemma SizingKeepsInv(s: State, step: Step)
    requires Inv(s) && Enabled(s, step)
    requires step.Send? || step.LoadTail? || step.LoadTailAgain? || step.SubtractHead? || step.CompareTail?
    ensures Inv(Apply(s, step))
  {
    hide TrafficOk, ReaderOk, WriterOk, Tick;
    OthersSame(s, Apply(s, step));
    SizingKeepsWriter(s, step);
  }

  lemma SizingKeepsWriter(s: State, step: Step)
    requires RingOk(s) && WriterOk(s) && Enabled(s, step)
    requires step.Send? || step.LoadTail? || step.LoadTailAgain? || step.SubtractHead? || step.CompareTail?
    ensures WriterOk(Apply(s, step))
  {
    hide Tick, Capacity;
    if step.CompareTail? {
      RoomIsThere(s);
    }
  }

  /** The wrapped subtraction yields the room there was when the tail was loaded. */
  lemma RoomIsThere(s: State)
    requires RingOk(s) && WriterOk(s) && s.writer.Subtracted?
    ensures 0 < s.writer.sum
    ensures var room := s.writer.sum - 1;
            |s.sent| + (if room >= s.length then room - s.length else room) == s.writer.at + s.length - 1
  {
    hide Tick;
    TickAhead(s.length, s.writer.at, |s.sent| - s.writer.at);
  }

  lemma DecideKeepsInv(s: State, again: bool)
    requires Inv(s) && Enabled(s, Decide(again))
    ensures Inv(Apply(s, Decide(again)))
  {
    hide Tick, TrafficOk, ReaderOk;
    OthersSame(s, Apply(s, Decide(again)));
  }

  /** Counting: the bytes computed are really there. */
  lemma CountingKeepsInv(s: State, step: Step)
    requires Inv(s) && Enabled(s, step) && (step.Receive? || step.SubtractTail? || step.Choose? || step.Answer?)
    ensures Inv(Apply(s, step))
  {
    hide Tick, RingOk, TrafficOk, WriterOk, ReaderOk;
    InRing(s);
    WriterSame(s, Apply(s, step));
    CountingKeepsReader(s, step);
  }

  lemma InRing(s: State)
    requires Inv(s)
    ensures 0 < s.length == |s.cells|
  {
  }

  lemma CountingKeepsReader(s: State, step: Step)
    requires RingOk(s) && ReaderOk(s) && TrafficOk(s)
    requires Enabled(s, step) && (step.Receive? || step.SubtractTail? || step.Choose? || step.Answer?)
    ensures ReaderOk(Apply(s, step))
  {
    hide Tick, TrafficOk, StaleHead, Frames;
    var r := Apply(s, step);
    match step
    case Receive(_) =>
      WholeFrames(s);
      StaleHeadStays(s, r, |s.sent|, |s.messagesSent|);
    case SubtractTail =>
      HeadAhead(s, s.reader.upTo, s.reader.frames);
      TickAhead(s.length, s.consumed, s.reader.upTo - s.consumed);
      StaleHeadStays(s, r, s.reader.upTo, s.reader.frames);
    case Choose =>
      HeadAhead(s, s.reader.upTo, s.reader.frames);
      StaleHeadStays(s, r, s.reader.upTo, s.reader.frames);
    case Answer =>
  }

  lemma HeadAhead(s: State, upTo: nat, frames: nat)
    requires StaleHead(s, upTo, frames)
    ensures s.consumed <= upTo <= |s.sent|
  {
  }

  lemma WholeFrames(s: State)
    requires TrafficOk(s) && s.consumed <= |s.sent|
    ensures StaleHead(s, |s.sent|, |s.messagesSent|)
  {
    assert s.messagesSent[..|s.messagesSent|] == s.messagesSent;
  }

  /** The writer's view, the ring and the traffic do not depend on where the reader is. */
  lemma WriterSame(s: State, r: State)
    requires 0 < s.length == |s.cells| && r == s.(reader := r.reader)
    ensures WriterOk(s) ==> WriterOk(r)
    ensures RingOk(s) ==> RingOk(r)
    ensures TrafficOk(s) ==> TrafficOk(r)
  {
  }

  lemma StoredByte(s: State, at: nat)
    requires RingOk(s) && s.consumed + at < |s.sent|
    ensures Wrap(s.length, s.tail + at) < |s.cells|
    ensures s.cells[Wrap(s.length, s.tail + at)] == s.sent[s.consumed + at]
  {
    hide Tick, Wrap;
    Wrapped(s.length, s.consumed, at);
  }

  lemma GotMore(s: State, got: map<nat, byte>, n: nat, from: nat, i: nat, b: byte)
    requires GotOk(s, got, n, from) && i < n && b == s.sent[from + i]
    ensures GotOk(s, got[i := b], n, from)
  {
  }

  lemma CopyOutLengthKeepsInv(s: State, i: nat)
    requires Inv(s) && Enabled(s, CopyOutLength(i))
    ensures Inv(Apply(s, CopyOutLength(i)))
  {
    hide Wrap, RingOk, TrafficOk, WriterOk, GotOk, StaleHead, Frames;
    var r := Apply(s, CopyOutLength(i));
    InRing(s);
    WriterSame(s, r);
    GotInRange(s, s.reader.got, s.lengthBytes, s.consumed);
    StoredByte(s, i);
    GotMore(s, s.reader.got, s.lengthBytes, s.consumed, i, s.sent[s.consumed + i]);
    StaleHeadStays(s, r, s.reader.upTo, s.reader.frames);
    SameGot(s, r, r.reader.got, s.lengthBytes, s.consumed);
  }

  lemma CopyOutKeepsInv(s: State, i: nat)
    requires Inv(s) && Enabled(s, CopyOut(i))
    ensures Inv(Apply(s, CopyOut(i)))
  {
    hide Wrap, RingOk, TrafficOk, WriterOk, GotOk, Frames;
    var r := Apply(s, CopyOut(i));
    InRing(s);
    WriterSame(s, r);
    var from := s.consumed + s.reader.skip;
    GotInRange(s, s.reader.got, s.reader.count, from);
    StoredByte(s, s.reader.skip + i);
    GotMore(s, s.reader.got, s.reader.count, from, i, s.sent[from + i]);
    SameGot(s, r, r.reader.got, s.reader.count, from);
  }

  lemma GotInRange(s: State, got: map<nat, byte>, n: nat, from: nat)
    requires GotOk(s, got, n, from)
    ensures from + n <= |s.sent|
  {
  }

  lemma SameGot(s: State, r: State, got: map<nat, byte>, n: nat, from: nat)
    requires GotOk(s, got, n, from) && r.sent == s.sent
    ensures GotOk(r, got, n, from)
  {
  }

  // ---------- Messages ----------

  lemma {:induction false} FramesConcat(bytes: nat, a: seq<Message>, b: seq<Message>)
    ensures Frames(bytes, a + b) == Frames(bytes, a) + Frames(bytes, b)
  {
    hide Frame;
    if a == [] {
      assert a + b == b;
    } else {
      FramesConcat(bytes, a[1..], b);
      assert (a + b)[1..] == a[1..] + b;
      Associative(Frame(bytes, a[0]), Frames(bytes, a[1..]), Frames(bytes, b));
    }
  }

  lemma Slice(s: seq<byte>, a: nat, b: nat, c: nat, d: nat)
    requires a <= b <= |s| && c <= d <= b - a
    ensures s[a..b][c..d] == s[a + c..a + d]
  {
    var r, q := s[a..b][c..d], s[a + c..a + d];
    assert |r| == |q|;
    forall k | 0 <= k < |r| ensures r[k] == q[k] {
    }
  }

  /** When a head beyond the tail has been loaded, the next message is there in full. */
  lemma NextMessage(s: State, upTo: nat, frames: nat)
    requires TrafficOk(s) && 0 < s.lengthBytes && StaleHead(s, upTo, frames) && s.consumed < upTo
    ensures var k := |s.messagesGot|;
            && k < |s.messagesSent| && 0 < |s.messagesSent[k]|
            && var n := |s.messagesSent[k]|;
            && s.consumed + s.lengthBytes + n <= upTo
            && Decode(s.sent[s.consumed..s.consumed + s.lengthBytes]) == n
            && s.sent[s.consumed + s.lengthBytes..s.consumed + s.lengthBytes + n] == s.messagesSent[k]
  {
    var bytes, k := s.lengthBytes, |s.messagesGot|;
    hide Frame, Frames, Decode;
    UnreadFrames(s, upTo, frames);
    var front := s.messagesSent[k..frames];
    FirstFrame(bytes, front);
    var n := |s.messagesSent[k]|;
    Slice(s.sent, s.consumed, upTo, 0, bytes);
    Slice(s.sent, s.consumed, upTo, bytes, bytes + n);
  }

  /** What lies between the tail and a head loaded before is a number of whole frames. */
  lemma UnreadFrames(s: State, upTo: nat, frames: nat)
    requires TrafficOk(s) && 0 < s.lengthBytes && StaleHead(s, upTo, frames) && s.consumed < upTo
    ensures |s.messagesGot| < frames <= |s.messagesSent|
    ensures s.sent[s.consumed..upTo] == Frames(s.lengthBytes, s.messagesSent[|s.messagesGot|..frames])
  {
    hide Frame, Frames;
    var bytes, k := s.lengthBytes, |s.messagesGot|;
    assert s.messagesSent[..k] == s.messagesGot;
    var front := s.messagesSent[k..frames];
    assert s.messagesSent[..frames] == s.messagesGot + front;
    FramesConcat(bytes, s.messagesGot, front);
    assert s.messagesSent == s.messagesSent[..frames] + s.messagesSent[frames..];
    FramesConcat(bytes, s.messagesSent[..frames], s.messagesSent[frames..]);
    assert s.sent[..upTo] == Frames(bytes, s.messagesGot) + Frames(bytes, front);
    assert s.sent[s.consumed..upTo] == s.sent[..upTo][s.consumed..];
  }

  lemma CollectedPrefix(s: State, n: nat)
    requires s.reader.ReadingLength? && n == s.lengthBytes && GotOk(s, s.reader.got, n, s.consumed)
    requires forall i :: 0 <= i < n ==> i in s.reader.got
    ensures Collected(s.reader.got, n) == s.sent[s.consumed..s.consumed + n]
  {
  }

  lemma UseLengthKeepsInv(s: State)
    requires Inv(s) && Enabled(s, UseLength)
    ensures Inv(Apply(s, UseLength))
  {
    hide Tick, TrafficOk, WriterOk, Decode, Frames;
    WriterSame(s, Apply(s, UseLength));
    NextMessage(s, s.reader.upTo, s.reader.frames);
    CollectedPrefix(s, s.lengthBytes);
  }

  /** The length query reports the length of the next message. */
  lemma AnswerIsExact(s: State)
    requires Inv(s) && Enabled(s, Answer)
    ensures |s.messagesGot| < |s.messagesSent|
    ensures Decode(Collected(s.reader.got, s.lengthBytes)) == |s.messagesSent[|s.messagesGot|]|
  {
    hide Tick, WriterOk, Decode, Frames;
    NextMessage(s, s.reader.upTo, s.reader.frames);
    CollectedPrefix(s, s.lengthBytes);
  }

  lemma ConsumeKeepsInv(s: State)
    requires Inv(s) && Enabled(s, Consume)
    ensures Inv(Apply(s, Consume))
  {
    hide Tick, Wrap, TrafficOk, WriterOk, Frames, Frame;
    var r := Apply(s, Consume);
    Wrapped(s.length, s.consumed, s.reader.skip + s.reader.count);
    ConsumeWriter(s);
    ConsumeTraffic(s);
  }

  /** The reader giving cells back only adds room. */
  lemma ConsumeWriter(s: State)
    requires RingOk(s) && WriterOk(s) && ReaderOk(s) && Enabled(s, Consume)
    ensures WriterOk(Apply(s, Consume))
  {
    hide Tick, Wrap;
  }

  /** What was copied out is what was sent. */
  lemma PayloadSent(s: State)
    requires 0 < s.length && ReaderOk(s) && Enabled(s, Consume)
    ensures var from := s.consumed + s.reader.skip;
            && from + s.reader.count <= |s.sent|
            && Collected(s.reader.got, s.reader.count) == s.sent[from..from + s.reader.count]
  {
    hide Frames;
  }

  lemma ConsumeTraffic(s: State)
    requires RingOk(s) && TrafficOk(s) && ReaderOk(s) && Enabled(s, Consume)
    ensures TrafficOk(Apply(s, Consume))
  {
    hide RingOk, ReaderOk, Tick, Wrap;
    RingLength(s);
    PayloadSent(s);
    if s.lengthBytes == 0 {
      StreamConsumed(s);
    } else {
      MessageConsumed(s);
    }
  }

  lemma RingLength(s: State)
    requires RingOk(s)
    ensures 0 < s.length
  {
  }

  lemma StreamConsumed(s: State)
    requires RingOk(s) && TrafficOk(s) && ReaderOk(s) && Enabled(s, Consume) && s.lengthBytes == 0
    ensures TrafficOk(Apply(s, Consume))
  {
    hide Tick, Wrap, GotOk;
    PayloadSent(s);
    var payload := Collected(s.reader.got, s.reader.count);
    assert s.sent[..s.consumed] + payload == s.sent[..s.consumed + s.reader.count];
  }

  lemma MessageConsumed(s: State)
    requires RingOk(s) && TrafficOk(s) && ReaderOk(s) && Enabled(s, Consume) && 0 < s.lengthBytes
    ensures TrafficOk(Apply(s, Consume))
  {
    hide Tick, Wrap, Decode, Frame, Frames, Storable, Encode, GotOk;
    var payload, k := Collected(s.reader.got, s.reader.count), |s.messagesGot|;
    PayloadSent(s);
    NextMessageAtEnd(s);
    FramesAppend(s.lengthBytes, s.messagesGot, payload);
    FrameLength(s.lengthBytes, payload);
    assert s.messagesGot + [payload] == s.messagesSent[..k+1];
  }

  lemma FrameLength(bytes: nat, m: Message)
    ensures |Frame(bytes, m)| == bytes + |m|
  {
  }

  lemma NextMessageAtEnd(s: State)
    requires RingOk(s) && TrafficOk(s) && ReaderOk(s) && s.reader.Reading? && 0 < s.lengthBytes
    ensures var k := |s.messagesGot|;
            var from := s.consumed + s.lengthBytes;
            k < |s.messagesSent| && from + |s.messagesSent[k]| <= |s.sent|
            && s.sent[from..from + |s.messagesSent[k]|] == s.messagesSent[k]
  {
    WholeFrames(s);
    NextMessage(s, |s.sent|, |s.messagesSent|);
  }

  /** Every step of the writer and of the reader keeps the invariant. */
  lemma StepKeepsInv(s: State, step: Step)
    requires Inv(s) && Enabled(s, step)
    ensures Inv(Apply(s, step))
  {
    hide Inv, Apply, Enabled;
    match step
    case Send(_) => SizingKeepsInv(s, step);
    case LoadTail => SizingKeepsInv(s, step);
    case LoadTailAgain => SizingKeepsInv(s, step);
    case SubtractHead => SizingKeepsInv(s, step);
    case CompareTail => SizingKeepsInv(s, step);
    case Decide(again) => DecideKeepsInv(s, again);
    case CopyIn(i) => CopyInKeepsInv(s, i);
    case Publish => PublishKeepsInv(s);
    case Receive(_) => CountingKeepsInv(s, step);
    case SubtractTail => CountingKeepsInv(s, step);
    case Choose => CountingKeepsInv(s, step);
    case Answer => CountingKeepsInv(s, step);
    case CopyOutLength(i) => CopyOutLengthKeepsInv(s, i);
    case CopyOut(i) => CopyOutKeepsInv(s, i);
    case UseLength => UseLengthKeepsInv(s);
    case Consume => ConsumeKeepsInv(s);
  }

  // ---------- Whole runs ----------

  function Init(length: nat, lengthBytes: nat, cells: seq<byte>): State {
    State(length, lengthBytes, cells, 0, 0, [], 0, [], [], [], Resting, Waiting)
  }

  ghost predicate IsRun(states: seq<State>, steps: seq<Step>) {
    && |states| == |steps| + 1
    && 0 < states[0].length == |states[0].cells|
    && states[0] == Init(states[0].length, states[0].lengthBytes, states[0].cells)
    && forall i :: 0 <= i < |steps| ==> Enabled(states[i], steps[i]) && states[i+1] == Apply(states[i], steps[i])
  }

  lemma {:induction false} RunInv(states: seq<State>, steps: seq<Step>, k: nat)
    requires IsRun(states, steps) && k < |states|
    ensures Inv(states[k])
  {
    if k != 0 {
      RunInv(states, steps, k - 1);
      StepKeepsInv(states[k-1], steps[k-1]);
    }
  }

  /** In every state of every run, what has been accepted is what has been delivered followed by what
      the ring holds between its indices; for a message buffer the ring holds whole frames, the
      messages delivered are the first ones sent, and the frames of the others follow in order. */
  lemma NothingLostOrInvented(states: seq<State>, steps: seq<Step>, k: nat)
    requires IsRun(states, steps) && k < |states|
    ensures var s := states[k];
            && s.tail < s.length == |s.cells| && s.head < s.length
            && var stored := Distance(s.length, s.tail, s.head);
            && s.consumed <= |s.sent| && Span(s.cells, s.tail, stored) == s.sent[s.consumed..]
            && (s.lengthBytes == 0 ==> s.sent == s.delivered + Span(s.cells, s.tail, stored))
            && (0 < s.lengthBytes ==>
                  && s.messagesGot <= s.messagesSent
                  && Span(s.cells, s.tail, stored) == Frames(s.lengthBytes, s.messagesSent[|s.messagesGot|..]))
  {
    hide Tick, Frames, Frame;
    RunInv(states, steps, k);
    var s := states[k];
    RingHoldsUnread(s);
    if 0 < s.lengthBytes {
      assert s.messagesSent == s.messagesGot + s.messagesSent[|s.messagesGot|..];
      FramesConcat(s.lengthBytes, s.messagesGot, s.messagesSent[|s.messagesGot|..]);
    }
  }

  lemma RingHoldsUnread(s: State)
    requires RingOk(s)
    ensures s.tail < s.length && s.head < s.length
    ensures Distance(s.length, s.tail, s.head) == |s.sent| - s.consumed
    ensures Span(s.cells, s.tail, |s.sent| - s.consumed) == s.sent[s.consumed..]
  {
    hide Tick;
    var n := |s.sent| - s.consumed;
    TickAhead(s.length, s.consumed, n);
    var span := Span(s.cells, s.tail, n);
    forall k | 0 <= k < n ensures span[k] == s.sent[s.consumed + k] {
      Wrapped(s.length, s.consumed, k);
    }
  }

  lemma CopiesApart(s: State, i: nat, j: nat)
    requires Inv(s) && s.writer.Copying? && i < |s.writer.bytes|
    requires if s.reader.Reading? then j < s.reader.skip + s.reader.count
             else s.reader.ReadingLength? && j < s.lengthBytes
    ensures Wrap(s.length, s.head + i) != Wrap(s.length, s.tail + j)
    ensures |s.sent| + i < s.consumed + s.length && s.consumed + j < |s.sent|
  {
    hide Tick, Wrap, TrafficOk, Frame, Frames;
    Wrapped(s.length, |s.sent|, i);
    Wrapped(s.length, s.consumed, j);
    TicksDiffer(s.length, s.consumed + j, |s.sent| + i);
  }

  /** The writer copies only into free cells, and the reader only out of filled ones: in every state
      of every run, no cell that the writer may write next is a cell that the reader may read. */
  lemma CopiesNeverMeet(states: seq<State>, steps: seq<Step>, k: nat, i: nat, j: nat)
    requires IsRun(states, steps) && k < |states|
    requires states[k].writer.Copying? && i < |states[k].writer.bytes|
    requires if states[k].reader.Reading? then j < states[k].reader.skip + states[k].reader.count
             else states[k].reader.ReadingLength? && j < states[k].lengthBytes
    ensures var s := states[k];
            && Wrap(s.length, s.head + i) != Wrap(s.length, s.tail + j)
            && |s.sent| + i < s.consumed + s.length && s.consumed + j < |s.sent|
  {
    hide Inv, Tick, Wrap, Enabled, Apply;
    RunInv(states, steps, k);
    CopiesApart(states[k], i, j);
  }

  /** A room computed from a stale tail and a count computed from a stale head never exceed what is
      really there. */
  lemma StaleCountsAreLowerBounds(states: seq<State>, steps: seq<Step>, k: nat)
    requires IsRun(states, steps) && k < |states|
    ensures var s := states[k];
            && s.tail < s.length && s.head < s.length
            && (s.writer.Sized? ==> s.writer.space <= s.length - 1 - Distance(s.length, s.tail, s.head))
            && (s.reader.Counted? ==> s.reader.available <= Distance(s.length, s.tail, s.head))
  {
    hide Tick, TrafficOk;
    RunInv(states, steps, k);
    RingHoldsUnread(states[k]);
  }

  /** No computation with the indices leaves its range: each step that the program counters call for
      can be taken. */
  lemma NeverOutOfRange(s: State)
    requires Inv(s)
    ensures s.writer.LoadedAgain? ==> Enabled(s, SubtractHead)
    ensures s.writer.Subtracted? ==> Enabled(s, CompareTail)
    ensures s.reader.Counting? ==> Enabled(s, SubtractTail)
    ensures s.writer.Copying? ==> forall i :: 0 <= i < |s.writer.bytes| && i !in s.writer.done ==> Enabled(s, CopyIn(i))
    ensures s.reader.Reading? ==> forall i :: 0 <= i < s.reader.count && i !in s.reader.got ==> Enabled(s, CopyOut(i))
  {
    hide Tick, TrafficOk, Frame, Frames;
    Wrapped(s.length, |s.sent|, 0);
    Wrapped(s.length, s.consumed, 0);
    if s.writer.Subtracted? {
      RoomIsThere(s);
    }
  }

  /** A receive with enough room delivers exactly the oldest message that was not delivered yet. */
  lemma DeliversOldest(s: State)
    requires Inv(s) && Enabled(s, Consume) && 0 < s.lengthBytes
    ensures var r := Apply(s, Consume);
            && |s.messagesGot| < |s.messagesSent|
            && r.messagesGot == s.messagesGot + [s.messagesSent[|s.messagesGot|]]
            && r.delivered == s.delivered + s.messagesSent[|s.messagesGot|]
  {
    hide Tick, Wrap, Frames, Frame, Decode;
    NextMessageAtEnd(s);
    var k := |s.messagesGot|;
    assert Collected(s.reader.got, s.reader.count) == s.messagesSent[k];
  }

  /** A receive whose buffer is too small, and a length query, leave the buffer as it is. */
  lemma TooSmallChangesNothing(s: State)
    requires Inv(s) && Enabled(s, UseLength)
    requires |s.messagesGot| < |s.messagesSent| && s.reader.limit < |s.messagesSent[|s.messagesGot|]|
    ensures Apply(s, UseLength) == s.(reader := Waiting)
  {
    hide Tick, WriterOk, Decode, Frames;
    NextMessage(s, s.reader.upTo, s.reader.frames);
    CollectedPrefix(s, s.lengthBytes);
  }

  // ---------- How much a send accepts and a receive delivers ----------

  /** A size computed with the same tail before and after is exactly the room there was at the second load;
      otherwise the tail has moved, and the size is computed anew. */
  lemma SizeExact(s: State)
    requires Inv(s) && Enabled(s, CompareTail)
    ensures var r := Apply(s, CompareTail);
            && r == s.(writer := r.writer)
            && if s.writer.originalTail == s.tail then
                 && r.writer.Sized? && r.writer.data == s.writer.data
                 && |s.sent| + r.writer.space == s.writer.at + s.length - 1
               else r.writer == Sizing(s.writer.data)
  {
    RoomIsThere(s);
  }

  /** A message is copied, length and payload, iff it fits as a whole; a stream takes as many bytes as fit, and
      nothing is copied if there are none.  (The copy of an empty message is not published.) */
  lemma DecideExact(s: State)
    requires s.writer.Sized?
    ensures var data, space, r := s.writer.data, s.writer.space, Apply(s, Decide(false));
            && r == s.(writer := r.writer)
            && (0 < s.lengthBytes ==>
                  if |data| + s.lengthBytes <= space then
                    r.writer == Copying(data, Encode(s.lengthBytes, |data|) + data, {}, data != [])
                  else r.writer == Resting)
            && (s.lengthBytes == 0 ==>
                  && (data != [] && 0 < space <==> r.writer.Copying?)
                  && (!r.writer.Copying? ==> r.writer == Resting)
                  && (r.writer.Copying? && |data| <= space ==> r.writer == Copying(data, data, {}, true))
                  && (r.writer.Copying? && space < |data| ==> r.writer == Copying(data, data[..space], {}, true)))
    ensures Apply(s, Decide(true)) == s.(writer := Sizing(s.writer.data))
  {
    assert |s.writer.data| <= s.writer.space ==> s.writer.data[..|s.writer.data|] == s.writer.data;
  }

  /** The update of the head publishes what was copied, at once. */
  lemma PublishExact(s: State)
    requires Enabled(s, Publish)
    ensures var r := Apply(s, Publish);
            && r.writer == Resting && r.cells == s.cells && r.tail == s.tail && r.consumed == s.consumed
            && r.delivered == s.delivered && r.messagesGot == s.messagesGot && r.reader == s.reader
            && r.sent == (if s.writer.publish then s.sent + s.writer.bytes else s.sent)
            && r.messagesSent ==
               if s.writer.publish && 0 < s.lengthBytes then s.messagesSent + [s.writer.data] else s.messagesSent
  {
  }

  /** Until then nothing else changes what is being copied, or publishes anything. */
  lemma CopyingStays(s: State, step: Step)
    requires Enabled(s, step) && s.writer.Copying? && step != Publish
    ensures var r := Apply(s, step);
            && r.writer.Copying? && r.writer.data == s.writer.data && r.writer.bytes == s.writer.bytes
            && r.writer.publish == s.writer.publish
            && r.sent == s.sent && r.messagesSent == s.messagesSent && r.lengthBytes == s.lengthBytes
  {
  }

  lemma {:induction false} CopyingStaysUntil(states: seq<State>, steps: seq<Step>, i: nat, k: nat)
    requires IsRun(states, steps) && i <= k < |states| && states[i].writer.Copying?
    requires forall j :: i <= j < k ==> steps[j] != Publish
    ensures var w, w' := states[i].writer, states[k].writer;
            && w'.Copying? && w'.data == w.data && w'.bytes == w.bytes && w'.publish == w.publish
            && states[k].sent == states[i].sent && states[k].messagesSent == states[i].messagesSent
            && states[k].lengthBytes == states[i].lengthBytes
    decreases k - i
  {
    hide Enabled, Apply;
    if i < k {
      CopyingStaysUntil(states, steps, i, k - 1);
      CopyingStays(states[k-1], steps[k-1]);
    }
  }

  /** In every run, a send that is decided with enough room is published whole, whatever the reader does
      between the decision and the update of the head: a message as one whole message, and of a stream as many
      of its bytes as there was room for. */
  lemma DecidedIsPublished(states: seq<State>, steps: seq<Step>, i: nat, k: nat)
    requires IsRun(states, steps) && i < k < |steps| && steps[i] == Decide(false) && steps[k] == Publish
    requires forall j :: i < j < k ==> steps[j] != Publish
    requires states[i].writer.Sized? && states[i].writer.data != []
    requires if 0 < states[i].lengthBytes then |states[i].writer.data| + states[i].lengthBytes <= states[i].writer.space
             else 0 < states[i].writer.space
    ensures var data, s, r := states[i].writer.data, states[i], states[k+1];
            if 0 < s.lengthBytes then
              r.messagesSent == s.messagesSent + [data] && r.sent == s.sent + Encode(s.lengthBytes, |data|) + data
            else if |data| <= s.writer.space then r.sent == s.sent + data
            else r.sent == s.sent + data[..s.writer.space]
  {
    hide Enabled, Apply, Encode;
    DecideExact(states[i]);
    CopyingStaysUntil(states, steps, i + 1, k);
    PublishExact(states[k]);
    var data, s := states[i].writer.data, states[i];
    assert s.sent + (Encode(s.lengthBytes, |data|) + data) == s.sent + Encode(s.lengthBytes, |data|) + data;
  }

  /** A receive that finds no more than a length prefix returns at once; otherwise a stream gives as many bytes
      as are wanted and available, and a message buffer first reads the length. */
  lemma ChooseExact(s: State)
    requires s.reader.Counted?
    ensures var r, limit, available := Apply(s, Choose), s.reader.limit, s.reader.available;
            && r == s.(reader := r.reader)
            && (available <= s.lengthBytes ==> r.reader == Waiting)
            && (s.lengthBytes == 0 && 0 < available ==>
                  && (limit == 0 ==> r.reader == Waiting)
                  && (0 < limit <= available ==> r.reader == Reading(0, limit, map[]))
                  && (available < limit ==> r.reader == Reading(0, available, map[])))
            && (0 < s.lengthBytes < available ==>
                  r.reader == ReadingLength(limit, available, s.reader.upTo, s.reader.frames, map[]))
  {
  }

  /** The oldest message is read, as a whole, iff the receiver's buffer can hold it. */
  lemma UseLengthExact(s: State)
    requires Inv(s) && Enabled(s, UseLength)
    ensures |s.messagesGot| < |s.messagesSent|
    ensures var n, r := |s.messagesSent[|s.messagesGot|]|, Apply(s, UseLength);
            && r == s.(reader := r.reader)
            && r.reader == if n <= s.reader.limit then Reading(s.lengthBytes, n, map[]) else Waiting
  {
    hide Tick, WriterOk, Decode, Frames;
    NextMessage(s, s.reader.upTo, s.reader.frames);
    CollectedPrefix(s, s.lengthBytes);
  }

  lemma ReadingStays(s: State, step: Step)
    requires Enabled(s, step) && s.reader.Reading? && step != Consume
    ensures var r := Apply(s, step);
            && r.reader.Reading? && r.reader.skip == s.reader.skip && r.reader.count == s.reader.count
            && r.consumed == s.consumed && r.delivered == s.delivered && r.messagesGot == s.messagesGot
            && s.sent <= r.sent && r.lengthBytes == s.lengthBytes
  {
  }

  lemma {:induction false} ReadingStaysUntil(states: seq<State>, steps: seq<Step>, i: nat, k: nat)
    requires IsRun(states, steps) && i <= k < |states| && states[i].reader.Reading?
    requires forall j :: i <= j < k ==> steps[j] != Consume
    ensures var s, r := states[i], states[k];
            && r.reader.Reading? && r.reader.skip == s.reader.skip && r.reader.count == s.reader.count
            && r.consumed == s.consumed && r.delivered == s.delivered && r.messagesGot == s.messagesGot
            && s.sent <= r.sent && r.lengthBytes == s.lengthBytes
    decreases k - i
  {
    hide Enabled, Apply;
    if i < k {
      ReadingStaysUntil(states, steps, i, k - 1);
      ReadingStays(states[k-1], steps[k-1]);
    }
  }

  /** What a finished receive delivers is what was sent behind the bytes already consumed. */
  lemma ConsumeExact(s: State)
    requires Inv(s) && Enabled(s, Consume)
    ensures var r, from := Apply(s, Consume), s.consumed + s.reader.skip;
            && from + s.reader.count <= |s.sent|
            && r.delivered == s.delivered + s.sent[from..from + s.reader.count]
            && r.consumed == from + s.reader.count && r.sent == s.sent && r.cells == s.cells && r.writer == s.writer
  {
    hide WriterOk, TrafficOk;
    InRing(s);
    PayloadSent(s);
  }

  /** In every run, a stream receive delivers the oldest bytes, as many as were wanted and found available,
      whatever the writer does between the count and the update of the tail. */
  lemma ChosenIsDelivered(states: seq<State>, steps: seq<Step>, i: nat, k: nat)
    requires IsRun(states, steps) && i < k < |steps| && steps[i] == Choose && steps[k] == Consume
    requires forall j :: i < j < k ==> steps[j] != Consume
    requires states[i].reader.Counted? && states[i].lengthBytes == 0
    requires 0 < states[i].reader.limit && 0 < states[i].reader.available
    ensures var s, r := states[i], states[k+1];
            var n := if s.reader.limit <= s.reader.available then s.reader.limit else s.reader.available;
            && s.consumed + n <= |s.sent| && r.consumed == s.consumed + n
            && r.delivered == s.delivered + s.sent[s.consumed..s.consumed + n]
  {
    hide Enabled, Apply, Inv;
    RunInv(states, steps, i);
    AvailableIsThere(states[i]);
    ChooseExact(states[i]);
    ReadingStaysUntil(states, steps, i + 1, k);
    RunInv(states, steps, k);
    ConsumeExact(states[k]);
  }

  lemma AvailableIsThere(s: State)
    requires Inv(s) && s.reader.Counted?
    ensures s.consumed + s.reader.available <= |s.sent|
  {
  }
}
