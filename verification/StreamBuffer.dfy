/**
 Stream and message buffers (stream_buffer.c): a byte ring that keeps one cell free, with message
 framing on top.  This module runs one call at a time; StreamInterleaved splits the calls into
 their loads, copies and index updates.
 */
module StreamBuffers {
  import opened Rings

  function Min(a: nat, b: nat): (r: nat)
    ensures r <= a && r <= b && (r == a || r == b)
  {
    if a < b then a else b
  }

  // ---------- Length prefix ----------

  function Capacity(bytes: nat): nat {
    if bytes == 0 then 1 else 256 * Capacity(bytes - 1)
  }

  /** The bytes of a length variable of `bytes` bytes, least significant first. */
  function Encode(bytes: nat, n: nat): (r: seq<byte>)
    ensures |r| == bytes
  {
    if bytes == 0 then [] else [n % 256] + Encode(bytes - 1, n / 256)
  }

  function Decode(s: seq<byte>): nat {
    if s == [] then 0 else s[0] + 256 * Decode(s[1..])
  }

  /** Storing a length and loading it back yields the same length, if it fits. */
  lemma {:induction false} DecodeEncode(bytes: nat, n: nat)
    requires n < Capacity(bytes)
    ensures Decode(Encode(bytes, n)) == n
  {
    if bytes != 0 {
      DecodeEncode(bytes - 1, n / 256);
    }
  }

  // ---------- Frames ----------

  type Message = seq<byte>

  function Frame(bytes: nat, m: Message): seq<byte> {
    Encode(bytes, |m|) + m
  }

  function Frames(bytes: nat, messages: seq<Message>): seq<byte> {
    if messages == [] then [] else Frame(bytes, messages[0]) + Frames(bytes, messages[1..])
  }

  ghost predicate Storable(bytes: nat, messages: seq<Message>) {
    forall i :: 0 <= i < |messages| ==> 0 < |messages[i]| < Capacity(bytes)
  }

  lemma Associative(a: seq<byte>, b: seq<byte>, c: seq<byte>)
    ensures a + (b + c) == (a + b) + c
  {
  }

  /** A new frame goes behind all others. */
  lemma {:induction false} FramesAppend(bytes: nat, messages: seq<Message>, m: Message)
    ensures Frames(bytes, messages + [m]) == Frames(bytes, messages) + Frame(bytes, m)
  {
    hide Frame;
    if messages == [] {
      assert [m][1..] == [];
      assert messages + [m] == [m];
    } else {
      FramesAppend(bytes, messages[1..], m);
      assert (messages + [m])[1..] == messages[1..] + [m];
      Associative(Frame(bytes, messages[0]), Frames(bytes, messages[1..]), Frame(bytes, m));
    }
  }

  /** The front of a non-empty message buffer is the length of its oldest message, followed by that
      message. */
  lemma FirstFrame(bytes: nat, messages: seq<Message>)
    requires Storable(bytes, messages) && messages != []
    ensures var s := Frames(bytes, messages);
            && bytes + |messages[0]| <= |s|
            && Decode(s[..bytes]) == |messages[0]|
            && s[bytes..bytes + |messages[0]|] == messages[0]
            && s[bytes + |messages[0]|..] == Frames(bytes, messages[1..])
  {
    hide Encode, Decode;
    ThreeParts(Encode(bytes, |messages[0]|), messages[0], Frames(bytes, messages[1..]));
    DecodeEncode(bytes, |messages[0]|);
  }

  lemma ThreeParts(a: seq<byte>, b: seq<byte>, c: seq<byte>)
    ensures var s := (a + b) + c;
            s[..|a|] == a && s[|a|..|a| + |b|] == b && s[|a| + |b|..] == c
  {
  }

  /** The framing is unambiguous: contents parse in one way only. */
  lemma {:induction false} FramesInjective(bytes: nat, a: seq<Message>, b: seq<Message>)
    requires Storable(bytes, a) && Storable(bytes, b) && Frames(bytes, a) == Frames(bytes, b)
    ensures a == b
  {
    if a != [] && b != [] {
      FirstFrame(bytes, a);
      FirstFrame(bytes, b);
      FramesInjective(bytes, a[1..], b[1..]);
      assert a == [a[0]] + a[1..] && b == [b[0]] + b[1..];
    } else if a != [] {
      FirstFrame(bytes, a);
    } else if b != [] {
      FirstFrame(bytes, b);
    }
  }

  lemma Reframe(s: seq<byte>, bytes: nat, m: Message)
    ensures s + Encode(bytes, |m|) + m == s + Frame(bytes, m)
  {
  }

  // ---------- The ring ----------

  lemma SpanSplit(cells: seq<byte>, from: nat, a: nat, b: nat)
    requires from < |cells| && a + b <= |cells|
    ensures Wrap(|cells|, from + a) < |cells|
    ensures Span(cells, from, a + b) == Span(cells, from, a) + Span(cells, Wrap(|cells|, from + a), b)
  {
  }

  /** Writing the cells behind a span leaves the span alone. */
  lemma SpanKept(before: seq<byte>, after: seq<byte>, from: nat, count: nat, n: nat)
    requires |before| == |after| && from < |before| && count + n <= |before|
    requires forall j :: 0 <= j < |before| && n <= Distance(|before|, Wrap(|before|, from + count), j) ==>
               after[j] == before[j]
    ensures Span(after, from, count) == Span(before, from, count)
  {
    forall k | 0 <= k < count ensures Span(after, from, count)[k] == Span(before, from, count)[k] {
      var j := Wrap(|before|, from + k);
      assert n <= Distance(|before|, Wrap(|before|, from + count), j);
    }
  }

  lemma DistanceAhead(length: nat, i: nat, d: nat)
    requires i < length && d < length
    ensures Wrap(length, i + d) < length && Distance(length, i, Wrap(length, i + d)) == d
  {
  }

  /** A span from `tail` up to `from`, and `n` further cells. */
  lemma SpanBehind(cells: seq<byte>, tail: nat, from: nat, n: nat)
    requires tail < |cells| && from < |cells| && Distance(|cells|, tail, from) + n < |cells|
    ensures var d, next := Distance(|cells|, tail, from), Wrap(|cells|, from + n);
            && from == Wrap(|cells|, tail + d)
            && next < |cells| && Distance(|cells|, tail, next) == d + n
            && Span(cells, tail, d + n) == Span(cells, tail, d) + Span(cells, from, n)
  {
    var d := Distance(|cells|, tail, from);
    DistanceAhead(|cells|, tail, d + n);
    SpanSplit(cells, tail, d, n);
  }

  class StreamBuffer {
    const length: nat
    const isMessageBuffer: bool
    const lengthBytes: nat  // sizeof( configMESSAGE_BUFFER_LENGTH_TYPE )
    const buffer: array<byte>
    var head: nat
    var tail: nat
    ghost var messages: seq<Message>

    ghost predicate Valid()
      reads this, buffer
    {
      && buffer.Length == length && head < length && tail < length && 0 < lengthBytes
      && (isMessageBuffer ==> Storable(lengthBytes, messages) && Contents() == Frames(lengthBytes, messages))
    }

    ghost predicate RingOk()
      reads this`head, this`tail
    {
      buffer.Length == length && head < length && tail < length && 0 < lengthBytes
    }

    /** What the contents would be if the head were at `to`. */
    ghost function ContentsUpTo(to: nat): (s: seq<byte>)
      requires RingOk() && to < length
      reads this`head, this`tail, buffer
      ensures |s| == Distance(length, tail, to) < length
    {
      Span(buffer[..], tail, Distance(length, tail, to))
    }

    /** The bytes stored, oldest first. */
    ghost function Contents(): (s: seq<byte>)
      requires RingOk()
      reads this`head, this`tail, buffer
      ensures |s| == Distance(length, tail, head) < length
    {
      ContentsUpTo(head)
    }

    /** prvInitialiseNewStreamBuffer. */
    constructor (size: nat, isMessageBuffer: bool, lengthBytes: nat)
      requires 0 < size && 0 < lengthBytes
      ensures Valid() && Contents() == [] && messages == [] && fresh(buffer)
      ensures length == size && this.isMessageBuffer == isMessageBuffer && this.lengthBytes == lengthBytes
    {
      length, this.isMessageBuffer, this.lengthBytes := size, isMessageBuffer, lengthBytes;
      buffer := new byte[size];
      head, tail, messages := 0, 0, [];
    }

    /** prvBytesInBuffer. */
    method BytesInBuffer() returns (count: nat)
      requires RingOk()
      ensures count == |Contents()|
    {
      count := length + head;
      count := count - tail;
      if count >= length {
        count := count - length;
      }
    }

    /** xStreamBufferSpacesAvailable, when the reader does not move meanwhile. */
    method SpacesAvailable() returns (space: nat)
      requires RingOk()
      ensures space == length - 1 - |Contents()|
    {
      space := length + tail;
      space := space - head;
      space := space - 1;
      if space >= length {
        space := space - length;
      }
    }

    /** prvWriteBytesToBuffer: copies in one or two pieces and returns the index behind the last byte
        written; the buffer's own head does not move. */
    method WriteBytes(data: seq<byte>, from: nat) returns (next: nat)
      requires RingOk() && from < length && 0 < |data| <= length
      modifies buffer
      ensures next == Wrap(length, from + |data|)
      ensures Span(buffer[..], from, |data|) == data
      ensures forall j :: 0 <= j < length && |data| <= Distance(length, from, j) ==> buffer[j] == old(buffer[j])
    {
      var firstLength := Min(length - from, |data|);
      var i := 0;
      while i < firstLength
        invariant 0 <= i <= firstLength
        invariant forall k :: 0 <= k < i ==> buffer[from + k] == data[k]
        invariant forall j :: 0 <= j < length && !(from <= j < from + i) ==> buffer[j] == old(buffer[j])
      {
        buffer[from + i] := data[i];
        i := i + 1;
      }
      if |data| > firstLength {
        i := 0;
        while i < |data| - firstLength
          invariant 0 <= i <= |data| - firstLength
          invariant forall k :: 0 <= k < firstLength ==> buffer[from + k] == data[k]
          invariant forall k :: 0 <= k < i ==> buffer[k] == data[firstLength + k]
          invariant forall j :: i <= j < from ==> buffer[j] == old(buffer[j])
        {
          buffer[i] := data[firstLength + i];
          i := i + 1;
        }
      }
      next := from + |data|;
      if next >= length {
        next := next - length;
      }
    }

    /** prvReadBytesFromBuffer. */
    method ReadBytes(target: array<byte>, count: nat, from: nat) returns (next: nat)
      requires RingOk() && from < length && 0 < count <= length && count <= target.Length && target != buffer
      modifies target
      ensures next == Wrap(length, from + count)
      ensures target[..count] == Span(buffer[..], from, count)
      ensures target[count..] == old(target[count..])
    {
      var firstLength := Min(length - from, count);
      var i := 0;
      while i < firstLength
        invariant 0 <= i <= firstLength
        invariant forall k :: 0 <= k < i ==> target[k] == buffer[from + k]
        invariant target[count..] == old(target[count..])
      {
        target[i] := buffer[from + i];
        i := i + 1;
      }
      if count > firstLength {
        i := 0;
        while i < count - firstLength
          invariant 0 <= i <= count - firstLength
          invariant forall k :: 0 <= k < firstLength ==> target[k] == buffer[from + k]
          invariant forall k :: 0 <= k < i ==> target[firstLength + k] == buffer[k]
          invariant target[count..] == old(target[count..])
        {
          target[firstLength + i] := buffer[i];
          i := i + 1;
        }
      }
      next := from + count;
      if next >= length {
        next := next - length;
      }
    }

    /** Bytes written behind `from` continue the contents up to there and change nothing before. */
    method WriteBehind(data: seq<byte>, from: nat) returns (next: nat)
      requires RingOk() && from < length && 0 < |data| && |ContentsUpTo(from)| + |data| < length
      modifies buffer
      ensures RingOk() && next < length && ContentsUpTo(from) == old(ContentsUpTo(from))
      ensures ContentsUpTo(next) == old(ContentsUpTo(from)) + data
    {
      ghost var cells := buffer[..];
      SpanBehind(cells, tail, from, |data|);
      next := WriteBytes(data, from);
      SpanKept(cells, buffer[..], tail, Distance(length, tail, from), |data|);
      SpanBehind(buffer[..], tail, from, |data|);
    }

    /** The message branch of prvWriteMessageToBuffer when there is room: length, then payload, then
        one update of the head that publishes both. */
    method AppendFrame(data: seq<byte>)
      requires RingOk() && |Contents()| + lengthBytes + |data| < length
      modifies buffer, this`head
      ensures RingOk()
      ensures Contents() == if data == [] then old(Contents()) else old(Contents()) + Frame(lengthBytes, data)
      ensures data == [] ==> head == old(head)
    {
      hide Frame, Span, Distance;
      var next := WriteBehind(Encode(lengthBytes, |data|), head);
      if data != [] {
        next := WriteBehind(data, next);
        Reframe(old(Contents()), lengthBytes, data);
        head := next;
      }
    }

    /** prvWriteMessageToBuffer. */
    method WriteMessage(data: seq<byte>, space: nat, requiredSpace: nat) returns (written: nat)
      requires Valid() && space + |Contents()| < length
      requires isMessageBuffer ==> |data| < Capacity(lengthBytes) && requiredSpace == |data| + lengthBytes
      modifies buffer, this`head, this`messages
      ensures Valid()
      ensures isMessageBuffer ==>
              && written == (if requiredSpace <= space then |data| else 0)
              && messages == (if written == 0 then old(messages) else old(messages) + [data])
      ensures !isMessageBuffer ==> written == Min(|data|, space) && Contents() == old(Contents()) + data[..written]
      ensures written == 0 ==> Contents() == old(Contents()) && head == old(head)
    {
      hide Frame, Frames, Span, Distance;
      written := |data|;
      if isMessageBuffer {
        if space >= requiredSpace {
          AppendFrame(data);
          FramesAppend(lengthBytes, messages, data);
          messages := if data == [] then messages else messages + [data];
        } else {
          written := 0;
        }
      } else {
        written := Min(|data|, space);
        if written != 0 {
          var next := WriteBehind(data[..written], head);
          head := next;
        }
      }
    }

    /** Moving the tail past the first `count` bytes drops them. */
    lemma DropFront(count: nat)
      requires RingOk() && count <= |Contents()|
      ensures var t, d := Wrap(length, tail + count), |Contents()|;
              && t < length && Distance(length, t, head) == d - count
              && Span(buffer[..], tail, count) == Contents()[..count]
              && Span(buffer[..], t, d - count) == Contents()[count..]
    {
      SpanSplit(buffer[..], tail, count, |Contents()| - count);
    }

    /** The tail of a non-empty message buffer is at a length prefix that matches the oldest message. */
    lemma OldestMessage()
      requires Valid() && isMessageBuffer && messages != []
      ensures lengthBytes + |messages[0]| <= |Contents()|
      ensures Decode(Contents()[..lengthBytes]) == |messages[0]|
      ensures Contents()[lengthBytes..lengthBytes + |messages[0]|] == messages[0]
      ensures Contents()[lengthBytes + |messages[0]|..] == Frames(lengthBytes, messages[1..])
    {
      FirstFrame(lengthBytes, messages);
    }

    /** A message buffer holds more than a length prefix exactly when it holds a message, and nothing
        otherwise. */
    lemma HasMessage()
      requires Valid() && isMessageBuffer
      ensures messages != [] <==> lengthBytes < |Contents()|
      ensures messages == [] ==> Contents() == []
    {
      if messages != [] {
        OldestMessage();
      }
    }

    /** Reads the length prefix at the tail. */
    method ReadLength() returns (messageLength: nat, next: nat)
      requires RingOk() && lengthBytes <= |Contents()|
      ensures messageLength == Decode(Contents()[..lengthBytes]) && next == Wrap(length, tail + lengthBytes)
    {
      var temp := new byte[lengthBytes];
      next := ReadBytes(temp, lengthBytes, tail);
      DropFront(lengthBytes);
      assert temp[..] == temp[..lengthBytes];
      messageLength := Decode(temp[..]);
    }

    /** Where the oldest message lies, and what is left when it has gone. */
    lemma MessageCells()
      requires Valid() && isMessageBuffer && messages != []
      ensures var n, d := |messages[0]|, |Contents()|;
              var from := Wrap(length, tail + lengthBytes);
              && lengthBytes + n <= d && from < length
              && Span(buffer[..], from, n) == messages[0]
              && var t := Wrap(length, from + n);
              && t < length && Distance(length, t, head) == d - (lengthBytes + n)
              && Span(buffer[..], t, d - (lengthBytes + n)) == Frames(lengthBytes, messages[1..])
    {
      hide Frames, Frame, Storable, Decode, Span;
      OldestMessage();
      var n := |messages[0]|;
      DropFront(lengthBytes + n);
      SpanSplit(buffer[..], tail, lengthBytes, n);
    }

    /** Copies the oldest message and gives its cells back. */
    method TakeMessage(target: array<byte>, count: nat, from: nat)
      requires Valid() && isMessageBuffer && messages != [] && target != buffer
      requires count == |messages[0]| <= target.Length && from == Wrap(length, tail + lengthBytes)
      modifies target, this`tail, this`messages
      ensures Valid() && target[..count] == old(messages[0]) && messages == old(messages[1..])
    {
      hide Frames, Frame, Span, Decode;
      MessageCells();
      var next := ReadBytes(target, count, from);
      tail := next;
      messages := messages[1..];
    }

    /** The message branch of prvReadMessageFromBuffer: a buffer that is too small for the oldest
        message leaves everything as it is. */
    method ReadFrame(target: array<byte>, bufferLength: nat) returns (count: nat)
      requires Valid() && isMessageBuffer && messages != [] && target != buffer && bufferLength <= target.Length
      modifies target, this`tail, this`messages
      ensures Valid()
      ensures |old(messages[0])| <= bufferLength ==>
              count == |old(messages[0])| && target[..count] == old(messages[0]) && messages == old(messages[1..])
      ensures bufferLength < |old(messages[0])| ==>
              count == 0 && messages == old(messages) && tail == old(tail) && target[..] == old(target[..])
    {
      OldestMessage();
      var messageLength, nextTail := ReadLength();
      var bytesAvailable := BytesInBuffer();
      bytesAvailable := bytesAvailable - lengthBytes;
      if messageLength > bufferLength {
        messageLength := 0;
      }
      count := Min(messageLength, bytesAvailable);
      if count != 0 {
        TakeMessage(target, count, nextTail);
      }
    }

    /** prvReadMessageFromBuffer for a stream: as many bytes as wanted and available. */
    method ReadStream(target: array<byte>, bufferLength: nat, bytesAvailable: nat) returns (count: nat)
      requires Valid() && !isMessageBuffer && target != buffer && bufferLength <= target.Length
      requires bytesAvailable <= |Contents()|
      modifies target, this`tail
      ensures Valid() && count == Min(bufferLength, bytesAvailable)
      ensures target[..count] == old(Contents()[..count]) && Contents() == old(Contents()[count..])
    {
      count := Min(bufferLength, bytesAvailable);
      DropFront(count);
      if count != 0 {
        var next := ReadBytes(target, count, tail);
        tail := next;
      }
    }

    // ---------- Calls that do not wait ----------

    /** xStreamBufferSend with no block time.  A stream takes as many bytes as fit; a message buffer
        takes the whole message or nothing (an empty message is never stored). */
    method Send(data: seq<byte>) returns (written: nat)
      requires Valid() && (isMessageBuffer ==> |data| < Capacity(lengthBytes))
      modifies buffer, this`head, this`messages
      ensures Valid()
      ensures isMessageBuffer ==>
              && written == (if |old(Contents())| + lengthBytes + |data| < length then |data| else 0)
              && messages == (if written == 0 then old(messages) else old(messages) + [data])
      ensures !isMessageBuffer ==>
              && written == Min(|data|, length - 1 - |old(Contents())|)
              && Contents() == old(Contents()) + data[..written]
    {
      var maxReportedSpace := length - 1;
      var requiredSpace := |data|;
      if isMessageBuffer {
        requiredSpace := requiredSpace + lengthBytes;
      } else if requiredSpace > maxReportedSpace {
        requiredSpace := maxReportedSpace;
      }
      var space := SpacesAvailable();
      written := WriteMessage(data, space, requiredSpace);
    }

    /** xStreamBufferReceive with no block time.  A stream gives its oldest bytes; a message buffer
        gives the whole oldest message if `bufferLength` is enough for it, and nothing otherwise. */
    method Receive(target: array<byte>, bufferLength: nat) returns (count: nat)
      requires Valid() && target != buffer && bufferLength <= target.Length
      modifies target, this`tail, this`messages
      ensures Valid()
      ensures isMessageBuffer && old(messages) != [] && |old(messages[0])| <= bufferLength ==>
              count == |old(messages[0])| && target[..count] == old(messages[0]) && messages == old(messages[1..])
      ensures isMessageBuffer && (old(messages) == [] || bufferLength < |old(messages[0])|) ==>
              count == 0 && messages == old(messages) && tail == old(tail)
      ensures !isMessageBuffer ==>
              && count == Min(bufferLength, |old(Contents())|)
              && target[..count] == old(Contents()[..count]) && Contents() == old(Contents()[count..])
    {
      count := 0;
      var bytesToStoreMessageLength := if isMessageBuffer then lengthBytes else 0;
      var bytesAvailable := BytesInBuffer();
      if isMessageBuffer {
        HasMessage();
      }
      if bytesAvailable > bytesToStoreMessageLength {
        if isMessageBuffer {
          count := ReadFrame(target, bufferLength);
        } else {
          count := ReadStream(target, bufferLength, bytesAvailable);
        }
      }
    }

    /** xStreamBufferNextMessageLengthBytes: 0 exactly when there is no message to receive. */
    method NextMessageLength() returns (n: nat)
      requires Valid()
      ensures isMessageBuffer && messages != [] ==> n == |messages[0]|
      ensures n == 0 <==> !isMessageBuffer || messages == []
    {
      n := 0;
      if isMessageBuffer {
        var bytesAvailable := BytesInBuffer();
        HasMessage();
        if bytesAvailable > lengthBytes {
          OldestMessage();
          var next;
          n, next := ReadLength();
        } else {
          assert bytesAvailable == 0;
        }
      }
    }
  }
}
