/**
 The storage of a queue (queue.c): a ring of `length` items of `itemSize` bytes each, addressed by
 byte offsets that are advanced, compared with the end of the storage and wrapped.  A semaphore is
 a queue whose items have no bytes.

 `Cycles(itemSize, k)` is the offset of slot `k`, that is `k * itemSize`.
 */
module QueueStorage {
  import opened ModularTime
  import opened Rings

  datatype Position = SendToBack | SendToFront | Overwrite

  datatype Option<T> = None | Some(value: T)

  function Next(length: nat, slot: nat): nat { if slot + 1 < length then slot + 1 else 0 }

  function Previous(length: nat, slot: nat): nat
    requires 0 < length
  {
    if slot == 0 then length - 1 else slot - 1
  }

  lemma {:induction false} OffsetsGrow(itemSize: nat, j: nat, k: nat)
    requires j <= k
    ensures Cycles(itemSize, j) <= Cycles(itemSize, k)
    ensures j < k ==> Cycles(itemSize, j) + itemSize <= Cycles(itemSize, k)
  {
    if j < k {
      OffsetsGrow(itemSize, j, k - 1);
    }
  }

  /** The write slot is determined by the read slot and the number of items. */
  lemma WriteSlotIsMod(length: nat, read: nat, count: nat)
    requires read < length && count <= length
    ensures Wrap(length, Next(length, read) + count) == (read + 1 + count) % length
  {
    var s := read + 1 + count;
    var q := if s < length then 0 else if s < length + length then 1 else 2;
    assert s == length * q + Wrap(length, Next(length, read) + count);
    ModUnique(length, s, q, Wrap(length, Next(length, read) + count));
  }

  class Storage {
    const length: nat
    const itemSize: nat
    const bytes: array<byte>
    var writeTo: nat
    var readFrom: nat
    var messagesWaiting: nat
    ghost var write: nat
    ghost var read: nat

    /** `readFrom` is the slot last read; the items follow it, and `writeTo` follows them. */
    ghost predicate Valid()
      reads this
    {
      && 0 < length && bytes.Length == Cycles(itemSize, length) && messagesWaiting <= length
      && read < length && readFrom == Cycles(itemSize, read)
      && write == Wrap(length, Next(length, read) + messagesWaiting) && writeTo == Cycles(itemSize, write)
    }

    /** The bytes of slot `k`. */
    ghost function Slot(k: nat): seq<byte>
      requires k < length && bytes.Length == Cycles(itemSize, length)
      reads bytes
    {
      OffsetsGrow(itemSize, k, length);
      bytes[Cycles(itemSize, k)..Cycles(itemSize, k) + itemSize]
    }

    ghost function Slots(): (r: seq<seq<byte>>)
      requires bytes.Length == Cycles(itemSize, length)
      reads bytes
      ensures |r| == length
      ensures forall k :: 0 <= k < length ==> r[k] == Slot(k)
    {
      seq(length, k requires 0 <= k < length && bytes.Length == Cycles(itemSize, length) reads bytes => Slot(k))
    }

    /** The items waiting, oldest first. */
    ghost function Items(): seq<seq<byte>>
      requires Valid()
      reads this, bytes
    {
      Span(Slots(), Next(length, read), messagesWaiting)
    }

    /** xQueueGenericReset of a new queue. */
    constructor (length: nat, itemSize: nat)
      requires 0 < length
      ensures Valid() && Items() == [] && this.length == length && this.itemSize == itemSize && fresh(bytes)
    {
      this.length, this.itemSize := length, itemSize;
      bytes := new byte[Bytes(itemSize, length)];
      messagesWaiting, writeTo, readFrom := 0, 0, Bytes(itemSize, length - 1);
      write, read := 0, length - 1;
    }

    /** memcpy. */
    method CopyIn(at: nat, item: seq<byte>)
      requires at + |item| <= bytes.Length
      modifies bytes
      ensures bytes[at..at + |item|] == item
      ensures forall j :: 0 <= j < bytes.Length && !(at <= j < at + |item|) ==> bytes[j] == old(bytes[j])
    {
      var i := 0;
      while i < |item|
        invariant 0 <= i <= |item|
        invariant bytes[at..at + i] == item[..i]
        invariant forall j :: 0 <= j < bytes.Length && !(at <= j < at + |item|) ==> bytes[j] == old(bytes[j])
      {
        bytes[at + i] := item[i];
        i := i + 1;
      }
    }

    /** memcpy of one item into slot `k`. */
    method StoreItem(at: nat, item: seq<byte>, ghost k: nat)
      requires bytes.Length == Cycles(itemSize, length) && k < length && at == Cycles(itemSize, k) && |item| == itemSize
      modifies bytes
      ensures Slots() == old(Slots())[k := item]
    {
      OffsetsGrow(itemSize, k, length);
      CopyIn(at, item);
      forall j | 0 <= j < length && j != k ensures Slot(j) == old(Slot(j)) {
        OffsetsGrow(itemSize, j, length);
        OffsetsGrow(itemSize, if j < k then j else k, if j < k then k else j);
      }
      assert Slot(k) == item;
    }

    /** memcpy of one item out of slot `k`. */
    method LoadItem(at: nat, ghost k: nat) returns (item: seq<byte>)
      requires bytes.Length == Cycles(itemSize, length) && k < length && at == Cycles(itemSize, k)
      ensures item == Slots()[k]
    {
      OffsetsGrow(itemSize, k, length);
      item := [];
      while |item| < itemSize
        invariant |item| <= itemSize && at + itemSize <= bytes.Length
        invariant item == bytes[at..at + |item|]
      {
        item := item + [bytes[at + |item|]];
      }
    }

    /** pcWriteTo moves to the next slot. */
    method AdvanceWrite()
      requires 0 < length && bytes.Length == Cycles(itemSize, length)
      requires write < length && writeTo == Cycles(itemSize, write)
      requires 0 < itemSize
      modifies this`write, this`writeTo
      ensures write == Next(length, old(write)) && writeTo == Cycles(itemSize, write)
    {
      OffsetsGrow(itemSize, write + 1, length);
      writeTo := writeTo + itemSize;
      if writeTo >= bytes.Length {
        writeTo := 0;
      }
      write := Next(length, write);
    }

    /** pcReadFrom moves to the next slot. */
    method AdvanceRead()
      requires 0 < length && bytes.Length == Cycles(itemSize, length)
      requires read < length && readFrom == Cycles(itemSize, read)
      requires 0 < itemSize
      modifies this`read, this`readFrom
      ensures read == Next(length, old(read)) && readFrom == Cycles(itemSize, read)
    {
      OffsetsGrow(itemSize, read + 1, length);
      readFrom := readFrom + itemSize;
      if readFrom >= bytes.Length {
        readFrom := 0;
      }
      read := Next(length, read);
    }

    /** pcReadFrom moves to the previous slot.  An offset below the start wraps to the last slot. */
    method RetreatRead()
      requires 0 < length && bytes.Length == Cycles(itemSize, length)
      requires read < length && readFrom == Cycles(itemSize, read)
      requires 0 < itemSize
      modifies this`read, this`readFrom
      ensures read == Previous(length, old(read)) && readFrom == Cycles(itemSize, read)
    {
      if read != 0 {
        OffsetsGrow(itemSize, 1, read);
      }
      if readFrom < itemSize {
        readFrom := bytes.Length - itemSize;
      } else {
        readFrom := readFrom - itemSize;
      }
      read := Previous(length, read);
    }

    /** Slots of an item without bytes are all alike. */
    lemma NoBytes()
      requires bytes.Length == Cycles(itemSize, length) && itemSize == 0
      ensures forall k :: 0 <= k < length ==> Slots()[k] == [] && Cycles(itemSize, k) == 0
    {
      forall k | 0 <= k < length ensures Cycles(itemSize, k) == 0 {
        CyclesIsProduct(itemSize, k);
      }
    }

    method StoreBack(item: seq<byte>)
      requires Valid() && messagesWaiting < length && 0 < itemSize == |item|
      modifies this, bytes
      ensures Valid() && Items() == old(Items()) + [item]
    {
      SpanAppend(Slots(), Next(length, read), messagesWaiting, item);
      StoreItem(writeTo, item, write);
      AdvanceWrite();
      messagesWaiting := messagesWaiting + 1;
    }

    method StoreFront(item: seq<byte>)
      requires Valid() && messagesWaiting < length && 0 < itemSize == |item|
      modifies this, bytes
      ensures Valid() && Items() == [item] + old(Items())
    {
      SpanPrepend(Slots(), Next(length, read), messagesWaiting, item);
      StoreItem(readFrom, item, read);
      RetreatRead();
      messagesWaiting := messagesWaiting + 1;
    }

    /** Overwriting the only item of a full queue. */
    method StoreOver(item: seq<byte>)
      requires Valid() && length == messagesWaiting == 1 && 0 < itemSize == |item|
      modifies this, bytes
      ensures Valid() && Items() == [item]
    {
      StoreItem(readFrom, item, read);
      RetreatRead();
    }

    /** A semaphore only counts, whether or not there is room. */
    method CountOne()
      requires Valid() && itemSize == 0
      modifies this`messagesWaiting, this`write
      ensures messagesWaiting == old(messagesWaiting) + 1
      ensures messagesWaiting <= length ==> Valid() && Items() == old(Items()) + [[]]
    {
      NoBytes();
      write := Next(length, write);
      messagesWaiting := messagesWaiting + 1;
    }

    /** prvCopyDataToQueue, as xQueueGenericSend calls it: there is room, or the single item of a
        queue of length 1 is overwritten.  The number of items stays within the length, and then the
        queue is again a queue that holds the new item where it belongs, exactly if this is not the
        overwriting of a semaphore that is already full: that one is counted a second time. */
    method CopyToQueue(item: seq<byte>, position: Position)
      requires Valid() && |item| == itemSize
      requires position == Overwrite ==> length == 1
      requires messagesWaiting < length || position == Overwrite
      modifies this, bytes
      ensures messagesWaiting == CountAfter(old(messagesWaiting), itemSize, position)
      ensures Valid() <==> messagesWaiting <= length
      ensures Valid() <==> !(itemSize == 0 && position == Overwrite && old(messagesWaiting) == length)
      ensures Valid() && position == SendToBack ==> Items() == old(Items()) + [item]
      ensures Valid() && position == SendToFront ==> Items() == [item] + old(Items())
      ensures Valid() && position == Overwrite ==> Items() == [item]
      ensures !Valid() ==> bytes[..] == old(bytes[..]) && readFrom == old(readFrom) && writeTo == old(writeTo)
    {
      hide Slots, Span;
      CountInRange(length, messagesWaiting, itemSize, position);
      if itemSize == 0 {
        Semaphore(item);
        CountOne();
      } else if position == SendToBack {
        StoreBack(item);
      } else if position == Overwrite && messagesWaiting > 0 {
        StoreOver(item);
      } else {
        StoreFront(item);
      }
    }

    /** The items of a semaphore have no bytes, so that it does not matter where one is added. */
    lemma Semaphore(item: seq<byte>)
      requires Valid() && itemSize == 0 && |item| == 0
      ensures Items() + [[]] == Items() + [item] == [item] + Items()
    {
      NoBytes();
      assert forall k :: 0 <= k < messagesWaiting ==> Items()[k] == [];
    }

    /** prvCopyDataFromQueue: the oldest item, with `readFrom` moved onto it. */
    method CopyFromQueue() returns (item: seq<byte>)
      requires Valid() && 0 < messagesWaiting
      modifies this`read, this`readFrom
      ensures item == old(Items())[0]
      ensures read == Next(length, old(read)) && readFrom == Cycles(itemSize, read)
    {
      SpanPopFront(Slots(), Next(length, read), messagesWaiting);
      if itemSize != 0 {
        AdvanceRead();
        item := LoadItem(readFrom, read);
      } else {
        NoBytes();
        read := Next(length, read);
        item := [];
      }
    }

    /** The receiving critical section of xQueueReceive and xQueueReceiveFromISR. */
    method Receive() returns (r: Option<seq<byte>>)
      requires Valid()
      modifies this
      ensures Valid()
      ensures old(Items()) == [] ==> r == None && Items() == []
      ensures old(Items()) != [] ==> r == Some(old(Items())[0]) && Items() == old(Items())[1..]
    {
      if messagesWaiting > 0 {
        SpanPopFront(Slots(), Next(length, read), messagesWaiting);
        var item := CopyFromQueue();
        messagesWaiting := messagesWaiting - 1;
        r := Some(item);
      } else {
        r := None;
      }
    }

    /** The critical section of xQueuePeek: the read position is put back. */
    method Peek() returns (r: Option<seq<byte>>)
      requires Valid()
      modifies this`read, this`readFrom
      ensures Valid() && Items() == old(Items()) && read == old(read) && readFrom == old(readFrom)
      ensures r == if Items() == [] then None else Some(Items()[0])
    {
      if messagesWaiting > 0 {
        var originalReadPosition := readFrom;
        ghost var originalRead := read;
        var item := CopyFromQueue();
        readFrom, read := originalReadPosition, originalRead;
        r := Some(item);
      } else {
        r := None;
      }
    }

    /** The sending critical section of xQueueGenericSend for a queue whose items have a size. */
    method Send(item: seq<byte>, position: Position) returns (sent: bool)
      requires Valid() && 0 < itemSize == |item| && (position == Overwrite ==> length == 1)
      modifies this, bytes
      ensures Valid() && (sent <==> |old(Items())| < length || position == Overwrite)
      ensures !sent ==> Items() == old(Items())
      ensures sent && position == SendToBack ==> Items() == old(Items()) + [item]
      ensures sent && position == SendToFront ==> Items() == [item] + old(Items())
      ensures sent && position == Overwrite ==> Items() == [item]
    {
      sent := messagesWaiting < length || position == Overwrite;
      if sent {
        CopyToQueue(item, position);
      }
    }

    /** First in, first out: over any sequence of sends to the back and receives, the items received,
        followed by the items still waiting, are the items that were waiting followed by the items
        accepted, in order. */
    method Serve(uses: seq<Use>) returns (answers: seq<Answer>)
      requires Valid() && 0 < itemSize && forall u :: u in uses && u.Put? ==> |u.item| == itemSize
      modifies this, bytes
      ensures Valid() && |answers| == |uses| && Served(length, old(Items()), uses, answers, Items())
      ensures old(Items()) + Accepted(uses, answers) == Received(answers) + Items()
    {
      hide Span, Slots, Served;
      answers := [];
      ServedNothing(length, Items());
      for i := 0 to |uses|
        invariant Valid() && |answers| == i && Served(length, old(Items()), uses[..i], answers, Items())
      {
        assert uses[i] in uses;
        ghost var before := Items();
        var a := ServeOne(uses[i]);
        assert uses[..i+1] == uses[..i] + [uses[i]];
        ServedOneMore(length, old(Items()), uses[..i], answers, before, uses[i], a, Items());
        answers := answers + [a];
      }
      assert uses[..|uses|] == uses;
      FirstInFirstOut(length, old(Items()), uses, answers, Items());
    }

    method ServeOne(use: Use) returns (a: Answer)
      requires Valid() && 0 < itemSize && (use.Put? ==> |use.item| == itemSize)
      modifies this, bytes
      ensures Valid() && ServesOne(length, old(Items()), use, a, Items())
    {
      hide Span, Slots;
      match use
      case Put(item) =>
        var sent := Send(item, SendToBack);
        a := if sent then Stored else Full;
      case Take =>
        var r := Receive();
        a := if r.Some? then Got(r.value) else Empty;
    }
  }

  /** A send to the back, or a receive. */
  datatype Use = Put(item: seq<byte>) | Take

  datatype Answer = Stored | Full | Got(item: seq<byte>) | Empty

  /** One use of a queue that holds `items` and then `rest`: a send is refused iff there is no room, and a
      receive comes back empty iff there is no item. */
  ghost predicate ServesOne(length: nat, items: seq<seq<byte>>, use: Use, a: Answer, rest: seq<seq<byte>>) {
    match use
    case Put(item) => if |items| < length then a == Stored && rest == items + [item] else a == Full && rest == items
    case Take => if items == [] then a == Empty && rest == items else a == Got(items[0]) && items == [items[0]] + rest
  }

  ghost predicate Served(length: nat, items: seq<seq<byte>>, uses: seq<Use>, answers: seq<Answer>,
      rest: seq<seq<byte>>)
  {
    if uses == [] then answers == [] && rest == items
    else
      var n := |uses| - 1;
      && |answers| == |uses|
      && exists between ::
           Served(length, items, uses[..n], answers[..n], between)
           && ServesOne(length, between, uses[n], answers[n], rest)
  }

  lemma ServedNothing(length: nat, items: seq<seq<byte>>)
    ensures Served(length, items, [], [], items)
  {
  }

  lemma ServedOneMore(length: nat, items: seq<seq<byte>>, uses: seq<Use>, answers: seq<Answer>,
      between: seq<seq<byte>>, use: Use, a: Answer, rest: seq<seq<byte>>)
    requires |uses| == |answers| && Served(length, items, uses, answers, between)
    requires ServesOne(length, between, use, a, rest)
    ensures Served(length, items, uses + [use], answers + [a], rest)
  {
    assert (uses + [use])[..|uses|] == uses && (answers + [a])[..|uses|] == answers;
  }

  /** The items of the sends that were accepted. */
  function Accepted(uses: seq<Use>, answers: seq<Answer>): seq<seq<byte>>
    requires |uses| == |answers|
  {
    if uses == [] then []
    else
      var n := |uses| - 1;
      Accepted(uses[..n], answers[..n]) + if uses[n].Put? && answers[n].Stored? then [uses[n].item] else []
  }

  function Received(answers: seq<Answer>): seq<seq<byte>> {
    if answers == [] then []
    else
      var n := |answers| - 1;
      Received(answers[..n]) + if answers[n].Got? then [answers[n].item] else []
  }

  lemma {:induction false} FirstInFirstOut(length: nat, items: seq<seq<byte>>, uses: seq<Use>, answers: seq<Answer>,
      rest: seq<seq<byte>>)
    requires |uses| == |answers| && Served(length, items, uses, answers, rest)
    ensures items + Accepted(uses, answers) == Received(answers) + rest
  {
    if uses != [] {
      var n := |uses| - 1;
      var between :| Served(length, items, uses[..n], answers[..n], between)
                     && ServesOne(length, between, uses[n], answers[n], rest);
      FirstInFirstOut(length, items, uses[..n], answers[..n], between);
      OneMoreInOrOut(length, items, Accepted(uses[..n], answers[..n]), Received(answers[..n]), between, uses[n],
                     answers[n], rest);
    }
  }

  lemma OneMoreInOrOut(length: nat, items: seq<seq<byte>>, a: seq<seq<byte>>, r: seq<seq<byte>>,
      between: seq<seq<byte>>, use: Use, answer: Answer, rest: seq<seq<byte>>)
    requires items + a == r + between && ServesOne(length, between, use, answer, rest)
    ensures items + (a + if use.Put? && answer.Stored? then [use.item] else []) ==
            (r + if answer.Got? then [answer.item] else []) + rest
  {
    var none: seq<seq<byte>> := [];
    assert a + none == a && r + none == r;
    match use
    case Put(item) =>
      if answer.Stored? {
        assert items + (a + [item]) == (items + a) + [item];
        assert r + (between + [item]) == (r + between) + [item];
      }
    case Take =>
      if answer.Got? {
        assert r + ([between[0]] + rest) == (r + [between[0]]) + rest;
      }
  }

  /** The number of items after prvCopyDataToQueue. */
  function CountAfter(count: nat, itemSize: nat, position: Position): nat {
    if 0 < itemSize && position == Overwrite && 0 < count then count else count + 1
  }

  /** The number of items stays within the length of the queue unless a full semaphore is overwritten. */
  lemma CountInRange(length: nat, count: nat, itemSize: nat, position: Position)
    requires 0 < length && count <= length && (position == Overwrite ==> length == 1)
    requires count < length || position == Overwrite
    ensures CountAfter(count, itemSize, position) <= length <==>
            !(itemSize == 0 && position == Overwrite && count == length)
  {
  }

  /** xQueueOverwrite on a binary semaphore that has been given: no assertion objects, and it then counts
      two although its length is one. */
  method OverwriteFullSemaphore() returns (s: Storage)
    ensures s.length == 1 && s.itemSize == 0 && s.messagesWaiting == 2 && !s.Valid()
  {
    s := new Storage(1, 0);
    s.CopyToQueue([], SendToBack);
    s.CopyToQueue([], Overwrite);
  }

  /** The size of `k` items in bytes. */
  function Bytes(itemSize: nat, k: nat): (r: nat)
    ensures r == Cycles(itemSize, k)
  {
    CyclesIsProduct(itemSize, k);
    k * itemSize
  }

  lemma SpanAppend<T>(slots: seq<T>, from: nat, count: nat, x: T)
    requires from < |slots| && count < |slots|
    ensures var at := Wrap(|slots|, from + count);
            at < |slots| && Span(slots[at := x], from, count + 1) == Span(slots, from, count) + [x]
  {
  }

  lemma SpanPrepend<T>(slots: seq<T>, from: nat, count: nat, x: T)
    requires from < |slots| && count < |slots|
    ensures var at := Previous(|slots|, from);
            at < |slots| && Span(slots[at := x], at, count + 1) == [x] + Span(slots, from, count)
  {
  }

  lemma SpanPopFront<T>(slots: seq<T>, from: nat, count: nat)
    requires from < |slots| && 0 < count <= |slots|
    ensures Span(slots, from, count)[0] == slots[from]
    ensures Span(slots, Next(|slots|, from), count - 1) == Span(slots, from, count)[1..]
  {
  }
}
