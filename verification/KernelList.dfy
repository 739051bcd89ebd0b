/**
 The intrusive circular doubly linked list of list.c, on the heap.

 The ring is the sentinel `end` followed by the ghost sequence `items`; ring place 0 is the
 sentinel.  Every operation is proved against the sequence functions of `ListSpec`.
 */
module KernelLists {
  import opened ListSpec

  /** Place `k` of a ring: the sentinel, followed by the items. */
  function Place<T>(sentinel: T, items: seq<T>, k: nat): T
    requires k <= |items|
  {
    if k == 0 then sentinel else items[k-1]
  }

  lemma PlacesDiffer<T>(sentinel: T, items: seq<T>, j: nat, k: nat)
    requires NoDup(items) && sentinel !in items && j <= |items| && k <= |items| && j != k
    ensures Place(sentinel, items, j) != Place(sentinel, items, k)
  {
  }

  /** Where an index is after item `i` has gone, if it steps back from that item. */
  lemma PlaceAfterRemove<T>(sentinel: T, items: seq<T>, pos: nat, i: nat)
    requires i < |items| && pos <= |items|
    ensures PosAfterRemove(pos, i) <= |RemoveAt(items, i)|
    ensures Place(sentinel, RemoveAt(items, i), PosAfterRemove(pos, i)) ==
            Place(sentinel, items, if pos == i + 1 then i else pos)
  {
  }

  class ListItem {
    var value: nat
    var next: ListItem?
    var previous: ListItem?
    var container: KernelList?

    constructor (value: nat)
      ensures this.value == value && container == null
    {
      this.value := value;
      container := null;
    }
  }

  class KernelList {
    const end: ListItem
    const maxDelay: nat
    var index: ListItem
    var count: nat
    ghost var items: seq<ListItem>
    ghost var pos: nat  // ring place of the index

    ghost function At(k: nat): ListItem
      requires k <= |items|
      reads this
    {
      Place(end, items, k)
    }

    ghost function After(k: nat): ListItem
      requires k <= |items|
      reads this
    {
      At(if k == |items| then 0 else k + 1)
    }

    /** Ring place `k` is doubly linked with its successor. */
    ghost predicate Linked(k: nat)
      requires k <= |items|
      reads this, end, items
    {
      && At(k).next == After(k) && After(k).previous == At(k)
      && (k != 0 ==> At(k).container == this && At(k).value <= maxDelay)
    }

    ghost predicate Valid()
      reads this, end, items
    {
      && count == |items|
      && end.value == maxDelay && end.container == null
      && NoDup(items) && end !in items
      && pos <= |items| && index == At(pos)
      && forall k :: 0 <= k <= |items| ==> Linked(k)
    }

    ghost function Keys(): (r: seq<nat>)
      reads this, items
      ensures |r| == |items|
      ensures forall k :: 0 <= k < |r| ==> r[k] == items[k].value
    {
      seq(|items|, k requires 0 <= k < |items| reads this, items => items[k].value)
    }

    /** vListInitialise. */
    constructor (maxDelay: nat)
      ensures Valid() && items == [] && pos == 0 && this.maxDelay == maxDelay
      ensures fresh(end)
    {
      var sentinel := new ListItem(maxDelay);
      end := sentinel;
      index := sentinel;
      count := 0;
      this.maxDelay := maxDelay;
      items := [];
      pos := 0;
      new;
      sentinel.next := sentinel;
      sentinel.previous := sentinel;
      assert Linked(0);
    }

    lemma Members()
      requires Valid()
      ensures forall y :: y in items ==> y.container == this && y.value <= maxDelay
    {
      forall y | y in items ensures y.container == this && y.value <= maxDelay {
        var k :| 0 <= k < |items| && items[k] == y;
        assert Linked(k + 1);
      }
    }

    twostate lemma NextAfterSplice(at: nat)
      requires old(Valid()) && 1 <= at <= |old(items)| + 1 == |items|
      requires items == InsertAt(old(items), at - 1, items[at-1])
      requires items[at-1] !in old(items) && items[at-1] != end && items[at-1].next == old(After(at - 1))
      requires forall y :: y == end || y in old(items) ==>
                 y.next == if y == old(At(at - 1)) then items[at-1] else old(y.next)
      ensures forall k :: 0 <= k <= |items| ==> At(k).next == After(k)
    {
      forall k | 0 <= k <= |items| ensures At(k).next == After(k) {
        if k < at {
          assert old(Linked(k));
          assert At(k) == old(At(k));
        } else if at < k {
          assert old(Linked(k - 1));
          assert At(k) == old(At(k - 1));
        }
      }
    }

    twostate lemma PreviousAfterSplice(at: nat)
      requires old(Valid()) && 1 <= at <= |old(items)| + 1 == |items|
      requires items == InsertAt(old(items), at - 1, items[at-1])
      requires items[at-1] !in old(items) && items[at-1] != end && items[at-1].previous == old(At(at - 1))
      requires forall y :: y == end || y in old(items) ==>
                 y.previous == if y == old(After(at - 1)) then items[at-1] else old(y.previous)
      ensures forall k :: 0 <= k <= |items| ==> After(k).previous == At(k)
    {
      forall k | 0 <= k <= |items| ensures After(k).previous == At(k) {
        if k < at {
          assert old(Linked(k));
          assert At(k) == old(At(k));
        } else if at < k {
          assert old(Linked(k - 1));
          assert At(k) == old(At(k - 1));
        }
      }
    }

    /** Splicing a new item in at ring place `at` keeps every link of the ring. */
    twostate lemma LinkedAfterSplice(at: nat)
      requires old(Valid()) && 1 <= at <= |old(items)| + 1 == |items|
      requires items == InsertAt(old(items), at - 1, items[at-1])
      requires items[at-1] !in old(items) && items[at-1] != end
      requires items[at-1].previous == old(At(at - 1)) && items[at-1].next == old(After(at - 1))
      requires items[at-1].container == this && items[at-1].value <= maxDelay
      requires forall y :: y in old(items) ==> y.container == this && y.value <= maxDelay
      requires forall y :: y == end || y in old(items) ==>
                 && y.next == (if y == old(At(at - 1)) then items[at-1] else old(y.next))
                 && y.previous == (if y == old(After(at - 1)) then items[at-1] else old(y.previous))
      ensures forall k :: 0 <= k <= |items| ==> Linked(k)
      ensures NoDup(items) && end !in items
    {
      hide NoDup;
      NoDupInsert(old(items), at - 1, items[at-1]);
      NextAfterSplice(at);
      PreviousAfterSplice(at);
      forall k | 0 <= k <= |items| ensures Linked(k) {
        assert k != 0 ==> items[k-1] in items;
      }
    }

    /** Unlinking ring place `at` keeps every link of the rest. */
    twostate lemma LinkedAfterUnlink(at: nat)
      requires old(Valid()) && 1 <= at <= |old(items)| == |items| + 1
      requires items == RemoveAt(old(items), at - 1)
      requires forall y :: y in old(items) && y != old(At(at)) ==> y.container == this && y.value <= maxDelay
      requires forall y :: y == end || (y in old(items) && y != old(At(at))) ==>
                 && y.next == (if y == old(At(at - 1)) then old(After(at)) else old(y.next))
                 && y.previous == (if y == old(After(at)) then old(At(at - 1)) else old(y.previous))
      ensures forall k :: 0 <= k <= |items| ==> Linked(k)
      ensures NoDup(items) && end !in items
    {
      NoDupRemove(old(items), at - 1);
      forall k | 0 <= k <= |items| ensures Linked(k) {
        if k < at {
          assert old(Linked(k));
          assert old(Linked(at));
          assert At(k) == old(At(k));
        } else {
          assert old(Linked(k + 1));
          assert At(k) == old(At(k + 1));
        }
      }
    }

    /** The pointer writes of vListInsertEnd. */
    method SpliceBeforeIndex(x: ListItem, ghost at: nat)
      requires Valid() && x !in items && x != end && at == EndPosition(|items|, pos)
      modifies x`next, x`previous, x`container, At(at)`next, index`previous
      ensures index == After(at)
      ensures x.next == index && x.previous == At(at) && x.container == this
      ensures At(at).next == x && index.previous == x
    {
      assert Linked(at);
      x.next := index;
      x.previous := index.previous;
      index.previous.next := x;
      index.previous := x;
      x.container := this;
    }

    /** vListInsertEnd: in front of the index: only the item that the index is on comes later. */
    method InsertEnd(x: ListItem)
      requires Valid() && x.container == null && x != end && x.value <= maxDelay
      modifies this, x, items, end
      ensures Valid()
      ensures items == InsertAt(old(items), EndPosition(|old(items)|, old(pos)), x)
      ensures pos == PosAfterInsertEnd(old(pos))
      ensures forall y: ListItem :: y in old(items) + [x] ==> y.value == old(y.value)
    {
      Members();
      ghost var at := EndPosition(|items|, pos);
      SpliceBeforeIndex(x, at);
      count := count + 1;
      pos := PosAfterInsertEnd(pos);
      items := InsertAt(items, at, x);
      LinkedAfterSplice(at + 1);
    }

    /** The search of vListInsert: the last item not larger than `v`, or the sentinel.  The loop
        stops at the sentinel only when `v` is smaller than the sentinel's value, so the value
        portMAX_DELAY is handled without a search. */
    method Search(v: nat) returns (cursor: ListItem, ghost at: nat)
      requires Valid() && v <= maxDelay
      ensures cursor == At(InsertPosition(Keys(), v)) && at == InsertPosition(Keys(), v)
    {
      Members();
      if v == maxDelay {
        at := |items|;
        assert Linked(at);
        cursor := end.previous;
      } else {
        at := 0;
        cursor := end;
        assert Linked(0);
        while cursor.next.value <= v
          invariant at <= |items| && cursor == At(at) && cursor.next == After(at)
          invariant forall k :: 0 <= k < at ==> items[k].value <= v
          decreases |items| - at
        {
          at := at + 1;
          cursor := cursor.next;
          assert Linked(at);
        }
      }
      InsertPositionUnique(Keys(), v, at);
    }

    /** The pointer writes at the end of vListInsert. */
    method SpliceAfter(cursor: ListItem, x: ListItem, ghost at: nat)
      requires Valid() && x !in items && x != end && at <= |items| && cursor == At(at)
      modifies x`next, x`previous, x`container, cursor`next, After(at)`previous
      ensures x.next == After(at) && x.previous == cursor && x.container == this
      ensures cursor.next == x && After(at).previous == x
    {
      assert Linked(at);
      x.next := cursor.next;
      x.next.previous := x;
      x.previous := cursor;
      cursor.next := x;
      x.container := this;
    }

    /** vListInsert behind the cursor that its search has found. */
    method LinkAfter(cursor: ListItem, x: ListItem, ghost at: nat)
      requires Valid() && x.container == null && x != end && x.value <= maxDelay
      requires at <= |items| && cursor == At(at)
      modifies this, x, items, end
      ensures Valid()
      ensures items == InsertAt(old(items), at, x)
      ensures index == old(index)
      ensures forall y: ListItem :: y in old(items) + [x] ==> y.value == old(y.value)
    {
      Members();
      SpliceAfter(cursor, x, at);
      count := count + 1;
      pos := if at < pos then pos + 1 else pos;
      items := InsertAt(items, at, x);
      LinkedAfterSplice(at + 1);
    }

    /** vListInsert: sorted by item value, behind equal values. */
    method Insert(x: ListItem)
      requires Valid() && x.container == null && x != end && x.value <= maxDelay
      modifies this, x, items, end
      ensures Valid()
      ensures items == InsertAt(old(items), InsertPosition(old(Keys()), x.value), x)
      ensures index == old(index)
      ensures forall y: ListItem :: y in old(items) + [x] ==> y.value == old(y.value)
    {
      var cursor, at := Search(x.value);
      LinkAfter(cursor, x, at);
    }

    /** The two pointer writes of uxListRemove. */
    method Unlink(x: ListItem, ghost i: nat)
      requires Valid() && i < |items| && items[i] == x
      modifies At(i)`next, After(i + 1)`previous
      ensures At(i).next == After(i + 1) && After(i + 1).previous == At(i)
    {
      assert Linked(i) && Linked(i + 1);
      x.next.previous := x.previous;
      x.previous.next := x.next;
    }

    /** The index does not stay on an item that is removed. */
    method StepBack(x: ListItem, ghost i: nat)
      requires NoDup(items) && end !in items && pos <= |items| && index == At(pos)
      requires i < |items| && items[i] == x && x.previous == At(i)
      modifies this`index
      ensures index == Place(end, RemoveAt(items, i), PosAfterRemove(pos, i))
    {
      PlaceAfterRemove(end, items, pos, i);
      if pos != i + 1 {
        PlacesDiffer(end, items, pos, i + 1);
      }
      if index == x {
        index := x.previous;
      }
    }

    /** uxListRemove, for the item at place `i` of this list. */
    method Remove(x: ListItem, ghost i: nat) returns (left: nat)
      requires Valid() && i < |items| && items[i] == x
      modifies this, items, end
      ensures Valid()
      ensures items == RemoveAt(old(items), i)
      ensures pos == PosAfterRemove(old(pos), i)
      ensures left == |items| && x.container == null
      ensures forall y: ListItem :: y in old(items) ==> y.value == old(y.value)
    {
      Members();
      assert Linked(i);
      Unlink(x, i);
      StepBack(x, i);
      x.container := null;
      count := count - 1;
      pos := PosAfterRemove(pos, i);
      items := RemoveAt(items, i);
      LinkedAfterUnlink(i + 1);
      left := count;
    }

    /** listGET_OWNER_OF_NEXT_ENTRY. */
    method NextEntry() returns (x: ListItem)
      requires Valid() && items != []
      modifies this`index, this`pos
      ensures Valid()
      ensures x == Upcoming(items, old(pos))[0]
      ensures Upcoming(items, pos) == Rotated(Upcoming(items, old(pos)))
    {
      NextSelectsFront(items, pos);
      assert Linked(pos) && Linked(0);
      index := index.next;
      if index == end {
        index := end.next;
      }
      pos := NextPos(|items|, pos);
      x := index;
      assert forall k :: 0 <= k <= |items| ==> old(Linked(k)) ==> Linked(k);
    }
  }
}
