/**
 The single-core scheduler of tasks.c: ready lists, the two delayed lists over a wrapping tick
 count, scheduler suspension with pended ticks and pending-ready tasks, and task selection.

 `now` is the ghost unbounded tick count; `epoch` is the instant at which the current epoch of
 `tickCount` began.  `m` is the modulus of the tick type, so `m - 1` is portMAX_DELAY.
 */
module Scheduler {
  import opened ListSpec
  import opened ModularTime
  import opened Priorities
  import opened TaskLists
  import opened TimeOuts

  /** The list objects for state list items.  Which delayed list is current is a matter of two
      pointers. */
  datatype Place = ReadyList(priority: nat) | DelayedList1 | DelayedList2 | SuspendedList

  /** The list objects for event list items. */
  datatype EventPlace = PendingReady | EventList(id: nat)

  type Tasks = map<TaskId, Tcb>

  ghost predicate Known(items: seq<TaskId>, tcb: Tasks) {
    forall i :: 0 <= i < |items| ==> items[i] in tcb
  }

  function Wakes(items: seq<TaskId>, tcb: Tasks): (r: seq<nat>)
    requires Known(items, tcb)
    ensures |r| == |items|
    ensures forall i :: 0 <= i < |r| ==> r[i] == tcb[items[i]].wake
  {
    seq(|items|, i requires 0 <= i < |items| => tcb[items[i]].wake)
  }

  lemma WakesAfterRemove(items: seq<TaskId>, tcb: Tasks, i: nat)
    requires i < |items| && Known(items, tcb)
    ensures Known(RemoveAt(items, i), tcb)
    ensures Wakes(RemoveAt(items, i), tcb) == RemoveAt(Wakes(items, tcb), i)
  {
  }

  lemma WakesRemove(items: seq<TaskId>, tcb: Tasks, i: nat)
    requires i < |items| && Known(items, tcb) && Sorted(Wakes(items, tcb))
    ensures Known(RemoveAt(items, i), tcb) && Sorted(Wakes(RemoveAt(items, i), tcb))
  {
    hide Sorted;
    SortedAfterRemove(Wakes(items, tcb), i);
    WakesAfterRemove(items, tcb, i);
  }

  lemma WakesWithout(items: seq<TaskId>, tcb: Tasks, t: TaskId)
    requires NoDup(items) && Known(items, tcb) && Sorted(Wakes(items, tcb))
    ensures Known(Without(items, t), tcb) && Sorted(Wakes(Without(items, t), tcb))
  {
    hide Sorted;
    if t in items {
      var i := IndexOf(items, t);
      WithoutIsRemoveAt(items, i);
      WakesRemove(items, tcb, i);
    }
  }

  lemma WakesAfterInsert(items: seq<TaskId>, tcb: Tasks, p: nat, t: TaskId)
    requires Known(items, tcb) && t in tcb && p <= |items|
    ensures Known(InsertAt(items, p, t), tcb)
    ensures Wakes(InsertAt(items, p, t), tcb) == InsertAt(Wakes(items, tcb), p, tcb[t].wake)
  {
  }

  lemma WakesInsert(items: seq<TaskId>, tcb: Tasks, t: TaskId)
    requires Known(items, tcb) && Sorted(Wakes(items, tcb)) && t in tcb
    ensures var r := InsertAt(items, InsertPosition(Wakes(items, tcb), tcb[t].wake), t);
            Known(r, tcb) && Sorted(Wakes(r, tcb))
  {
    hide Sorted, InsertPosition;
    var keys, v := Wakes(items, tcb), tcb[t].wake;
    SortedInsertStable(keys, v);
    WakesAfterInsert(items, tcb, InsertPosition(keys, v), t);
  }

  /** The keys of an event list. */
  function EventValues(items: seq<TaskId>, tcb: Tasks): (r: seq<nat>)
    requires Known(items, tcb)
    ensures |r| == |items|
    ensures forall i :: 0 <= i < |r| ==> r[i] == tcb[items[i]].eventValue
  {
    seq(|items|, i requires 0 <= i < |items| => tcb[items[i]].eventValue)
  }

  ghost predicate SortedIn(state: Store<Place>, tcb: Tasks, p: Place) {
    p in state.lists && Known(state.lists[p].items, tcb) && Sorted(Wakes(state.lists[p].items, tcb))
  }

  lemma SortedKnown(state: Store<Place>, tcb: Tasks, p: Place)
    requires SortedIn(state, tcb, p)
    ensures p in state.lists && Known(state.lists[p].items, tcb)
  {
  }

  lemma DetachSorted(state: Store<Place>, tcb: Tasks, t: TaskId, p: Place)
    requires StoreOk(state) && t in state.container && SortedIn(state, tcb, p)
    ensures SortedIn(Detach(state, t), tcb, p)
  {
    WakesWithout(state.lists[p].items, tcb, t);
  }

  /** vListInsert into a delayed list. */
  function PutSorted(state: Store<Place>, tcb: Tasks, p: Place, t: TaskId): Store<Place>
    requires p in state.lists && Known(state.lists[p].items, tcb) && t in tcb
  {
    PutAt(state, p, t, InsertPosition(Wakes(state.lists[p].items, tcb), tcb[t].wake))
  }

  lemma PutSortedPlace(state: Store<Place>, tcb: Tasks, p: Place, t: TaskId)
    requires StoreOk(state) && p in state.lists && Known(state.lists[p].items, tcb) && t in tcb && t !in state.container
    ensures PutSorted(state, tcb, p, t).lists[p].items ==
            InsertAt(state.lists[p].items, InsertPosition(Wakes(state.lists[p].items, tcb), tcb[t].wake), t)
    ensures OrderKept(state, PutSorted(state, tcb, p, t), {t})
  {
    hide StoreOk, OrderKept;
    PutAtKeepsOrder(state, p, t, InsertPosition(Wakes(state.lists[p].items, tcb), tcb[t].wake));
  }

  lemma PutSortedOk(state: Store<Place>, tcb: Tasks, p: Place, t: TaskId, q: Place)
    requires StoreOk(state) && SortedIn(state, tcb, p) && SortedIn(state, tcb, q) && t in tcb && t !in state.container
    ensures var r := PutSorted(state, tcb, p, t);
            && StoreOk(r) && r.lists.Keys == state.lists.Keys && r.container == state.container[t := p]
            && SortedIn(r, tcb, p) && SortedIn(r, tcb, q)
  {
    PutAtOk(state, p, t, InsertPosition(Wakes(state.lists[p].items, tcb), tcb[t].wake));
    WakesInsert(state.lists[p].items, tcb, t);
  }

  /** A change to a task that is not on the list, or that keeps its wake value, keeps the order. */
  lemma WakesUpdate(items: seq<TaskId>, tcb: Tasks, t: TaskId, v: Tcb)
    requires Known(items, tcb) && (t !in items || (t in tcb && tcb[t].wake == v.wake))
    ensures Known(items, tcb[t := v]) && Wakes(items, tcb[t := v]) == Wakes(items, tcb)
  {
    assert forall i :: 0 <= i < |items| ==> items[i] in items;
  }

  lemma EmptyOrInhabited(items: seq<TaskId>)
    ensures items != [] ==> exists t :: t in items
  {
    if items != [] {
      assert items[0] in items;
    }
  }

  lemma Relink<K, V>(f: map<K, V>, k: K, v: V)
    ensures (f - {k})[k := v] == f[k := v]
    ensures k in f ==> f[k := v].Keys == f.Keys
  {
  }

  /** Nothing about any task changes but the wake tick and the wake time of `t`. */
  ghost predicate OnlyWaits(before: Tasks, wakesBefore: map<TaskId, nat>, after: Tasks, wakes: map<TaskId, nat>,
      t: TaskId)
  {
    && before.Keys == after.Keys && t in before && after[t] == before[t].(wake := after[t].wake)
    && (forall u :: u in before && u != t ==> after[u] == before[u])
    && (forall u :: u in wakesBefore && u != t ==> u in wakes && wakes[u] == wakesBefore[u])
  }

  lemma OnlyWaitsIntro(tcb: Tasks, wakeAt: map<TaskId, nat>, t: TaskId, wake: nat, until: nat)
    requires t in tcb
    ensures OnlyWaits(tcb, wakeAt, tcb[t := tcb[t].(wake := wake)], wakeAt[t := until], t)
  {
  }

  lemma NothingWaits(tcb: Tasks, wakeAt: map<TaskId, nat>, t: TaskId)
    requires t in tcb
    ensures OnlyWaits(tcb, wakeAt, tcb, wakeAt, t)
  {
  }

  lemma MinusAbsent<K, V>(f: map<K, V>, k: K)
    ensures k !in f ==> f - {k} == f
  {
  }

  lemma SameValue<K, V>(f: map<K, V>, k: K)
    requires k in f
    ensures f[k := f[k]] == f
  {
  }

  /** Between two moments the tasks in `woken` left their lists for the ready lists and no other
      task moved. */
  ghost predicate Moved(before: map<TaskId, Place>, after: map<TaskId, Place>, waitedFor: map<TaskId, EventPlace>,
      waitsFor: map<TaskId, EventPlace>, tcb: Tasks, woken: set<TaskId>)
  {
    && woken <= tcb.Keys && before.Keys == after.Keys == tcb.Keys
    && (forall t :: t in after ==> after[t] == if t in woken then ReadyList(tcb[t].priority) else before[t])
    && (forall t :: t in waitsFor <==> t in waitedFor && t !in woken)
    && (forall t :: t in waitsFor ==> waitsFor[t] == waitedFor[t])
  }

  lemma MovedStep(before: map<TaskId, Place>, after: map<TaskId, Place>, waitedFor: map<TaskId, EventPlace>,
      waitsFor: map<TaskId, EventPlace>, tcb: Tasks, woken: set<TaskId>, t: TaskId)
    requires Moved(before, after, waitedFor, waitsFor, tcb, woken) && t in tcb
    ensures Moved(before, after[t := ReadyList(tcb[t].priority)], waitedFor, waitsFor - {t}, tcb, woken + {t})
  {
    Relink(after, t, ReadyList(tcb[t].priority));
  }

  lemma MovedTwice(a: map<TaskId, Place>, b: map<TaskId, Place>, c: map<TaskId, Place>, ea: map<TaskId, EventPlace>,
      eb: map<TaskId, EventPlace>, ec: map<TaskId, EventPlace>, tcb: Tasks, w: set<TaskId>, w': set<TaskId>)
    requires Moved(a, b, ea, eb, tcb, w) && Moved(b, c, eb, ec, tcb, w')
    ensures Moved(a, c, ea, ec, tcb, w + w')
  {
  }

  /** On every ready list the tasks of `w` come behind all others. */
  ghost predicate BehindOthers(before: Store<Place>, after: Store<Place>, w: set<TaskId>) {
    forall q: nat :: ReadyList(q) in before.lists && ReadyList(q) in after.lists ==>
      JoinsBehind(before.lists[ReadyList(q)], after.lists[ReadyList(q)], w)
  }

  lemma BehindTwice(a: Store<Place>, b: Store<Place>, c: Store<Place>, w: set<TaskId>, w': set<TaskId>)
    requires StoreOk(a) && StoreOk(b) && StoreOk(c) && OrderKept(a, b, w) && OrderKept(b, c, w')
    requires BehindOthers(a, b, w) && BehindOthers(b, c, w')
    ensures BehindOthers(a, c, w + w')
  {
    hide ListOk, TurnsKept, JoinsBehind;
    forall q: nat | ReadyList(q) in a.lists && ReadyList(q) in c.lists
      ensures JoinsBehind(a.lists[ReadyList(q)], c.lists[ReadyList(q)], w + w')
    {
      assert HoldsItsTasks(a, ReadyList(q)) && HoldsItsTasks(b, ReadyList(q)) && HoldsItsTasks(c, ReadyList(q));
      assert TurnsKept(a.lists[ReadyList(q)], b.lists[ReadyList(q)], w);
      assert TurnsKept(b.lists[ReadyList(q)], c.lists[ReadyList(q)], w');
      JoinsBehindTwice(a.lists[ReadyList(q)], b.lists[ReadyList(q)], c.lists[ReadyList(q)], w, w');
    }
  }

  /** A task that is not on a ready list leaves its list. */
  lemma DetachBehind(s: Store<Place>, t: TaskId)
    requires StoreOk(s) && t in s.container && !s.container[t].ReadyList?
    ensures s.container[t] in s.lists && BehindOthers(s, Detach(s, t), {t})
  {
    hide Off, JoinsBehind;
    forall q: nat | ReadyList(q) in s.lists
      ensures JoinsBehind(s.lists[ReadyList(q)], Detach(s, t).lists[ReadyList(q)], {t})
    {
      assert HoldsItsTasks(s, ReadyList(q)) && !On(s, t, ReadyList(q));
      JoinsBehindAlready(s.lists[ReadyList(q)], {t});
    }
  }

  lemma PutEndBehind(s: Store<Place>, p: Place, t: TaskId)
    requires StoreOk(s) && p in s.lists && t !in s.container
    ensures s.lists[p].pos <= |s.lists[p].items| && BehindOthers(s, PutEnd(s, p, t), {t})
  {
    hide AtEnd, JoinsBehind;
    InPlace(s, p);
    forall q: nat | ReadyList(q) in s.lists
      ensures JoinsBehind(s.lists[ReadyList(q)], PutEnd(s, p, t).lists[ReadyList(q)], {t})
    {
      assert HoldsItsTasks(s, ReadyList(q)) && !On(s, t, ReadyList(q));
      if p == ReadyList(q) {
        AtEndJoinsBehind(s.lists[p], t);
      } else {
        JoinsBehindAlready(s.lists[ReadyList(q)], {t});
      }
    }
  }

  lemma NotReadyBehind(s: Store<Place>, t: TaskId)
    requires StoreOk(s) && (t in s.container ==> !s.container[t].ReadyList?)
    ensures OrderKept(s, s, {t}) && BehindOthers(s, s, {t})
  {
    OrderKeptAlready(s, {t});
    hide JoinsBehind;
    forall q: nat | ReadyList(q) in s.lists
      ensures JoinsBehind(s.lists[ReadyList(q)], s.lists[ReadyList(q)], {t})
    {
      assert HoldsItsTasks(s, ReadyList(q)) && !On(s, t, ReadyList(q));
      JoinsBehindAlready(s.lists[ReadyList(q)], {t});
    }
  }

  /** A blocked task goes from its list to a ready list. */
  lemma UnblockedBehind(s: Store<Place>, p: Place, t: TaskId)
    requires StoreOk(s) && t in s.container && !s.container[t].ReadyList? && p in s.lists
    ensures s.container[t] in s.lists
    ensures var off := Detach(s, t);
            && p in off.lists && off.lists[p].pos <= |off.lists[p].items|
            && OrderKept(s, PutEnd(off, p, t), {t}) && BehindOthers(s, PutEnd(off, p, t), {t})
  {
    hide StoreOk, OrderKept, BehindOthers, Off, AtEnd;
    DetachOk(s, t);
    var off := Detach(s, t);
    DetachKeepsOrder(s, t);
    DetachBehind(s, t);
    PutEndOk(off, p, t);
    PutEndKeepsOrder(off, p, t);
    PutEndBehind(off, p, t);
    assert {t} + {t} == {t};
    OrderKeptTwice(s, off, PutEnd(off, p, t), {t}, {t});
    BehindTwice(s, off, PutEnd(off, p, t), {t}, {t});
  }

  /** Between two moments the tasks in `woken` left their lists for the ends of the ready lists; no other
      task moved, and none lost its turn. */
  ghost predicate Readied(before: Store<Place>, after: Store<Place>, waitedFor: map<TaskId, EventPlace>,
      waitsFor: map<TaskId, EventPlace>, tcb: Tasks, woken: set<TaskId>)
  {
    && StoreOk(before) && StoreOk(after) && Moved(before.container, after.container, waitedFor, waitsFor, tcb, woken)
    && OrderKept(before, after, woken) && BehindOthers(before, after, woken)
  }

  lemma ReadiedStep(before: Store<Place>, mid: Store<Place>, after: Store<Place>, waitedFor: map<TaskId, EventPlace>,
      waitsFor: map<TaskId, EventPlace>, tcb: Tasks, woken: set<TaskId>, t: TaskId)
    requires Readied(before, mid, waitedFor, waitsFor, tcb, woken) && t in tcb && StoreOk(after)
    requires after.container == mid.container[t := ReadyList(tcb[t].priority)]
    requires OrderKept(mid, after, {t}) && BehindOthers(mid, after, {t})
    ensures Readied(before, after, waitedFor, waitsFor - {t}, tcb, woken + {t})
  {
    hide StoreOk, Moved, OrderKept, BehindOthers;
    MovedStep(before.container, mid.container, waitedFor, waitsFor, tcb, woken, t);
    OrderKeptTwice(before, mid, after, woken, {t});
    BehindTwice(before, mid, after, woken, {t});
  }

  lemma ReadiedDomain(before: Store<Place>, after: Store<Place>, waitedFor: map<TaskId, EventPlace>,
      waitsFor: map<TaskId, EventPlace>, tcb: Tasks, woken: set<TaskId>)
    requires Readied(before, after, waitedFor, waitsFor, tcb, woken)
    ensures before.container.Keys == after.container.Keys == tcb.Keys && woken <= tcb.Keys
    ensures Moved(before.container, after.container, waitedFor, waitsFor, tcb, woken)
    ensures OrderKept(before, after, woken) && BehindOthers(before, after, woken)
  {
  }

  lemma NothingReadied(s: Store<Place>, waits: map<TaskId, EventPlace>, tcb: Tasks)
    requires StoreOk(s) && s.container.Keys == tcb.Keys
    ensures Readied(s, s, waits, waits, tcb, {})
  {
    OrderKeptAlready(s, {});
    hide JoinsBehind;
    forall q: nat | ReadyList(q) in s.lists
      ensures JoinsBehind(s.lists[ReadyList(q)], s.lists[ReadyList(q)], {})
    {
      assert HoldsItsTasks(s, ReadyList(q));
      JoinsBehindAlready(s.lists[ReadyList(q)], {});
    }
  }

  lemma ReadiedTwice(a: Store<Place>, b: Store<Place>, c: Store<Place>, ea: map<TaskId, EventPlace>,
      eb: map<TaskId, EventPlace>, ec: map<TaskId, EventPlace>, tcb: Tasks, w: set<TaskId>, w': set<TaskId>)
    requires Readied(a, b, ea, eb, tcb, w) && Readied(b, c, eb, ec, tcb, w')
    ensures Readied(a, c, ea, ec, tcb, w + w')
  {
    hide StoreOk, Moved, OrderKept, BehindOthers;
    MovedTwice(a.container, b.container, c.container, ea, eb, ec, tcb, w, w');
    OrderKeptTwice(a, b, c, w, w');
    BehindTwice(a, b, c, w, w');
  }

  /** The tasks that were readied while the scheduler was suspended. */
  ghost function Pending(waits: map<TaskId, EventPlace>): set<TaskId> {
    set t | t in waits && waits[t] == PendingReady
  }

  /** A task that is pending now was so before, and has not been readied. */
  lemma StillPending(a: Store<Place>, b: Store<Place>, ea: map<TaskId, EventPlace>,
      eb: map<TaskId, EventPlace>, tcb: Tasks, w: set<TaskId>, t: TaskId)
    requires Readied(a, b, ea, eb, tcb, w) && t in Pending(eb) && w <= Pending(ea)
    ensures t !in w && w + {t} <= Pending(ea)
  {
  }

  lemma PendingAfterMove(a: Store<Place>, b: Store<Place>, ea: map<TaskId, EventPlace>,
      eb: map<TaskId, EventPlace>, tcb: Tasks, w: set<TaskId>)
    requires Readied(a, b, ea, eb, tcb, w)
    ensures Pending(eb) == Pending(ea) - w
    ensures Pending(eb) == {} && w <= Pending(ea) ==> w == Pending(ea)
  {
    hide StoreOk, OrderKept, BehindOthers;
    assert Pending(eb) == Pending(ea) - w;
    forall t | t in Pending(ea) && t !in w ensures t in Pending(eb) {
    }
  }

  /** The tasks on a delayed list with a wake time that is not after `n`. */
  ghost function Due(places: map<TaskId, Place>, wakeAt: map<TaskId, nat>, n: nat): set<TaskId> {
    set t | t in places && places[t] in {DelayedList1, DelayedList2} && t in wakeAt && wakeAt[t] <= n
  }

  /** One of `woken` is more important than the running task. */
  ghost predicate Preempted(woken: set<TaskId>, tcb: Tasks, current: TaskId)
    requires current in tcb
  {
    exists t :: t in woken && t in tcb && tcb[t].priority > tcb[current].priority
  }

  lemma NobodyPreempts(tcb: Tasks, current: TaskId)
    requires current in tcb
    ensures !Preempted({}, tcb, current)
  {
  }

  lemma PreemptedWith(woken: set<TaskId>, tcb: Tasks, current: TaskId, t: TaskId)
    requires current in tcb && t in tcb
    ensures Preempted(woken + {t}, tcb, current) <==>
            Preempted(woken, tcb, current) || tcb[t].priority > tcb[current].priority
  {
  }

  /** A due task on a delayed list has been due from the start. */
  lemma StillDue(a: Store<Place>, b: Store<Place>, ea: map<TaskId, EventPlace>, eb: map<TaskId, EventPlace>,
      tcb: Tasks, w: set<TaskId>, wakeAt: map<TaskId, nat>, n: nat, t: TaskId)
    requires Readied(a, b, ea, eb, tcb, w) && w <= Due(a.container, wakeAt, n)
    requires t in b.container && b.container[t] in {DelayedList1, DelayedList2} && t in wakeAt && wakeAt[t] <= n
    ensures t !in w && w + {t} <= Due(a.container, wakeAt, n)
  {
    hide StoreOk, OrderKept, BehindOthers;
  }

  /** Two wakeups in a row, the second of all tasks then due, are one wakeup of all tasks due. */
  lemma DueAfterMove(a: Store<Place>, b: Store<Place>, c: Store<Place>, ea: map<TaskId, EventPlace>,
      eb: map<TaskId, EventPlace>, ec: map<TaskId, EventPlace>, tcb: Tasks, w: set<TaskId>, wakeAt: map<TaskId, nat>,
      n: nat, current: TaskId)
    requires Readied(a, b, ea, eb, tcb, w) && Readied(b, c, eb, ec, tcb, Due(b.container, wakeAt, n))
    requires w <= Due(a.container, wakeAt, n) && current in tcb
    ensures Readied(a, c, ea, ec, tcb, Due(a.container, wakeAt, n))
    ensures Preempted(Due(a.container, wakeAt, n), tcb, current) <==>
            Preempted(w, tcb, current) || Preempted(Due(b.container, wakeAt, n), tcb, current)
  {
    hide StoreOk, OrderKept, BehindOthers;
    assert w + Due(b.container, wakeAt, n) == Due(a.container, wakeAt, n);
    ReadiedTwice(a, b, c, ea, eb, ec, tcb, w, Due(b.container, wakeAt, n));
  }

  lemma SameDue(a: Store<Place>, b: Store<Place>, ea: map<TaskId, EventPlace>, eb: map<TaskId, EventPlace>,
      tcb: Tasks, w: set<TaskId>, wakeAt: map<TaskId, nat>, n: nat)
    requires Readied(a, b, ea, eb, tcb, w)
    ensures w + Due(b.container, wakeAt, n) == w + Due(a.container, wakeAt, n)
  {
  }

  lemma ReadiedThenDue(a: Store<Place>, b: Store<Place>, c: Store<Place>, ea: map<TaskId, EventPlace>,
      eb: map<TaskId, EventPlace>, ec: map<TaskId, EventPlace>, tcb: Tasks, w: set<TaskId>, wakeAt: map<TaskId, nat>,
      n: nat, current: TaskId)
    requires Readied(a, b, ea, eb, tcb, w) && Readied(b, c, eb, ec, tcb, Due(b.container, wakeAt, n)) && current in tcb
    ensures Readied(a, c, ea, ec, tcb, w + Due(a.container, wakeAt, n))
    ensures Preempted(w + Due(a.container, wakeAt, n), tcb, current) <==>
            Preempted(w, tcb, current) || Preempted(Due(b.container, wakeAt, n), tcb, current)
    ensures Pending(eb) == {} ==> Pending(ec) == {}
  {
    hide Readied, Due, Pending;
    SameDue(a, b, ea, eb, tcb, w, wakeAt, n);
    ReadiedTwice(a, b, c, ea, eb, ec, tcb, w, Due(b.container, wakeAt, n));
    PendingAfterMove(b, c, eb, ec, tcb, Due(b.container, wakeAt, n));
  }

  /** The selected task is the next one of its ready list, which goes to the back of the order; no
      other list changes. */
  ghost predicate Selects(before: Store<Place>, after: Store<Place>, p: nat, t: TaskId) {
    && ReadyList(p) in before.lists && after.lists.Keys == before.lists.Keys
    && (forall q :: q in before.lists && q != ReadyList(p) ==> after.lists[q] == before.lists[q])
    && var l, r := before.lists[ReadyList(p)], after.lists[ReadyList(p)];
    && l.items != [] && l.pos <= |l.items| && r.items == l.items && r.pos <= |r.items|
    && t == Upcoming(l.items, l.pos)[0]
    && Upcoming(r.items, r.pos) == Rotated(Upcoming(l.items, l.pos))
  }

  // ---------- What is true of the lists ----------

  /** Everything that says where tasks are. */
  datatype Config = Config(m: nat, maxPriorities: nat, state: Store<Place>, event: Store<EventPlace>, tcb: Tasks,
      topReady: nat, delayedList: Place, overflowList: Place, nextUnblock: nat, served: nat, epoch: nat,
      wakeAt: map<TaskId, nat>)

  ghost predicate Structure(c: Config) {
    && StoreOk(c.state) && StoreOk(c.event)
    && c.delayedList in {DelayedList1, DelayedList2}
    && c.overflowList == (if c.delayedList == DelayedList1 then DelayedList2 else DelayedList1)
    && SuspendedList in c.state.lists && PendingReady in c.event.lists
    && (forall p :: 0 <= p < c.maxPriorities ==> ReadyList(p) in c.state.lists)
    && c.state.container.Keys <= c.tcb.Keys && c.event.container.Keys <= c.tcb.Keys
    && SortedIn(c.state, c.tcb, c.delayedList) && SortedIn(c.state, c.tcb, c.overflowList)
    && c.topReady < c.maxPriorities && c.nextUnblock < c.m
  }

  /** A ready task waits for no event, is on the list of its current priority, and no ready list
      above topReady is in use.  A task on a delayed list is on the list of the epoch of its wake
      time; on the current list that time is still to come (a wait of 0 ticks ends with the next
      tick). */
  ghost predicate TaskOk(c: Config, t: TaskId)
    requires t in c.tcb
  {
    && t in c.wakeAt && c.tcb[t].priority < c.maxPriorities
    && (t in c.state.container ==>
          var p := c.state.container[t];
          if p.ReadyList? then
            t !in c.event.container && p.priority == c.tcb[t].priority <= c.topReady
          else if p == c.delayedList then
            && c.tcb[t].wake < c.m && c.wakeAt[t] == c.epoch + c.tcb[t].wake && c.nextUnblock <= c.tcb[t].wake
            && Ahead(c, c.wakeAt[t])
          else
            p == c.overflowList ==> c.tcb[t].wake < c.m && c.wakeAt[t] == c.epoch + c.m + c.tcb[t].wake)
  }

  /** A wait until `until` is still to be served in this epoch. */
  ghost predicate Ahead(c: Config, until: nat) {
    c.served < until || (c.served == until && c.served + 1 < c.epoch + c.m)
  }

  ghost predicate ListsOk(c: Config) {
    Structure(c) && forall t :: t in c.tcb ==> TaskOk(c, t)
  }

  /** prvInitialiseTaskLists and the first task. */
  function InitialConfig(m: nat, maxPriorities: nat, idle: TaskId, eventLists: set<nat>): Config
    requires 0 < m && 0 < maxPriorities
  {
    var places := {DelayedList1, DelayedList2, SuspendedList} + set p | 0 <= p < maxPriorities :: ReadyList(p);
    var eventPlaces := {PendingReady} + set e | e in eventLists :: EventList(e);
    Config(m, maxPriorities, PutEnd(Unlinked(places), ReadyList(0), idle), Unlinked(eventPlaces),
           map[idle := Tcb(0, 0, 0, 0, maxPriorities, false)], 0, DelayedList1, DelayedList2, m - 1, 0, 0,
           map[idle := 0])
  }

  lemma InitialOk(m: nat, maxPriorities: nat, idle: TaskId, eventLists: set<nat>)
    requires 0 < m && 0 < maxPriorities
    ensures ListsOk(InitialConfig(m, maxPriorities, idle, eventLists))
    ensures InitialConfig(m, maxPriorities, idle, eventLists).state.container == map[idle := ReadyList(0)]
  {
    hide StoreOk;
    var places := {DelayedList1, DelayedList2, SuspendedList} + set p | 0 <= p < maxPriorities :: ReadyList(p);
    UnlinkedOk(places);
    UnlinkedOk({PendingReady} + set e | e in eventLists :: EventList(e));
    PutEndOk(Unlinked(places), ReadyList(0), idle);
  }

  lemma UnlinkStateOrder(c: Config, t: TaskId)
    requires StoreOk(c.state) && t in c.state.container
    ensures c.state.container[t] in c.state.lists && OrderKept(c.state, Detach(c.state, t), {t})
    ensures var p := c.state.container[t];
            var l, r := c.state.lists[p], Detach(c.state, t).lists[p];
            l.pos <= |l.items| && r.pos <= |r.items| && Turns(r) == Without(Turns(l), t)
    ensures forall q :: q in c.state.lists && q != c.state.container[t] ==>
              Detach(c.state, t).lists[q] == c.state.lists[q]
  {
    hide Turns, OrderKept, Off;
    DetachOk(c.state, t);
    DetachKeepsOrder(c.state, t);
  }

  lemma UnlinkStateOk(c: Config, t: TaskId)
    requires ListsOk(c) && t in c.state.container
    ensures c.state.container[t] in c.state.lists && ListsOk(c.(state := Detach(c.state, t)))
    ensures Detach(c.state, t).container == c.state.container - {t}
  {
    hide StoreOk, SortedIn, Turns, Off;
    DetachOk(c.state, t);
    DetachSorted(c.state, c.tcb, t, c.delayedList);
    DetachSorted(c.state, c.tcb, t, c.overflowList);
    var d := c.(state := Detach(c.state, t));
    forall u | u in d.tcb ensures TaskOk(d, u) {
      assert TaskOk(c, u);
    }
  }

  lemma UnlinkEventOk(c: Config, t: TaskId)
    requires ListsOk(c) && t in c.event.container
    ensures c.event.container[t] in c.event.lists && ListsOk(c.(event := Detach(c.event, t)))
    ensures Detach(c.event, t).container == c.event.container - {t}
  {
    hide StoreOk, SortedIn, Turns, Off;
    DetachOk(c.event, t);
    var d := c.(event := Detach(c.event, t));
    forall u | u in d.tcb ensures TaskOk(d, u) {
      assert TaskOk(c, u);
    }
  }

  lemma RaiseTopOk(c: Config, priority: nat)
    requires ListsOk(c) && c.topReady <= priority < c.maxPriorities
    ensures ListsOk(c.(topReady := priority))
  {
    hide StoreOk, SortedIn;
    var d := c.(topReady := priority);
    forall u | u in d.tcb ensures TaskOk(d, u) {
      assert TaskOk(c, u);
    }
  }

  lemma AddToReadyOk(c: Config, t: TaskId)
    requires ListsOk(c) && t in c.tcb && t !in c.state.container && t !in c.event.container
    requires c.tcb[t].priority <= c.topReady
    ensures var p := ReadyList(c.tcb[t].priority);
            && p in c.state.lists && c.state.lists[p].pos <= |c.state.lists[p].items|
            && PutEnd(c.state, p, t).container == c.state.container[t := p]
            && ListsOk(c.(state := PutEnd(c.state, p, t)))
            && OrderKept(c.state, PutEnd(c.state, p, t), {t})
            && (forall q :: q in c.state.lists && q != p ==> PutEnd(c.state, p, t).lists[q] == c.state.lists[q])
            && var l, r := c.state.lists[p], PutEnd(c.state, p, t).lists[p];
               var u := Turns(l);
               r.pos <= |r.items| && Turns(r) == if l.pos == 0 then u + [t] else u[..|u| - 1] + [t, u[|u| - 1]]
  {
    hide StoreOk, Turns, OrderKept, AtEnd;
    assert TaskOk(c, t);
    var p := ReadyList(c.tcb[t].priority);
    PutEndOk(c.state, p, t);
    PutEndKeepsOrder(c.state, p, t);
    var d := c.(state := PutEnd(c.state, p, t));
    forall u | u in d.tcb ensures TaskOk(d, u) {
      assert TaskOk(c, u);
    }
  }

  lemma SetTcbOk(c: Config, t: TaskId, v: Tcb, until: nat)
    requires ListsOk(c) && t in c.tcb && v.priority < c.maxPriorities
    requires t in c.state.container ==> v.wake == c.tcb[t].wake && t in c.wakeAt && until == c.wakeAt[t]
    requires t in c.state.container && c.state.container[t].ReadyList? ==> v.priority == c.tcb[t].priority
    ensures ListsOk(c.(tcb := c.tcb[t := v], wakeAt := c.wakeAt[t := until]))
    ensures c.tcb[t := v].Keys == c.tcb.Keys
  {
    WakesUpdate(c.state.lists[c.delayedList].items, c.tcb, t, v);
    WakesUpdate(c.state.lists[c.overflowList].items, c.tcb, t, v);
    NotLinked(c.state, t);
    hide StoreOk;
    Relink(c.tcb, t, v);
    var d := c.(tcb := c.tcb[t := v], wakeAt := c.wakeAt[t := until]);
    forall u | u in d.tcb ensures TaskOk(d, u) {
      assert TaskOk(c, u);
    }
  }

  lemma InsertTimedOk(c: Config, p: Place, t: TaskId)
    requires ListsOk(c) && t in c.tcb && t !in c.state.container && p in {c.delayedList, c.overflowList}
    requires c.tcb[t].wake < c.m && t in c.wakeAt
    requires c.wakeAt[t] == c.tcb[t].wake + if p == c.delayedList then c.epoch else c.epoch + c.m
    requires p == c.delayedList ==> Ahead(c, c.wakeAt[t]) && c.nextUnblock <= c.tcb[t].wake
    ensures SortedIn(c.state, c.tcb, p) && ListsOk(c.(state := PutSorted(c.state, c.tcb, p, t)))
    ensures PutSorted(c.state, c.tcb, p, t).container == c.state.container[t := p]
    ensures PutSorted(c.state, c.tcb, p, t).lists.Keys == c.state.lists.Keys
    ensures Known(c.state.lists[p].items, c.tcb)
    ensures PutSorted(c.state, c.tcb, p, t).lists[p].items ==
            InsertAt(c.state.lists[p].items, InsertPosition(Wakes(c.state.lists[p].items, c.tcb), c.tcb[t].wake), t)
    ensures OrderKept(c.state, PutSorted(c.state, c.tcb, p, t), {t})
  {
    hide StoreOk, SortedIn, PutSorted, OrderKept;
    SortedKnown(c.state, c.tcb, p);
    PutSortedPlace(c.state, c.tcb, p, t);
    PutSortedOk(c.state, c.tcb, p, t, if p == c.delayedList then c.overflowList else c.delayedList);
    var d := c.(state := PutSorted(c.state, c.tcb, p, t));
    forall u | u in d.tcb ensures TaskOk(d, u) {
      assert TaskOk(c, u);
    }
  }

  lemma InsertSuspendedOk(c: Config, t: TaskId)
    requires ListsOk(c) && t in c.tcb && t !in c.state.container
    ensures SuspendedList in c.state.lists && c.state.lists[SuspendedList].pos <= |c.state.lists[SuspendedList].items|
    ensures PutEnd(c.state, SuspendedList, t).container == c.state.container[t := SuspendedList]
    ensures ListsOk(c.(state := PutEnd(c.state, SuspendedList, t)))
    ensures OrderKept(c.state, PutEnd(c.state, SuspendedList, t), {t})
  {
    hide StoreOk, Turns, OrderKept, AtEnd;
    PutEndOk(c.state, SuspendedList, t);
    PutEndKeepsOrder(c.state, SuspendedList, t);
    var d := c.(state := PutEnd(c.state, SuspendedList, t));
    forall u | u in d.tcb ensures TaskOk(d, u) {
      assert TaskOk(c, u);
    }
  }

  lemma NextUnblockOk(c: Config, wake: nat)
    requires ListsOk(c) && wake < c.m
    requires forall t :: On(c.state, t, c.delayedList) && t in c.tcb ==> wake <= c.tcb[t].wake
    ensures ListsOk(c.(nextUnblock := wake))
  {
    hide StoreOk, SortedIn;
    var d := c.(nextUnblock := wake);
    forall u | u in d.tcb ensures TaskOk(d, u) {
      assert TaskOk(c, u) && (On(c.state, u, c.delayedList) ==> wake <= c.tcb[u].wake);
    }
  }

  lemma LowerUnblockOk(c: Config, wake: nat)
    requires ListsOk(c) && wake <= c.nextUnblock
    ensures ListsOk(c.(nextUnblock := wake))
  {
    hide StoreOk, SortedIn;
    forall t | On(c.state, t, c.delayedList) && t in c.tcb ensures wake <= c.tcb[t].wake {
      assert TaskOk(c, t);
    }
    NextUnblockOk(c, wake);
  }

  /** The two delayed lists exchange roles at the wrap, when the current one is empty. */
  lemma SwitchOk(c: Config)
    requires ListsOk(c) && c.served < c.epoch + c.m && forall t :: !On(c.state, t, c.delayedList)
    ensures ListsOk(c.(delayedList := c.overflowList, overflowList := c.delayedList, epoch := c.epoch + c.m,
                       nextUnblock := 0))
  {
    hide StoreOk, SortedIn;
    var d := c.(delayedList := c.overflowList, overflowList := c.delayedList, epoch := c.epoch + c.m, nextUnblock := 0);
    forall u | u in d.tcb ensures TaskOk(d, u) {
      assert TaskOk(c, u) && !On(c.state, u, c.delayedList);
    }
  }

  lemma ServeOk(c: Config, n: nat)
    requires ListsOk(c) && Due(c.state.container, c.wakeAt, n) == {}
    ensures ListsOk(c.(served := n))
  {
    hide StoreOk, SortedIn;
    var d := c.(served := n);
    forall u | u in d.tcb ensures TaskOk(d, u) {
      assert TaskOk(c, u) && u !in Due(c.state.container, c.wakeAt, n);
    }
  }

  lemma LowerTopOk(c: Config, p: nat)
    requires ListsOk(c) && p < c.maxPriorities
    requires forall t :: t in c.state.container && c.state.container[t].ReadyList? ==>
               c.state.container[t].priority <= p
    ensures ListsOk(c.(topReady := p))
  {
    hide StoreOk, SortedIn;
    var d := c.(topReady := p);
    forall u | u in d.tcb ensures TaskOk(d, u) {
      assert TaskOk(c, u);
    }
  }

  /** Moving the cursor of a list changes nobody's place. */
  lemma StepStoreOk<P>(s: Store<P>, p: P, pos: nat)
    requires StoreOk(s) && p in s.lists && pos <= |s.lists[p].items|
    ensures StoreOk(s.(lists := s.lists[p := s.lists[p].(pos := pos)]))
  {
    var r := s.(lists := s.lists[p := s.lists[p].(pos := pos)]);
    forall q | q in r.lists ensures HoldsItsTasks(r, q) {
      assert HoldsItsTasks(s, q);
    }
  }

  lemma StepCursorOk(c: Config, p: nat, pos: nat)
    requires ListsOk(c) && p < c.maxPriorities
    requires ReadyList(p) in c.state.lists && pos <= |c.state.lists[ReadyList(p)].items|
    ensures ListsOk(c.(state := c.state.(lists :=
                       c.state.lists[ReadyList(p) := c.state.lists[ReadyList(p)].(pos := pos)])))
  {
    hide StoreOk;
    StepStoreOk(c.state, ReadyList(p), pos);
    var d := c.(state := c.state.(lists := c.state.lists[ReadyList(p) := c.state.lists[ReadyList(p)].(pos := pos)]));
    forall u | u in d.tcb ensures TaskOk(d, u) {
      assert TaskOk(c, u);
    }
  }

  lemma InsertEventOk(c: Config, e: EventPlace, t: TaskId, i: nat)
    requires ListsOk(c) && e in c.event.lists && i <= |c.event.lists[e].items|
    requires t in c.tcb && t !in c.event.container
    requires t in c.state.container && !c.state.container[t].ReadyList?
    ensures PutAt(c.event, e, t, i).container == c.event.container[t := e]
    ensures PutAt(c.event, e, t, i).lists[e].items == InsertAt(c.event.lists[e].items, i, t)
    ensures ListsOk(c.(event := PutAt(c.event, e, t, i)))
  {
    PutAtOk(c.event, e, t, i);
    hide StoreOk, SortedIn, PutAt;
    var d := c.(event := PutAt(c.event, e, t, i));
    forall u | u in d.tcb ensures TaskOk(d, u) {
      assert TaskOk(c, u);
    }
  }

  lemma InsertPendingOk(c: Config, t: TaskId)
    requires ListsOk(c) && t in c.tcb && t !in c.event.container
    requires t in c.state.container && !c.state.container[t].ReadyList?
    ensures PendingReady in c.event.lists && c.event.lists[PendingReady].pos <= |c.event.lists[PendingReady].items|
    ensures PutEnd(c.event, PendingReady, t).container == c.event.container[t := PendingReady]
    ensures ListsOk(c.(event := PutEnd(c.event, PendingReady, t)))
  {
    PutEndOk(c.event, PendingReady, t);
    hide StoreOk, SortedIn, PutEnd;
    var d := c.(event := PutEnd(c.event, PendingReady, t));
    forall u | u in d.tcb ensures TaskOk(d, u) {
      assert TaskOk(c, u);
    }
  }

  // ---------- Where a timed wait goes: prvAddCurrentTaskToDelayedList ----------

  /** Wake tick, and whether the wait goes to the overflow list. */
  function DelayPlacement(m: nat, tick: nat, ticksToWait: nat): (nat, bool)
    requires 0 < m
  {
    var wake := (tick + ticksToWait) % m;
    (wake, wake < tick)
  }

  /** Tick `t` of the epoch that begins at `e` comes after `now` and ends a wait until `wakeAt`. */
  predicate Serves(m: nat, e: nat, now: nat, wakeAt: nat, t: nat) {
    now < t < e + m && wakeAt <= t
  }

  /** The wrapped comparison sends a wait to the list of the epoch in which it ends, under its tick
      in that epoch.  Some later tick of the current epoch serves every wait on the current list,
      so that the list is empty at the wrap, except for a wait of 0 ticks begun at the last tick. */
  lemma DelayPlacementExact(m: nat, e: nat, now: nat, ticksToWait: nat)
    requires IsEpoch(m, e) && e <= now < e + m && ticksToWait < m
    ensures var wakeAt := now + ticksToWait;
            var (wake, later) := DelayPlacement(m, now - e, ticksToWait);
            && (later <==> e + m <= wakeAt)
            && wake < m && wakeAt == (if later then e + m + wake else e + wake)
            && (!later ==> ((exists t :: Serves(m, e, now, wakeAt, t)) <==> !(ticksToWait == 0 && now - e == m - 1)))
  {
    var s := now - e + ticksToWait;
    ModUnique(m, s, if s < m then 0 else 1, if s < m then s else s - m);
    if s < m {
      var t := if ticksToWait == 0 then now + 1 else now + ticksToWait;
      assert t < e + m ==> Serves(m, e, now, now + ticksToWait, t);
    }
  }

  class Kernel {
    const m: nat
    const maxPriorities: nat
    var state: Store<Place>
    var event: Store<EventPlace>
    var tcb: Tasks
    var current: TaskId
    var topReady: nat
    var delayedList: Place
    var overflowList: Place
    var tickCount: nat
    var pendedTicks: nat
    var nextUnblock: nat
    var overflows: nat
    var suspended: nat
    var yieldPending: bool
    ghost var epoch: nat
    ghost var now: nat
    ghost var served: nat  // instant up to which due tasks have been woken
    ghost var raised: nat  // tick interrupts so far
    ghost var wakeAt: map<TaskId, nat>

    // ---------- Invariants ----------

    predicate IsReady(t: TaskId)
      reads this`state
    {
      t in state.container && state.container[t].ReadyList?
    }

    ghost predicate ClockOk()
      reads this`tickCount, this`epoch, this`now, this`overflows
    {
      IsEpoch(m, epoch) && epoch <= now < epoch + m && tickCount == now - epoch && epoch == Cycles(m, overflows)
    }

    /** No tick is lost: those raised are counted or pended.  Nothing pends while the scheduler
        runs. */
    ghost predicate PendingOk()
      reads this`event, this`pendedTicks, this`suspended, this`now, this`raised
    {
      && raised == now + pendedTicks
      && (suspended == 0 ==> pendedTicks == 0 && Pending(event.container) == {})
    }

    ghost function View(): Config
      reads this`state, this`event, this`tcb, this`topReady, this`wakeAt, this`delayedList, this`overflowList,
            this`nextUnblock, this`served, this`epoch
    {
      Config(m, maxPriorities, state, event, tcb, topReady, delayedList, overflowList, nextUnblock, served, epoch,
             wakeAt)
    }

    ghost predicate Lists()
      reads this`state, this`event, this`tcb, this`topReady, this`wakeAt, this`delayedList, this`overflowList,
            this`nextUnblock, this`served, this`epoch
    {
      ListsOk(View())
    }

    /** Between kernel calls, and while pended ticks are replayed. */
    ghost predicate Ticking()
      reads this`state, this`event, this`tcb, this`topReady, this`wakeAt, this`delayedList, this`overflowList,
            this`nextUnblock, this`served, this`epoch, this`tickCount, this`now, this`overflows, this`current
    {
      Lists() && ClockOk() && served == now && state.container.Keys == tcb.Keys && current in tcb
    }

    /** Between kernel calls every task is on exactly one state list. */
    ghost predicate Inv()
      reads this
    {
      Ticking() && PendingOk()
    }

    lemma ListsThere()
      requires Lists()
      ensures delayedList in state.lists && overflowList in state.lists && SuspendedList in state.lists
      ensures PendingReady in event.lists && delayedList != overflowList
    {
    }

    /** prvInitialiseTaskLists and the start of the scheduler with only the idle task, which is ready
        at priority 0; every event list is empty. */
    constructor (modulus: nat, priorities: nat, idle: TaskId, eventLists: set<nat>)
      requires 0 < modulus && 0 < priorities
      ensures m == modulus && maxPriorities == priorities
      ensures Inv() && now == 0 && suspended == 0 && current == idle && tcb.Keys == {idle} && IsReady(idle)
      ensures forall e :: EventList(e) in event.lists <==> e in eventLists
    {
      hide ListsOk, PutEnd, Unlinked;
      m, maxPriorities := modulus, priorities;
      var c := InitialConfig(modulus, priorities, idle, eventLists);
      InitialOk(modulus, priorities, idle, eventLists);
      state, event, tcb, current := c.state, c.event, c.tcb, idle;
      topReady, delayedList, overflowList, nextUnblock := c.topReady, c.delayedList, c.overflowList, c.nextUnblock;
      tickCount, pendedTicks, overflows, suspended, yieldPending := 0, 0, 0, 0, false;
      epoch, now, served, raised, wakeAt := 0, 0, 0, 0, c.wakeAt;
      new;
      assert View() == c;
    }

    // ---------- List items ----------

    /** uxListRemove on a state list item. */
    method UnlinkState(t: TaskId)
      requires Lists() && t in state.container
      modifies this`state
      ensures Lists() && state == Detach(old(state), t)
      ensures state.container == old(state.container) - {t} && OrderKept(old(state), state, {t})
      ensures var p := old(state.container[t]);
              && p in state.lists && p in old(state).lists
              && var l, r := old(state).lists[p], state.lists[p];
              l.pos <= |l.items| && r.pos <= |r.items| && Turns(r) == Without(Turns(l), t)
      ensures forall q :: q in old(state).lists && q != old(state.container[t]) ==>
                q in state.lists && state.lists[q] == old(state).lists[q]
    {
      hide ListsOk, Off, Turns, OrderKept, StoreOk;
      StoresOk();
      UnlinkStateOk(View(), t);
      UnlinkStateOrder(View(), t);
      state := Detach(state, t);
    }

    /** uxListRemove on an event list item. */
    method UnlinkEvent(t: TaskId)
      requires Lists() && t in event.container
      modifies this`event
      ensures Lists() && event == Detach(old(event), t)
      ensures event.container == old(event.container) - {t}
    {
      hide ListsOk;
      UnlinkEventOk(View(), t);
      event := Detach(event, t);
    }

    lemma PriorityInRange(t: TaskId)
      requires Lists() && t in tcb
      ensures t in wakeAt && tcb[t].priority < maxPriorities
    {
      assert TaskOk(View(), t);
    }

    /** taskRECORD_READY_PRIORITY. */
    method RecordReadyPriority(priority: nat)
      requires Lists() && priority < maxPriorities
      modifies this`topReady
      ensures Lists() && topReady == if priority > old(topReady) then priority else old(topReady)
    {
      hide ListsOk;
      if priority > topReady {
        RaiseTopOk(View(), priority);
        topReady := priority;
      }
    }

    /** prvAddTaskToReadyList. */
    method AddToReady(t: TaskId)
      requires Lists() && t in tcb && t !in state.container && t !in event.container
      modifies this`state, this`topReady
      ensures Lists() && state == PutEnd(old(state), ReadyList(tcb[t].priority), t)
      ensures state.container == old(state.container)[t := ReadyList(tcb[t].priority)]
      ensures OrderKept(old(state), state, {t})
      ensures var p := ReadyList(tcb[t].priority);
              && p in state.lists && p in old(state).lists
              && var l, r := old(state).lists[p], state.lists[p];
              && l.pos <= |l.items| && r.pos <= |r.items|
              && var u := Turns(l);
                 Turns(r) == if l.pos == 0 then u + [t] else u[..|u| - 1] + [t, u[|u| - 1]]
      ensures forall q :: q in old(state).lists && q != ReadyList(tcb[t].priority) ==>
                q in state.lists && state.lists[q] == old(state).lists[q]
    {
      hide ListsOk, AtEnd, Turns, OrderKept;
      PriorityInRange(t);
      RecordReadyPriority(tcb[t].priority);
      AddToReadyOk(View(), t);
      state := PutEnd(state, ReadyList(tcb[t].priority), t);
    }

    /** Writes the fields of a task.  A ready task changes priority only between two lists. */
    method SetTcb(t: TaskId, v: Tcb, ghost until: nat)
      requires Lists() && t in tcb && v.priority < maxPriorities
      requires t in state.container ==> v.wake == tcb[t].wake && until == wakeAt[t]
      requires IsReady(t) ==> v.priority == tcb[t].priority
      modifies this`tcb, this`wakeAt
      ensures Lists() && tcb == old(tcb)[t := v] && wakeAt == old(wakeAt)[t := until]
      ensures tcb.Keys == old(tcb.Keys)
    {
      hide ListsOk;
      PriorityInRange(t);
      SetTcbOk(View(), t, v, until);
      tcb := tcb[t := v];
      wakeAt := wakeAt[t := until];
    }

    /** vListInsert into a delayed list, for a task whose wake time is set. */
    method InsertTimed(p: Place, t: TaskId)
      requires Lists() && t in tcb && t !in state.container && p in {delayedList, overflowList}
      requires tcb[t].wake < m && wakeAt[t] == tcb[t].wake + if p == delayedList then epoch else epoch + m
      requires p == delayedList ==> Ahead(View(), wakeAt[t])
      requires p == delayedList ==> nextUnblock <= tcb[t].wake
      modifies this`state
      ensures Lists() && state.container == old(state.container)[t := p]
      ensures p in state.lists && p in old(state).lists && Known(old(state).lists[p].items, tcb)
      ensures var items := old(state).lists[p].items;
              state.lists[p].items == InsertAt(items, InsertPosition(Wakes(items, tcb), tcb[t].wake), t)
      ensures OrderKept(old(state), state, {t})
    {
      hide ListsOk, PutSorted, OrderKept;
      ListsThere();
      PriorityInRange(t);
      InsertTimedOk(View(), p, t);
      state := PutSorted(state, tcb, p, t);
    }

    /** vListInsertEnd into the list of tasks blocked without a timeout. */
    method InsertSuspended(t: TaskId)
      requires Lists() && t in tcb && t !in state.container
      modifies this`state
      ensures Lists() && state.container == old(state.container)[t := SuspendedList]
      ensures state == PutEnd(old(state), SuspendedList, t) && OrderKept(old(state), state, {t})
    {
      hide ListsOk, OrderKept, AtEnd;
      InsertSuspendedOk(View(), t);
      state := PutEnd(state, SuspendedList, t);
    }

    method LowerNextUnblock(wake: nat)
      requires Lists()
      modifies this`nextUnblock
      ensures Lists() && nextUnblock == if wake < old(nextUnblock) then wake else old(nextUnblock)
    {
      hide ListsOk;
      if wake < nextUnblock {
        LowerUnblockOk(View(), wake);
        nextUnblock := wake;
      }
    }

    /** The two branches of prvAddCurrentTaskToDelayedList for a timed wait. */
    method InsertByEpoch(t: TaskId, later: bool)
      requires Lists() && t in tcb && t !in state.container
      requires tcb[t].wake < m && wakeAt[t] == tcb[t].wake + if later then epoch + m else epoch
      requires !later ==> Ahead(View(), wakeAt[t])
      modifies this`state, this`nextUnblock
      ensures Lists() && state.container == old(state.container)[t := if later then overflowList else delayedList]
      ensures OrderKept(old(state), state, {t})
    {
      hide ListsOk, OrderKept, InsertPosition, Wakes;
      ListsThere();
      if later {
        InsertTimed(overflowList, t);
      } else {
        LowerNextUnblock(tcb[t].wake);
        InsertTimed(delayedList, t);
      }
    }

    // ---------- Blocking ----------

    /** No other task's wake time, priority or anything else changes. */
    twostate predicate OnlyWaitOf(t: TaskId)
      reads this`tcb, this`wakeAt
    {
      OnlyWaits(old(tcb), old(wakeAt), tcb, wakeAt, t)
    }

    /** The list a blocking call puts the running task on. */
    ghost function BlockedPlace(ticksToWait: nat, canBlockIndefinitely: bool): Place
      reads this`now, this`epoch, this`delayedList, this`overflowList
    {
      if ticksToWait == m - 1 && canBlockIndefinitely then SuspendedList
      else if now + ticksToWait < epoch + m then delayedList else overflowList
    }

    lemma BlockedIsNotReady(ticksToWait: nat, canBlockIndefinitely: bool)
      requires Lists()
      ensures !BlockedPlace(ticksToWait, canBlockIndefinitely).ReadyList?
    {
    }

    /** The wake tick of a wait, and whether it falls into the next epoch. */
    method WakeTick(ticksToWait: nat) returns (wake: nat, later: bool)
      requires ClockOk() && served == now && ticksToWait < m
      ensures later <==> epoch + m <= served + ticksToWait
      ensures wake < m && served + ticksToWait == wake + if later then epoch + m else epoch
    {
      DelayPlacementExact(m, epoch, now, ticksToWait);
      var placement := DelayPlacement(m, tickCount, ticksToWait);
      wake, later := placement.0, placement.1;
    }

    /** Stores the wake tick of a wait in the state list item. */
    method SetWake(t: TaskId, ticksToWait: nat) returns (later: bool)
      requires Lists() && ClockOk() && served == now && t in tcb && t !in state.container && ticksToWait < m
      modifies this`tcb, this`wakeAt
      ensures Lists() && OnlyWaitOf(t) && tcb[t].wake < m && t in wakeAt && wakeAt[t] == served + ticksToWait
      ensures later <==> epoch + m <= served + ticksToWait
      ensures wakeAt[t] == tcb[t].wake + if later then epoch + m else epoch
    {
      var wake: nat;
      wake, later := WakeTick(ticksToWait);
      OnlyWaitsIntro(tcb, wakeAt, t, wake, served + ticksToWait);
      SetTcb(t, tcb[t].(wake := wake), served + ticksToWait);
    }

    /** The timed branch of prvAddCurrentTaskToDelayedList, for a task already off its list. */
    method WaitTimed(t: TaskId, ticksToWait: nat)
      requires Lists() && ClockOk() && served == now && t in tcb && t !in state.container
      requires ticksToWait < m && (ticksToWait == 0 ==> tickCount + 1 < m)
      modifies this`state, this`tcb, this`wakeAt, this`nextUnblock
      ensures Lists() && OnlyWaitOf(t) && t in wakeAt && wakeAt[t] == served + ticksToWait
      ensures state.container ==
              old(state.container)[t := if served + ticksToWait < epoch + m then delayedList else overflowList]
      ensures OrderKept(old(state), state, {t})
    {
      hide ListsOk, OrderKept;
      var later := SetWake(t, ticksToWait);
      InsertByEpoch(t, later);
    }

    /** prvAddCurrentTaskToDelayedList.  A wait of 0 ticks must not begin at the last tick of an
        epoch: see DelayPlacementExact. */
    method AddCurrentToDelayed(ticksToWait: nat, canBlockIndefinitely: bool)
      requires Lists() && ClockOk() && served == now && current in tcb && current in state.container
      requires ticksToWait < m && (ticksToWait == 0 ==> tickCount + 1 < m)
      modifies this`state, this`tcb, this`wakeAt, this`nextUnblock
      ensures Lists() && OnlyWaitOf(current) && OrderKept(old(state), state, {current})
      ensures state.container == old(state.container)[current := BlockedPlace(ticksToWait, canBlockIndefinitely)]
      ensures BlockedPlace(ticksToWait, canBlockIndefinitely) != SuspendedList ==>
                current in wakeAt && wakeAt[current] == now + ticksToWait
    {
      hide ListsOk, StoreOk, Detach, PutEnd, PutSorted, OnlyWaits, OrderKept, Turns;
      Relink(state.container, current, BlockedPlace(ticksToWait, canBlockIndefinitely));
      UnlinkState(current);
      ghost var off := state;
      if ticksToWait == m - 1 && canBlockIndefinitely {
        InsertSuspended(current);
        NothingWaits(tcb, wakeAt, current);
      } else {
        WaitTimed(current, ticksToWait);
      }
      OrderKeptTwice(old(state), off, state, {current}, {current});
      assert {current} + {current} == {current};
    }

    // ---------- The tick ----------

    /** The first task of the current delayed list has the smallest wake tick. */
    lemma HeadWakesFirst(p: Place)
      requires Lists() && p in {delayedList, overflowList} && state.lists[p].items != []
      ensures state.lists[p].items[0] in tcb && On(state, state.lists[p].items[0], p)
      ensures forall t :: On(state, t, p) ==> t in tcb && tcb[state.lists[p].items[0]].wake <= tcb[t].wake
    {
      var items := state.lists[p].items;
      assert HoldsItsTasks(state, p);
      assert items[0] in items;
      forall t | On(state, t, p) ensures t in tcb && tcb[items[0]].wake <= tcb[t].wake {
        assert t in items;
        var i :| 0 <= i < |items| && items[i] == t;
        assert Wakes(items, tcb)[0] <= Wakes(items, tcb)[i];
      }
    }

    lemma EmptyMeansNobody(p: Place)
      requires Lists() && p in {delayedList, overflowList} && state.lists[p].items == []
      ensures forall t :: !On(state, t, p)
    {
      assert HoldsItsTasks(state, p);
    }

    /** prvResetNextTaskUnblockTime. */
    method ResetNextUnblock()
      requires Lists()
      modifies this`nextUnblock
      ensures Lists()
      ensures var items := state.lists[delayedList].items;
              nextUnblock == if items == [] then m - 1 else tcb[items[0]].wake
    {
      ghost var c := View();
      if state.lists[delayedList].items == [] {
        EmptyMeansNobody(delayedList);
        NextUnblockOk(c, m - 1);
        hide ListsOk;
        nextUnblock := m - 1;
      } else {
        HeadWakesFirst(delayedList);
        assert TaskOk(c, state.lists[delayedList].items[0]);
        NextUnblockOk(c, tcb[state.lists[delayedList].items[0]].wake);
        hide ListsOk;
        nextUnblock := tcb[state.lists[delayedList].items[0]].wake;
      }
    }

    /** The head of the current delayed list has to be woken. */
    predicate HeadDue()
      requires Lists()
      reads this`state, this`event, this`tcb, this`topReady, this`wakeAt, this`delayedList, this`overflowList,
            this`nextUnblock, this`served, this`epoch, this`tickCount
    {
      var items := state.lists[delayedList].items;
      items != [] && items[0] in tcb && tcb[items[0]].wake <= tickCount
    }

    lemma CursorInRange(t: TaskId)
      requires Lists() && t in tcb
      ensures ReadyList(tcb[t].priority) in state.lists
      ensures var l := state.lists[ReadyList(tcb[t].priority)]; l.pos <= |l.items|
    {
      assert TaskOk(View(), t) && HoldsItsTasks(state, ReadyList(tcb[t].priority));
    }

    /** A blocked task leaves its lists for the ready list of its priority. */
    method Unblock(t: TaskId)
      requires Lists() && t in tcb && t in state.container
      modifies this`state, this`event, this`topReady
      ensures Lists() && state.container == old(state.container)[t := ReadyList(tcb[t].priority)]
      ensures event.container == old(event.container) - {t}
      ensures var off, p := Detach(old(state), t), ReadyList(tcb[t].priority);
              p in off.lists && off.lists[p].pos <= |off.lists[p].items| && state == PutEnd(off, p, t)
      ensures StoreOk(state)
      ensures !old(IsReady(t)) ==> OrderKept(old(state), state, {t}) && BehindOthers(old(state), state, {t})
    {
      hide ListsOk, StoreOk, HoldsItsTasks, Detach, PutEnd, OrderKept, BehindOthers;
      StoresOk();
      CursorInRange(t);
      if !IsReady(t) {
        UnblockedBehind(state, ReadyList(tcb[t].priority), t);
      }
      Relink(state.container, t, ReadyList(tcb[t].priority));
      MinusAbsent(event.container, t);
      UnlinkState(t);
      CursorInRange(t);
      if t in event.container {
        UnlinkEvent(t);
      }
      AddToReady(t);
      StoresOk();
    }

    lemma StoresOk()
      requires Lists()
      ensures StoreOk(state) && StoreOk(event)
    {
    }

    lemma HeadIsDue()
      requires Lists() && ClockOk() && HeadDue()
      ensures delayedList in {DelayedList1, DelayedList2}
      ensures delayedList in state.lists && state.lists[delayedList].items != []
      ensures var t := state.lists[delayedList].items[0];
              t in tcb && On(state, t, delayedList) && t in wakeAt && wakeAt[t] <= now
    {
      HeadWakesFirst(delayedList);
      assert TaskOk(View(), state.lists[delayedList].items[0]);
    }

    /** Body of the unblocking loop of xTaskIncrementTick: the head of the delayed list, whose time
        has come, is unblocked. */
    method UnblockHead() returns (t: TaskId)
      requires Lists() && ClockOk() && HeadDue()
      modifies this`state, this`event, this`topReady
      ensures Lists() && t in tcb && old(On(state, t, delayedList)) && delayedList in {DelayedList1, DelayedList2}
      ensures t in wakeAt && wakeAt[t] <= now
      ensures state.container == old(state.container)[t := ReadyList(tcb[t].priority)]
      ensures event.container == old(event.container) - {t}
      ensures StoreOk(state) && OrderKept(old(state), state, {t}) && BehindOthers(old(state), state, {t})
    {
      hide Lists, ClockOk, HeadDue, PutEnd, Detach, StoreOk, OrderKept, BehindOthers;
      HeadIsDue();
      t := state.lists[delayedList].items[0];
      Unblock(t);
    }

    /** At the last tick of an epoch every wait on the current list has been served. */
    lemma NobodyLeftAtWrap()
      requires Lists() && served + 1 == epoch + m
      ensures state.lists[delayedList].items == []
    {
      forall t ensures !On(state, t, delayedList) {
        assert t in tcb ==> TaskOk(View(), t);
      }
      assert HoldsItsTasks(state, delayedList);
      EmptyOrInhabited(state.lists[delayedList].items);
    }

    /** taskSWITCH_DELAYED_LISTS, at the wrap: the current list is empty, so the two delayed lists
        exchange roles and the next unblock time is recomputed. */
    method SwitchDelayedLists()
      requires Lists() && now == epoch + m == served + 1 && IsEpoch(m, epoch) && epoch == Cycles(m, overflows)
      modifies this`delayedList, this`overflowList, this`overflows, this`nextUnblock, this`epoch
      ensures Lists() && epoch == old(epoch) + m && IsEpoch(m, epoch) && epoch == Cycles(m, overflows)
      ensures delayedList == old(overflowList) && overflowList == old(delayedList)
      ensures old(state.lists[delayedList].items) == []
    {
      hide ListsOk, Structure;
      ListsThere();
      NobodyLeftAtWrap();
      EmptyMeansNobody(delayedList);
      SwitchOk(View());
      NextEpoch(m, epoch);
      delayedList, overflowList := overflowList, delayedList;
      overflows := overflows + 1;
      epoch := epoch + m;
      nextUnblock := 0;
      ResetNextUnblock();
    }

    /** No task is due: none on the current list before its head, none on the overflow list before
        the next epoch. */
    lemma NobodyDue()
      requires Lists() && ClockOk() && !HeadDue()
      ensures Due(state.container, wakeAt, now) == {}
    {
      forall t ensures t !in Due(state.container, wakeAt, now) {
        assert t in tcb ==> TaskOk(View(), t);
        if state.lists[delayedList].items == [] {
          EmptyMeansNobody(delayedList);
          assert !On(state, t, delayedList);
        } else {
          HeadWakesFirst(delayedList);
          assert On(state, t, delayedList) ==> tcb[state.lists[delayedList].items[0]].wake <= tcb[t].wake;
        }
      }
    }

    lemma NothingBeforeNextUnblock()
      requires Lists() && ClockOk() && tickCount < nextUnblock
      ensures Due(state.container, wakeAt, now) == {}
    {
      forall t ensures t !in Due(state.container, wakeAt, now) {
        assert t in tcb ==> TaskOk(View(), t);
      }
    }

    /** A due task that has not been woken is still due. */
    lemma AllWoken(before: Store<Place>, waitedFor: map<TaskId, EventPlace>, woken: set<TaskId>)
      requires Readied(before, state, waitedFor, event.container, tcb, woken)
      requires woken <= Due(before.container, wakeAt, now) && Due(state.container, wakeAt, now) == {}
      ensures woken == Due(before.container, wakeAt, now)
    {
      hide StoreOk, OrderKept, BehindOthers;
      forall t | t in Due(before.container, wakeAt, now) ensures t in woken {
        assert t !in Due(state.container, wakeAt, now);
      }
    }

    /** One iteration of the unblocking loop. */
    method WakeOne(ghost before: Store<Place>, ghost waitedFor: map<TaskId, EventPlace>,
        ghost woken: set<TaskId>, switchSoFar: bool) returns (t: TaskId, switchRequired: bool)
      requires Lists() && ClockOk() && HeadDue() && current in tcb
      requires Readied(before, state, waitedFor, event.container, tcb, woken)
      requires woken <= Due(before.container, wakeAt, now) && (switchSoFar <==> Preempted(woken, tcb, current))
      modifies this`state, this`event, this`topReady
      ensures Lists() && t in tcb && t !in woken
      ensures Readied(before, state, waitedFor, event.container, tcb, woken + {t})
      ensures woken + {t} <= Due(before.container, wakeAt, now)
      ensures switchRequired <==> Preempted(woken + {t}, tcb, current)
    {
      hide Lists, ClockOk, HeadDue, Due, Preempted, StoreOk, Readied, OrderKept, BehindOthers;
      ghost var c, e := state, event.container;
      t := UnblockHead();
      StillDue(before, c, waitedFor, e, tcb, woken, wakeAt, now, t);
      PreemptedWith(woken, tcb, current, t);
      ReadiedStep(before, c, state, waitedFor, e, tcb, woken, t);
      switchRequired := switchSoFar;
      if tcb[t].priority > tcb[current].priority {
        switchRequired := true;
      }
    }

    method WakeWhileDue() returns (switchRequired: bool, ghost woken: set<TaskId>)
      requires Lists() && ClockOk() && state.container.Keys == tcb.Keys && current in tcb
      modifies this`state, this`event, this`topReady
      ensures Lists() && !HeadDue()
      ensures Readied(old(state), state, old(event.container), event.container, tcb, woken)
      ensures woken <= Due(old(state.container), wakeAt, now)
      ensures switchRequired <==> Preempted(woken, tcb, current)
    {
      hide Lists, ClockOk, HeadDue, Due, Preempted, StoreOk, Readied;
      StoresOk();
      NothingReadied(state, event.container, tcb);
      NobodyPreempts(tcb, current);
      ReadiedDomain(state, state, event.container, event.container, tcb, {});
      switchRequired, woken := false, {};
      while HeadDue()
        invariant Lists()
        invariant Readied(old(state), state, old(event.container), event.container, tcb, woken)
        invariant woken <= Due(old(state.container), wakeAt, now)
        invariant switchRequired <==> Preempted(woken, tcb, current)
        decreases tcb.Keys - woken
      {
        var t: TaskId;
        t, switchRequired := WakeOne(old(state), old(event.container), woken, switchRequired);
        woken := woken + {t};
        ReadiedDomain(old(state), state, old(event.container), event.container, tcb, woken);
      }
    }

    /** The test and unblocking loop of xTaskIncrementTick: exactly the due tasks become ready. */
    method UnblockDue() returns (switchRequired: bool, ghost woken: set<TaskId>)
      requires Lists() && ClockOk() && state.container.Keys == tcb.Keys && current in tcb
      modifies this`state, this`event, this`topReady, this`nextUnblock
      ensures Lists() && woken == Due(old(state.container), wakeAt, now) && Due(state.container, wakeAt, now) == {}
      ensures Readied(old(state), state, old(event.container), event.container, tcb, woken)
      ensures switchRequired <==> Preempted(woken, tcb, current)
    {
      hide Lists, ClockOk, HeadDue, Due, Preempted, StoreOk, Readied;
      StoresOk();
      NothingReadied(state, event.container, tcb);
      NobodyPreempts(tcb, current);
      switchRequired, woken := false, {};
      if tickCount >= nextUnblock {
        switchRequired, woken := WakeWhileDue();
        NobodyDue();
        AllWoken(old(state), old(event.container), woken);
        ResetNextUnblock();
      } else {
        NothingBeforeNextUnblock();
      }
    }

    /** The tick count moves on by one, into the next epoch at the wrap. */
    method Advance()
      requires Ticking()
      modifies this`tickCount, this`now, this`delayedList, this`overflowList, this`overflows, this`nextUnblock,
               this`epoch
      ensures Lists() && ClockOk() && now == old(now) + 1
    {
      now := now + 1;
      if tickCount + 1 < m {
        tickCount := tickCount + 1;
      } else {
        tickCount := 0;
        SwitchDelayedLists();
      }
    }

    /** Nobody on the current list is due any more. */
    ghost method Serve()
      requires Lists() && ClockOk() && Due(state.container, wakeAt, now) == {}
      modifies this`served
      ensures Lists() && served == now
    {
      hide ListsOk;
      ServeOk(View(), now);
      served := now;
    }

    /** xTaskIncrementTick while the scheduler runs: exactly the tasks whose wait ends at the new
        tick become ready, whether or not the tick count wraps. */
    method CountTick() returns (switchRequired: bool)
      requires Ticking()
      modifies this`state, this`event, this`topReady, this`tickCount, this`now, this`delayedList, this`overflowList,
               this`overflows, this`nextUnblock, this`epoch, this`served
      ensures Ticking() && now == old(now) + 1
      ensures var woken := Due(old(state.container), wakeAt, now);
              && Readied(old(state), state, old(event.container), event.container, tcb, woken)
              && (switchRequired <==> yieldPending || Preempted(woken, tcb, current))
    {
      hide Lists, ClockOk, Preempted, Due, Readied;
      Advance();
      ghost var woken;
      switchRequired, woken := UnblockDue();
      ReadiedDomain(old(state), state, old(event.container), event.container, tcb, woken);
      Serve();
      switchRequired := switchRequired || yieldPending;
    }

    /** The two delayed lists split the tasks blocked with a timeout by epoch: the current list holds
        exactly those that wake before the wrap, the overflow list those that wake in the next epoch,
        each in wake order, and the next unblock time is not after any wake tick of this epoch. */
    lemma DelayedListsExact(t: TaskId)
      requires Inv() && t in state.container && state.container[t] in {DelayedList1, DelayedList2}
      ensures t in tcb && now <= wakeAt[t] < epoch + m + m
      ensures t in state.lists[delayedList].items <==> wakeAt[t] < epoch + m
      ensures t in state.lists[overflowList].items <==> epoch + m <= wakeAt[t]
      ensures wakeAt[t] < epoch + m ==> epoch + nextUnblock <= wakeAt[t] && tcb[t].wake == wakeAt[t] - epoch
      ensures epoch + m <= wakeAt[t] ==> tcb[t].wake == wakeAt[t] - (epoch + m)
      ensures Sorted(Wakes(state.lists[delayedList].items, tcb)) && Sorted(Wakes(state.lists[overflowList].items, tcb))
    {
      assert TaskOk(View(), t) && HoldsItsTasks(state, delayedList) && HoldsItsTasks(state, overflowList);
      assert On(state, t, delayedList) || On(state, t, overflowList);
    }

    /** The next tick ends the waits whose time it is, and those of 0 ticks. */
    lemma WokenOnTime(t: TaskId)
      requires Inv() && t in Due(state.container, wakeAt, now + 1)
      ensures wakeAt[t] == now + 1 || wakeAt[t] == now
    {
      assert TaskOk(View(), t);
    }

    /** A tick while the scheduler runs is counted. */
    method CountedTick() returns (switchRequired: bool)
      requires Inv() && suspended == 0
      modifies this`state, this`event, this`topReady, this`tickCount, this`now, this`delayedList, this`overflowList,
               this`overflows, this`nextUnblock, this`epoch, this`served, this`raised
      ensures Inv() && raised == old(raised) + 1 && now == old(now) + 1
      ensures var woken := Due(old(state.container), wakeAt, now);
              && Readied(old(state), state, old(event.container), event.container, tcb, woken)
              && (switchRequired <==> yieldPending || Preempted(woken, tcb, current))
    {
      hide Lists, Readied, Preempted, Due;
      switchRequired := CountTick();
      PendingAfterMove(old(state), state, old(event.container), event.container, tcb,
                       Due(old(state.container), wakeAt, now));
      raised := raised + 1;
    }

    /** xTaskIncrementTick, called by the tick interrupt. */
    method IncrementTick() returns (switchRequired: bool)
      requires Inv()
      modifies this`state, this`event, this`topReady, this`tickCount, this`now, this`delayedList, this`overflowList,
               this`overflows, this`nextUnblock, this`epoch, this`served, this`raised, this`pendedTicks
      ensures Inv() && raised == old(raised) + 1
      ensures suspended == 0 ==>
              var woken := Due(old(state.container), wakeAt, now);
              && now == old(now) + 1
              && Readied(old(state), state, old(event.container), event.container, tcb, woken)
              && (switchRequired <==> yieldPending || Preempted(woken, tcb, current))
      ensures suspended != 0 ==>
              && pendedTicks == old(pendedTicks) + 1 && now == old(now) && !switchRequired
              && state == old(state) && event == old(event)
    {
      hide Lists, Readied;
      if suspended == 0 {
        switchRequired := CountedTick();
      } else {
        pendedTicks := pendedTicks + 1;
        raised := raised + 1;
        switchRequired := false;
      }
    }

    // ---------- Suspending the scheduler ----------

    /** vTaskSuspendAll. */
    method SuspendAll()
      requires Inv()
      modifies this`suspended
      ensures Inv() && suspended == old(suspended) + 1
    {
      suspended := suspended + 1;
    }

    /** The head of the pending-ready list goes to the ready list of its priority. */
    method UnblockPending() returns (t: TaskId)
      requires Lists() && event.lists[PendingReady].items != [] && state.container.Keys == tcb.Keys
      modifies this`state, this`event, this`topReady
      ensures Lists() && t in tcb && t in Pending(old(event.container))
      ensures state.container == old(state.container)[t := ReadyList(tcb[t].priority)]
      ensures event.container == old(event.container) - {t}
      ensures StoreOk(state) && OrderKept(old(state), state, {t}) && BehindOthers(old(state), state, {t})
    {
      hide Lists, StoreOk, OrderKept, BehindOthers, Detach, PutEnd;
      ListsThere();
      t := event.lists[PendingReady].items[0];
      PendingIsBlocked();
      Unblock(t);
    }

    lemma PendingIsBlocked()
      requires Lists() && PendingReady in event.lists && event.lists[PendingReady].items != []
      requires state.container.Keys == tcb.Keys
      ensures var t := event.lists[PendingReady].items[0];
              t in tcb && t in Pending(event.container) && !IsReady(t)
    {
      var t := event.lists[PendingReady].items[0];
      assert HoldsItsTasks(event, PendingReady) && t in event.lists[PendingReady].items;
      assert On(event, t, PendingReady);
      assert TaskOk(View(), t);
    }

    /** The drain loop's step for one pending task. */
    method ReadyPending(ghost before: Store<Place>, ghost waitedFor: map<TaskId, EventPlace>,
        ghost woken: set<TaskId>, switchSoFar: bool) returns (ghost t: TaskId, switchRequired: bool)
      requires Lists() && event.lists[PendingReady].items != [] && current in tcb
      requires Readied(before, state, waitedFor, event.container, tcb, woken)
      requires woken <= Pending(waitedFor) && (switchSoFar <==> Preempted(woken, tcb, current))
      modifies this`state, this`event, this`topReady
      ensures Lists() && t in tcb && t !in woken && woken + {t} <= Pending(waitedFor)
      ensures Readied(before, state, waitedFor, event.container, tcb, woken + {t})
      ensures switchRequired <==> Preempted(woken + {t}, tcb, current)
    {
      hide ListsOk, Preempted, Pending, Readied, StoreOk, OrderKept, BehindOthers, Moved;
      ghost var c, e := state, event.container;
      ReadiedDomain(before, c, waitedFor, e, tcb, woken);
      var u := UnblockPending();
      t := u;
      StillPending(before, c, waitedFor, e, tcb, woken, t);
      ReadiedStep(before, c, state, waitedFor, e, tcb, woken, t);
      PreemptedWith(woken, tcb, current, t);
      switchRequired := switchSoFar || tcb[u].priority > tcb[current].priority;
    }

    lemma NobodyPending()
      requires Lists() && event.lists[PendingReady].items == []
      ensures Pending(event.container) == {}
    {
      assert HoldsItsTasks(event, PendingReady);
      forall t ensures t !in Pending(event.container) {
        assert t !in event.lists[PendingReady].items ==> !On(event, t, PendingReady);
      }
    }

    method ReadyAllPending() returns (ghost woken: set<TaskId>, switchRequired: bool)
      requires Lists() && current in tcb && state.container.Keys == tcb.Keys
      modifies this`state, this`event, this`topReady
      ensures Lists() && woken <= Pending(old(event.container))
      ensures PendingReady in event.lists && event.lists[PendingReady].items == []
      ensures Readied(old(state), state, old(event.container), event.container, tcb, woken)
      ensures switchRequired <==> Preempted(woken, tcb, current)
    {
      hide ListsOk, Preempted, Pending, Readied, StoreOk;
      StoresOk();
      ListsThere();
      NothingReadied(state, event.container, tcb);
      NobodyPreempts(tcb, current);
      ReadiedDomain(state, state, event.container, event.container, tcb, {});
      woken, switchRequired := {}, false;
      while event.lists[PendingReady].items != []
        invariant Lists() && PendingReady in event.lists && woken <= Pending(old(event.container))
        invariant Readied(old(state), state, old(event.container), event.container, tcb, woken)
        invariant switchRequired <==> Preempted(woken, tcb, current)
        decreases tcb.Keys - woken
      {
        ghost var t;
        t, switchRequired := ReadyPending(old(state), old(event.container), woken, switchRequired);
        woken := woken + {t};
        ReadiedDomain(old(state), state, old(event.container), event.container, tcb, woken);
        ListsThere();
      }
    }

    /** The drain loop of xTaskResumeAll: exactly the pending tasks become ready, and the next
        unblock time is recomputed. */
    method DrainPending() returns (ghost woken: set<TaskId>, switchRequired: bool)
      requires Lists() && current in tcb && state.container.Keys == tcb.Keys
      modifies this`state, this`event, this`topReady, this`nextUnblock
      ensures Lists() && woken == Pending(old(event.container)) && Pending(event.container) == {}
      ensures Readied(old(state), state, old(event.container), event.container, tcb, woken)
      ensures switchRequired <==> Preempted(woken, tcb, current)
    {
      hide Lists, Readied, Preempted, Pending;
      ListsThere();
      var any := event.lists[PendingReady].items != [];
      woken, switchRequired := ReadyAllPending();
      NobodyPending();
      PendingAfterMove(old(state), state, old(event.container), event.container, tcb, woken);
      if any {
        ResetNextUnblock();
      }
    }

    /** One replayed tick. */
    method ReplayTick(ghost before: Store<Place>, ghost waitedFor: map<TaskId, EventPlace>,
        ghost woken: set<TaskId>, switchSoFar: bool) returns (switchRequired: bool)
      requires Ticking() && Readied(before, state, waitedFor, event.container, tcb, woken)
      requires woken <= Due(before.container, wakeAt, now)
      requires switchSoFar || yieldPending <==> yieldPending || Preempted(woken, tcb, current)
      modifies this`state, this`event, this`topReady, this`tickCount, this`now, this`delayedList, this`overflowList,
               this`overflows, this`nextUnblock, this`epoch, this`served
      ensures Ticking() && now == old(now) + 1
      ensures Readied(before, state, waitedFor, event.container, tcb, Due(before.container, wakeAt, now))
      ensures switchRequired <==> yieldPending || Preempted(Due(before.container, wakeAt, now), tcb, current)
    {
      hide Lists, Readied, Preempted;
      ghost var c, e := state, event.container;
      switchRequired := CountTick();
      DueAfterMove(before, c, state, waitedFor, e, event.container, tcb, woken, wakeAt, now, current);
      switchRequired := switchRequired || switchSoFar;
    }

    /** The replay loop of xTaskResumeAll: every pended tick is counted and ends the waits it would
        have ended. */
    method ReplayTicks() returns (switchRequired: bool)
      requires Ticking() && pendedTicks > 0
      modifies this`state, this`event, this`topReady, this`tickCount, this`now, this`delayedList, this`overflowList,
               this`overflows, this`nextUnblock, this`epoch, this`served
      ensures Ticking() && now == old(now) + pendedTicks
      ensures var woken := Due(old(state.container), wakeAt, now);
              && Readied(old(state), state, old(event.container), event.container, tcb, woken)
              && (switchRequired <==> yieldPending || Preempted(woken, tcb, current))
    {
      hide Lists, Readied, Preempted, Due, StoreOk;
      var pendedCounts := pendedTicks;
      StoresOk();
      NothingReadied(state, event.container, tcb);
      NobodyPreempts(tcb, current);
      switchRequired := ReplayTick(old(state), old(event.container), {}, false);
      pendedCounts := pendedCounts - 1;
      while pendedCounts > 0
        invariant Ticking() && now + pendedCounts == old(now) + pendedTicks
        invariant Readied(old(state), state, old(event.container), event.container, tcb,
                        Due(old(state.container), wakeAt, now))
        invariant switchRequired <==> yieldPending || Preempted(Due(old(state.container), wakeAt, now), tcb, current)
      {
        switchRequired :=
          ReplayTick(old(state), old(event.container), Due(old(state.container), wakeAt, now),
                     switchRequired);
        pendedCounts := pendedCounts - 1;
      }
    }

    /** The outcome of xTaskResumeAll. */
    ghost predicate Resumed(placesBefore: Store<Place>, waitedFor: map<TaskId, EventPlace>, nowBefore: nat,
        woken: set<TaskId>)
      requires current in tcb
      reads this`state, this`event, this`tcb, this`current, this`wakeAt, this`now
    {
      && woken == Pending(waitedFor) + (if now == nowBefore then {} else Due(placesBefore.container, wakeAt, now))
      && Readied(placesBefore, state, waitedFor, event.container, tcb, woken)
    }

    /** The pended ticks are replayed, after the pending tasks, `readied`, have become ready. */
    method CatchUp(ghost before: Store<Place>, ghost waitedFor: map<TaskId, EventPlace>,
        ghost readied: set<TaskId>, switchSoFar: bool) returns (switchRequired: bool)
      requires Ticking() && pendedTicks > 0 && Pending(event.container) == {}
      requires Readied(before, state, waitedFor, event.container, tcb, readied)
      requires switchSoFar <==> Preempted(readied, tcb, current)
      modifies this`state, this`event, this`topReady, this`tickCount, this`now, this`delayedList, this`overflowList,
               this`overflows, this`nextUnblock, this`epoch, this`served, this`pendedTicks
      ensures Ticking() && now == old(now) + old(pendedTicks) && pendedTicks == 0 && Pending(event.container) == {}
      ensures var woken := readied + Due(before.container, wakeAt, now);
              && Readied(before, state, waitedFor, event.container, tcb, woken)
              && (switchRequired <==> yieldPending || Preempted(woken, tcb, current))
    {
      hide Lists, ClockOk, Readied, Preempted, Due, Pending;
      ghost var c, e := state, event.container;
      switchRequired := ReplayTicks();
      ReadiedThenDue(before, c, state, waitedFor, e, event.container, tcb, readied, wakeAt, now, current);
      switchRequired := switchSoFar || switchRequired;
      pendedTicks := 0;
    }

    /** What xTaskResumeAll does when it ends the suspension: the tasks readied meanwhile and those
        whose wait ended at a pended tick become ready, and no others. */
    method DrainAndReplay() returns (ghost woken: set<TaskId>, switchRequired: bool)
      requires Ticking()
      modifies this`state, this`event, this`topReady, this`tickCount, this`now, this`delayedList, this`overflowList,
               this`overflows, this`nextUnblock, this`epoch, this`served, this`pendedTicks
      ensures Ticking() && now == old(now) + old(pendedTicks) && pendedTicks == 0 && Pending(event.container) == {}
      ensures Resumed(old(state), old(event.container), old(now), woken)
      ensures yieldPending || switchRequired <==> yieldPending || Preempted(woken, tcb, current)
    {
      hide Lists, ClockOk, Readied, Preempted, Due, Pending;
      woken, switchRequired := DrainPending();
      ReadiedDomain(old(state), state, old(event.container), event.container, tcb, woken);
      if pendedTicks > 0 {
        switchRequired := CatchUp(old(state), old(event.container), woken, switchRequired);
        woken := woken + Due(old(state.container), wakeAt, now);
      }
    }

    /** The outermost xTaskResumeAll. */
    method EndSuspension() returns (ghost woken: set<TaskId>)
      requires Inv() && suspended == 1
      modifies this`state, this`event, this`topReady, this`tickCount, this`now, this`delayedList, this`overflowList,
               this`overflows, this`nextUnblock, this`epoch, this`served, this`suspended, this`pendedTicks,
               this`yieldPending
      ensures Inv() && suspended == 0 && pendedTicks == 0 && now == raised && current in tcb
      ensures Resumed(old(state), old(event.container), old(now), woken)
      ensures yieldPending <==> old(yieldPending) || Preempted(woken, tcb, current)
    {
      hide Lists, ClockOk, Resumed, Preempted, Pending;
      var switchRequired;
      woken, switchRequired := DrainAndReplay();
      suspended, yieldPending := 0, yieldPending || switchRequired;
    }

    /** xTaskResumeAll.  A nested call only counts; the outermost one readies the pending tasks and
        catches up with the ticks, and tells whether a more important task became ready. */
    method ResumeAll() returns (alreadyYielded: bool, ghost woken: set<TaskId>)
      requires Inv() && suspended > 0
      modifies this`state, this`event, this`topReady, this`tickCount, this`now, this`delayedList, this`overflowList,
               this`overflows, this`nextUnblock, this`epoch, this`served, this`suspended, this`pendedTicks,
               this`yieldPending
      ensures Inv() && suspended == old(suspended) - 1
      ensures suspended == 0 ==>
              && pendedTicks == 0 && now == raised && current in tcb
              && Resumed(old(state), old(event.container), old(now), woken)
              && (alreadyYielded <==> yieldPending)
              && (yieldPending <==> old(yieldPending) || Preempted(woken, tcb, current))
      ensures suspended != 0 ==>
              && !alreadyYielded && now == old(now) && pendedTicks == old(pendedTicks)
              && yieldPending == old(yieldPending) && state == old(state) && event == old(event)
    {
      hide Ticking, Readied, Preempted, Due, Pending, Resumed;
      alreadyYielded, woken := false, {};
      if suspended == 1 {
        woken := EndSuspension();
        alreadyYielded := yieldPending;
      } else {
        suspended := suspended - 1;
      }
    }

    // ---------- Selecting the next task ----------

    /** No ready task is above `p`. */
    ghost predicate NoneAbove(p: nat)
      reads this`state
    {
      forall t :: t in state.container && state.container[t].ReadyList? ==> state.container[t].priority <= p
    }

    /** An empty ready list can be skipped: a ready task is further down. */
    lemma SkipEmptyList(p: nat)
      requires Lists() && p < maxPriorities && NoneAbove(p) && state.lists[ReadyList(p)].items == []
      requires exists t :: IsReady(t)
      ensures 0 < p && NoneAbove(p - 1)
    {
      assert HoldsItsTasks(state, ReadyList(p));
      forall t | t in state.container && state.container[t].ReadyList? ensures state.container[t].priority < p {
        assert t !in state.lists[ReadyList(p)].items ==> !On(state, t, ReadyList(p));
      }
    }

    /** The loop of taskSELECT_HIGHEST_PRIORITY_TASK. */
    method HighestReady() returns (top: nat)
      requires Lists() && exists t :: IsReady(t)
      ensures top <= topReady < maxPriorities && NoneAbove(top)
      ensures ReadyList(top) in state.lists && state.lists[ReadyList(top)].items != []
    {
      hide StoreOk, HoldsItsTasks;
      top := topReady;
      forall t | t in state.container && state.container[t].ReadyList? ensures state.container[t].priority <= top {
        assert TaskOk(View(), t);
      }
      ghost var idle :| IsReady(idle);
      while state.lists[ReadyList(top)].items == []
        invariant top <= topReady && NoneAbove(top)
        decreases top
      {
        assert IsReady(idle);
        SkipEmptyList(top);
        top := top - 1;
      }
    }

    /** Moving the cursor of a ready list changes nobody's place. */
    method StepCursor(p: nat)
      requires Lists() && p < maxPriorities && state.lists[ReadyList(p)].items != []
      modifies this`state
      ensures Lists() && state.container == old(state.container)
      ensures state.lists.Keys == old(state.lists.Keys)
      ensures var l := old(state.lists[ReadyList(p)]);
              l.pos <= |l.items| && state.lists[ReadyList(p)] == l.(pos := NextPos(|l.items|, l.pos))
      ensures forall q :: q in state.lists && q != ReadyList(p) ==> state.lists[q] == old(state.lists[q])
    {
      var l := state.lists[ReadyList(p)];
      assert HoldsItsTasks(state, ReadyList(p));
      StepCursorOk(View(), p, NextPos(|l.items|, l.pos));
      hide ListsOk;
      state := state.(lists := state.lists[ReadyList(p) := l.(pos := NextPos(|l.items|, l.pos))]);
    }

    /** The task that the cursor of a ready list has reached is a task of that priority. */
    lemma CursorTask(p: nat)
      requires Lists() && p < maxPriorities && state.lists[ReadyList(p)].items != []
      requires 0 < state.lists[ReadyList(p)].pos
      ensures var l := state.lists[ReadyList(p)];
              l.pos <= |l.items| && var t := l.items[l.pos - 1]; t in tcb && IsReady(t) && tcb[t].priority == p
    {
      var l := state.lists[ReadyList(p)];
      assert HoldsItsTasks(state, ReadyList(p));
      var t := l.items[l.pos - 1];
      assert t in l.items && On(state, t, ReadyList(p));
      assert TaskOk(View(), t);
    }

    method LowerTopReady(p: nat)
      requires Lists() && p < maxPriorities && NoneAbove(p)
      modifies this`topReady
      ensures Lists() && topReady == p
    {
      hide ListsOk;
      LowerTopOk(View(), p);
      topReady := p;
    }

    /** taskSELECT_HIGHEST_PRIORITY_TASK. */
    method SelectHighest()
      requires Inv() && exists t :: IsReady(t)
      modifies this`state, this`topReady, this`current
      ensures Inv() && state.container == old(state.container)
      ensures IsReady(current) && topReady == tcb[current].priority && NoneAbove(topReady)
      ensures Selects(old(state), state, topReady, current)
    {
      hide Lists, Upcoming, Rotated;
      var top := HighestReady();
      ghost var l := state.lists[ReadyList(top)];
      StepCursor(top);
      NextSelectsFront(l.items, l.pos);
      CursorTask(top);
      current := state.lists[ReadyList(top)].items[state.lists[ReadyList(top)].pos - 1];
      LowerTopReady(top);
    }

    /** vTaskSwitchContext.  Whenever some task is ready (the idle task always is) the search ends
        with a ready task than which no ready task is more important, the first in the upcoming
        order of its list. */
    method SwitchContext()
      requires Inv() && exists t :: IsReady(t)
      modifies this`state, this`topReady, this`current, this`yieldPending
      ensures Inv() && state.container == old(state.container)
      ensures suspended != 0 ==>
              yieldPending && current == old(current) && state == old(state) && topReady == old(topReady)
      ensures suspended == 0 ==>
              && !yieldPending && IsReady(current) && topReady == tcb[current].priority
              && (forall t :: t in tcb && IsReady(t) ==> tcb[t].priority <= tcb[current].priority)
              && Selects(old(state), state, tcb[current].priority, current)
    {
      hide Lists, Selects;
      if suspended != 0 {
        yieldPending := true;
      } else {
        SelectHighest();
        yieldPending := false;
        ReadyByPriority();
      }
    }

    /** A ready task is on the list of its priority. */
    lemma ReadyByPriority()
      requires Lists()
      ensures forall t :: t in tcb && IsReady(t) ==> state.container[t].priority == tcb[t].priority
    {
      forall t | t in tcb && IsReady(t) ensures state.container[t].priority == tcb[t].priority {
        assert TaskOk(View(), t);
      }
    }

    // ---------- Event lists ----------

    lemma EventItemsKnown(e: EventPlace)
      requires Lists() && e in event.lists
      ensures Known(event.lists[e].items, tcb)
    {
      assert HoldsItsTasks(event, e);
      forall i | 0 <= i < |event.lists[e].items| ensures event.lists[e].items[i] in tcb {
        assert event.lists[e].items[i] in event.lists[e].items;
        assert On(event, event.lists[e].items[i], e);
      }
    }

    /** vListInsert into an event list, for a task that is already off the ready lists. */
    method InsertEvent(e: EventPlace, t: TaskId)
      requires Lists() && e in event.lists && t in tcb && t !in event.container && t in state.container && !IsReady(t)
      modifies this`event
      ensures Lists() && event.container == old(event.container)[t := e] && e in event.lists
      ensures Known(old(event.lists[e].items), tcb)
      ensures event.lists[e].items ==
              InsertAt(old(event.lists[e].items),
                       InsertPosition(EventValues(old(event.lists[e].items), tcb), tcb[t].eventValue), t)
    {
      hide ListsOk;
      EventItemsKnown(e);
      var i := InsertPosition(EventValues(event.lists[e].items, tcb), tcb[t].eventValue);
      InsertEventOk(View(), e, t, i);
      event := PutAt(event, e, t, i);
    }

    /** The running task leaves the ready list for the list of blocked tasks that its wait calls for. */
    method BlockCurrent(ticksToWait: nat, canBlockIndefinitely: bool)
      requires Inv() && IsReady(current)
      requires ticksToWait < m && (ticksToWait == 0 ==> tickCount + 1 < m)
      modifies this`state, this`tcb, this`wakeAt, this`nextUnblock
      ensures Inv() && OnlyWaitOf(current) && !IsReady(current) && OrderKept(old(state), state, {current})
      ensures state.container == old(state.container)[current := BlockedPlace(ticksToWait, canBlockIndefinitely)]
      ensures BlockedPlace(ticksToWait, canBlockIndefinitely) != SuspendedList ==>
                current in wakeAt && wakeAt[current] == now + ticksToWait
    {
      hide Lists;
      Relink(state.container, current, BlockedPlace(ticksToWait, canBlockIndefinitely));
      BlockedIsNotReady(ticksToWait, canBlockIndefinitely);
      AddCurrentToDelayed(ticksToWait, canBlockIndefinitely);
    }

    /** vTaskPlaceOnEventList, with the scheduler suspended.  (The source inserts the event item
        first; the two items go to different lists.) */
    method PlaceOnEventList(e: nat, ticksToWait: nat)
      requires Inv() && suspended > 0 && IsReady(current) && EventList(e) in event.lists
      requires ticksToWait < m && (ticksToWait == 0 ==> tickCount + 1 < m)
      modifies this`state, this`event, this`tcb, this`wakeAt, this`nextUnblock
      ensures Inv() && OnlyWaitOf(current) && OrderKept(old(state), state, {current})
      ensures state.container == old(state.container)[current := BlockedPlace(ticksToWait, true)]
      ensures event.container == old(event.container)[current := EventList(e)]
      ensures var waiters := old(event.lists[EventList(e)].items);
              && EventList(e) in event.lists && Known(waiters, tcb)
              && event.lists[EventList(e)].items ==
                 InsertAt(waiters, InsertPosition(EventValues(waiters, tcb), tcb[current].eventValue), current)
      ensures BlockedPlace(ticksToWait, true) != SuspendedList ==>
                current in wakeAt && wakeAt[current] == now + ticksToWait
    {
      hide Lists, ClockOk, OnlyWaits, InsertPosition;
      ReadyWaitsForNothing(current);
      BlockCurrent(ticksToWait, true);
      InsertEvent(EventList(e), current);
    }

    lemma ReadyWaitsForNothing(t: TaskId)
      requires Lists() && t in tcb && IsReady(t)
      ensures t !in event.container
    {
      assert TaskOk(View(), t);
    }

    /** The head of a non-empty event list is a blocked task. */
    lemma EventHeadIsBlocked(e: EventPlace)
      requires Ticking() && e in event.lists && event.lists[e].items != []
      ensures var t := event.lists[e].items[0]; t in tcb && t in state.container && On(event, t, e) && !IsReady(t)
    {
      var t := event.lists[e].items[0];
      assert HoldsItsTasks(event, e) && t in event.lists[e].items;
      assert On(event, t, e);
      assert TaskOk(View(), t);
    }

    /** listINSERT_END into the pending-ready list. */
    method InsertPending(t: TaskId)
      requires Lists() && t in tcb && t !in event.container && t in state.container && !IsReady(t)
      modifies this`event
      ensures Lists() && event.container == old(event.container)[t := PendingReady]
      ensures event == PutEnd(old(event), PendingReady, t)
    {
      hide ListsOk;
      InsertPendingOk(View(), t);
      event := PutEnd(event, PendingReady, t);
    }

    /** A waiter is held pending while the scheduler is suspended. */
    method HoldWaiter(t: TaskId)
      requires Lists() && t in tcb && t in event.container && t in state.container && !IsReady(t)
      modifies this`event
      ensures Lists() && event.container == old(event.container)[t := PendingReady]
    {
      hide Lists;
      Relink(event.container, t, PendingReady);
      UnlinkEvent(t);
      InsertPending(t);
    }

    /** The two branches of xTaskRemoveFromEventList. */
    method WakeWaiter(t: TaskId)
      requires Inv() && t in tcb && t in event.container && event.container[t].EventList? && !IsReady(t)
      modifies this`state, this`event, this`topReady
      ensures Inv()
      ensures OrderKept(old(state), state, {t}) && BehindOthers(old(state), state, {t})
      ensures suspended == 0 ==>
              && state.container == old(state.container)[t := ReadyList(tcb[t].priority)]
              && event.container == old(event.container) - {t}
      ensures suspended != 0 ==> state == old(state) && event.container == old(event.container)[t := PendingReady]
    {
      hide Lists, StoreOk, OrderKept, BehindOthers, Detach, PutEnd;
      if suspended == 0 {
        Relink(state.container, t, ReadyList(tcb[t].priority));
        Unblock(t);
      } else {
        StoresOk();
        NotReadyBehind(state, t);
        HoldWaiter(t);
      }
    }

    /** xTaskRemoveFromEventList.  The first waiter becomes ready at once, or is held pending while
        the scheduler is suspended; in both cases a yield is requested if it is more important than
        the running task. */
    method RemoveFromEventList(e: nat) returns (t: TaskId, switchRequired: bool)
      requires Inv() && EventList(e) in event.lists && event.lists[EventList(e)].items != []
      modifies this`state, this`event, this`topReady, this`yieldPending
      ensures Inv() && t == old(event.lists[EventList(e)].items[0]) && t in tcb
      ensures OrderKept(old(state), state, {t}) && BehindOthers(old(state), state, {t})
      ensures suspended == 0 ==>
              && state.container == old(state.container)[t := ReadyList(tcb[t].priority)]
              && event.container == old(event.container) - {t}
      ensures suspended != 0 ==> state == old(state) && event.container == old(event.container)[t := PendingReady]
      ensures switchRequired <==> tcb[t].priority > tcb[current].priority
      ensures yieldPending <==> old(yieldPending) || switchRequired
    {
      hide Lists, OrderKept, BehindOthers;
      EventHeadIsBlocked(EventList(e));
      t := event.lists[EventList(e)].items[0];
      WakeWaiter(t);
      switchRequired := tcb[t].priority > tcb[current].priority;
      yieldPending := yieldPending || switchRequired;
    }

    // ---------- Delays and timeouts ----------

    /** The running task blocks for a time: vTaskDelay and the blocking part of xTaskDelayUntil. */
    method Delay(ticksToWait: nat)
      requires Inv() && current in state.container && 0 < ticksToWait < m
      modifies this`state, this`tcb, this`wakeAt, this`nextUnblock
      ensures Inv() && OnlyWaitOf(current) && current in wakeAt && wakeAt[current] == now + ticksToWait
      ensures OrderKept(old(state), state, {current})
      ensures state.container == old(state.container)[current := BlockedPlace(ticksToWait, false)]
      ensures BlockedPlace(ticksToWait, false) in {DelayedList1, DelayedList2}
    {
      hide Lists;
      Relink(state.container, current, BlockedPlace(ticksToWait, false));
      BlockedIsNotReady(ticksToWait, false);
      NeverSuspended(ticksToWait);
      AddCurrentToDelayed(ticksToWait, false);
    }

    lemma NeverSuspended(ticksToWait: nat)
      requires Lists()
      ensures var p := BlockedPlace(ticksToWait, false);
              p in {delayedList, overflowList} && p in {DelayedList1, DelayedList2}
    {
    }

    /** xTaskDelayUntil, for a task whose last wake time `previous` is less than a full cycle ago: it
        blocks until exactly `previous + increment` if that is still to come, and the wake time it
        keeps moves on by exactly the increment in any case. */
    method DelayUntil(previousWake: nat, increment: nat, ghost previous: nat)
      returns (timeToWake: nat, shouldDelay: bool)
      requires Inv() && current in state.container && 0 < increment < m
      requires previous <= now < previous + m && previousWake == Tick(m, previous)
      modifies this`state, this`tcb, this`wakeAt, this`nextUnblock
      ensures Inv() && OnlyWaitOf(current) && OrderKept(old(state), state, {current})
      ensures timeToWake == Tick(m, previous + increment)
      ensures shouldDelay <==> previous + increment > now
      ensures shouldDelay ==>
              && current in wakeAt && wakeAt[current] == previous + increment
              && state.container == old(state.container)[current := BlockedPlace(previous + increment - now, false)]
              && BlockedPlace(previous + increment - now, false) in {delayedList, overflowList}
      ensures !shouldDelay ==> state == old(state) && tcb == old(tcb) && wakeAt == old(wakeAt)
    {
      hide Lists, DelayUntilPlan, OrderKept, StoreOk;
      StoresOk();
      OrderKeptAlready(state, {current});
      TickInEpoch(m, epoch, now);
      DelayUntilExact(m, now, previous, increment);
      var plan := DelayUntilPlan(m, tickCount, previousWake, increment);
      timeToWake, shouldDelay := plan.0, plan.1;
      NothingWaits(tcb, wakeAt, current);
      if shouldDelay {
        NeverSuspended(plan.2);
        Delay(plan.2);
      }
    }

    /** vTaskInternalSetTimeOutState. */
    method SetTimeOutState() returns (t: TimeOut)
      requires Inv()
      ensures t.timeOnEntering < m && Entered(m, t) == now
    {
      t := TimeOut(overflows, tickCount);
    }

    /** xTaskCheckForTimeOut against the true time: a finite wait that was set at most one wrap ago is
        over exactly when its ticks have passed; otherwise the deadline is kept. */
    method CheckForTimeOut(t: TimeOut, ticksToWait: nat) returns (r: Check)
      requires Inv() && t.timeOnEntering < m && ticksToWait < m - 1
      requires Entered(m, t) <= now && t.overflowCount <= overflows <= t.overflowCount + 1
      ensures r.expired <==> now >= Entered(m, t) + ticksToWait
      ensures !r.expired ==>
              Entered(m, r.timeOut) == now && now + r.ticksToWait == Entered(m, t) + ticksToWait && 0 < r.ticksToWait
    {
      hide Lists;
      CheckExact(m, overflows, tickCount, t, ticksToWait);
      r := TimeOuts.CheckForTimeOut(m, overflows, tickCount, t, ticksToWait);
    }

    // ---------- Priorities ----------

    /** A ready task moves to the ready list of its new priority. */
    method MoveReady(t: TaskId, v: Tcb)
      requires Lists() && t in tcb && IsReady(t) && v.priority < maxPriorities && v.wake == tcb[t].wake
      modifies this`state, this`tcb, this`wakeAt, this`topReady
      ensures Lists() && tcb == old(tcb)[t := v] && tcb.Keys == old(tcb.Keys) && wakeAt == old(wakeAt)
      ensures state.container == old(state.container)[t := ReadyList(v.priority)]
      ensures OrderKept(old(state), state, {t})
    {
      hide Lists, OrderKept, Turns, Off, AtEnd, Detach, PutEnd;
      PriorityInRange(t);
      Relink(state.container, t, ReadyList(v.priority));
      ReadyWaitsForNothing(t);
      UnlinkState(t);
      ghost var off := state;
      SameValue(wakeAt, t);
      SetTcb(t, v, wakeAt[t]);
      AddToReady(t);
      OrderKeptTwice(old(state), off, state, {t}, {t});
      assert {t} + {t} == {t};
    }

    /** A task's priority fields change; if it is ready it moves to the list of its new priority. */
    method ChangePriority(t: TaskId, v: Tcb)
      requires Inv() && t in tcb && v.priority < maxPriorities && v.wake == tcb[t].wake
      modifies this`state, this`tcb, this`wakeAt, this`topReady
      ensures Inv() && tcb == old(tcb)[t := v] && tcb.Keys == old(tcb.Keys) && wakeAt == old(wakeAt)
      ensures state.container ==
              if old(IsReady(t)) then old(state.container)[t := ReadyList(v.priority)] else old(state.container)
      ensures OrderKept(old(state), state, {t})
    {
      hide Lists, OrderKept, StoreOk;
      StoresOk();
      OrderKeptAlready(state, {t});
      PriorityInRange(t);
      if IsReady(t) {
        Relink(state.container, t, ReadyList(v.priority));
        MoveReady(t, v);
      } else {
        SameValue(wakeAt, t);
        SetTcb(t, v, wakeAt[t]);
      }
    }

    /** Only task `t` changed, it kept its base priority, and it is where its new priority wants it. */
    twostate predicate OnlyPriorityOf(t: TaskId)
      requires t in tcb && t in old(tcb)
      reads this`tcb, this`state
    {
      && tcb == old(tcb)[t := tcb[t]]
      && state.container ==
         (if old(IsReady(t)) then old(state.container)[t := ReadyList(tcb[t].priority)] else old(state.container))
      && OrderKept(old(state), state, {t})
    }

    /** xTaskPriorityInherit: the holder of a mutex that the running task waits for becomes at least
        as important, on the right ready list if it is ready. */
    method PriorityInherit(holder: TaskId) returns (inherited: bool)
      requires Inv() && holder in tcb && Accounted(tcb[holder]) && 0 < tcb[holder].mutexesHeld
      modifies this`state, this`tcb, this`wakeAt, this`topReady
      ensures Inv() && holder in tcb
      ensures tcb[holder].priority == Max(old(tcb[holder].priority), old(tcb[current].priority))
      ensures Accounted(tcb[holder]) && tcb[holder] == old(Inherit(maxPriorities, tcb[holder], tcb[current].priority).0)
      ensures inherited <==> tcb[holder].basePriority < old(tcb[current].priority)
      ensures tcb[holder].priority != old(tcb[holder].priority) ==> OnlyPriorityOf(holder)
      ensures tcb[holder].priority == old(tcb[holder].priority) ==> tcb == old(tcb) && state == old(state)
      ensures wakeAt == old(wakeAt)
    {
      hide Lists;
      PriorityInRange(current);
      InheritExact(maxPriorities, tcb[holder], tcb[current].priority);
      var r := Inherit(maxPriorities, tcb[holder], tcb[current].priority);
      inherited := r.1;
      if tcb[holder].priority < tcb[current].priority {
        ChangePriority(holder, r.0);
      }
    }

    /** xTaskPriorityDisinherit, by the running task. */
    method PriorityDisinherit() returns (switchRequired: bool)
      requires Inv() && Accounted(tcb[current]) && 0 < tcb[current].mutexesHeld
      requires tcb[current].basePriority < maxPriorities
      modifies this`state, this`tcb, this`wakeAt, this`topReady
      ensures Inv() && Accounted(tcb[current]) && tcb[current] == old(Disinherit(maxPriorities, tcb[current]).0)
      ensures tcb[current].mutexesHeld == old(tcb[current].mutexesHeld) - 1
      ensures tcb[current].priority ==
              if tcb[current].mutexesHeld == 0 then old(tcb[current].basePriority) else old(tcb[current].priority)
      ensures switchRequired <==> tcb[current].priority < old(tcb[current].priority)
      ensures switchRequired ==> OnlyPriorityOf(current)
      ensures !switchRequired ==> state == old(state) && tcb == old(tcb)[current := tcb[current]]
      ensures wakeAt == old(wakeAt)
    {
      hide Lists;
      PriorityInRange(current);
      DisinheritExact(maxPriorities, tcb[current]);
      var r := Disinherit(maxPriorities, tcb[current]);
      switchRequired := r.1;
      if switchRequired {
        ChangePriority(current, r.0);
      } else {
        SameValue(wakeAt, current);
        SetTcb(current, r.0, wakeAt[current]);
      }
    }

    /** vTaskPriorityDisinheritAfterTimeout: with a single mutex held, the holder drops to what its
        base priority and the remaining waiters justify.  `asserted` tells whether the assertion that
        a priority to be lowered is not the running task's own holds. */
    method PriorityDisinheritAfterTimeout(holder: TaskId, highest: nat) returns (asserted: bool)
      requires Inv() && holder in tcb && Accounted(tcb[holder]) && 0 < tcb[holder].mutexesHeld
      requires tcb[holder].basePriority < maxPriorities && highest < maxPriorities
      modifies this`state, this`tcb, this`wakeAt, this`topReady
      ensures Inv() && holder in tcb && Accounted(tcb[holder])
      ensures tcb[holder] == old(DisinheritAfterTimeout(maxPriorities, tcb[holder], highest))
      ensures tcb[holder].priority ==
              if tcb[holder].mutexesHeld == 1 then Max(old(tcb[holder].basePriority), highest)
              else old(tcb[holder].priority)
      ensures tcb[holder].priority != old(tcb[holder].priority) ==> OnlyPriorityOf(holder)
      ensures tcb[holder].priority == old(tcb[holder].priority) ==> tcb == old(tcb) && state == old(state)
      ensures wakeAt == old(wakeAt)
      ensures asserted <==> holder != current || tcb[holder].priority == old(tcb[holder].priority)
    {
      hide Lists;
      PriorityInRange(holder);
      DisinheritAfterTimeoutExact(maxPriorities, tcb[holder], highest);
      var v := DisinheritAfterTimeout(maxPriorities, tcb[holder], highest);
      asserted := true;
      if v.priority != tcb[holder].priority {
        asserted := holder != current;
        ChangePriority(holder, v);
      }
    }

    /** vTaskPrioritySet. */
    method PrioritySet(t: TaskId, priority: nat) returns (yieldRequired: bool)
      requires Inv() && t in tcb && Accounted(tcb[t]) && priority < maxPriorities
      modifies this`state, this`tcb, this`wakeAt, this`topReady
      ensures Inv() && t in tcb && Accounted(tcb[t]) && tcb[t].basePriority == priority
      ensures tcb[t] == old(SetBase(maxPriorities, tcb[t], priority))
      ensures tcb[t].priority ==
              if old(tcb[t].priority == tcb[t].basePriority) then priority else Max(old(tcb[t].priority), priority)
      ensures old(tcb[t].basePriority) != priority ==> OnlyPriorityOf(t)
      ensures old(tcb[t].basePriority) == priority ==> tcb == old(tcb) && state == old(state) && !yieldRequired
      ensures wakeAt == old(wakeAt)
      ensures yieldRequired <==>
              || (priority > old(tcb[t].basePriority) && t != current && priority > old(tcb[current].priority))
              || (priority < old(tcb[t].basePriority) && t == current)
    {
      hide Lists;
      PriorityInRange(t);
      SetBaseExact(maxPriorities, tcb[t], priority);
      yieldRequired := false;
      if tcb[t].basePriority != priority {
        yieldRequired :=
          if priority > tcb[t].basePriority then t != current && priority > tcb[current].priority else t == current;
        ChangePriority(t, SetBase(maxPriorities, tcb[t], priority));
      }
    }
  }
}
