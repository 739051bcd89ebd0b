/**
 Event groups (event_groups.c): flag words, the list of tasks waiting on them, and the single
 traversal of `xEventGroupSetBits` that releases every satisfied waiter before any flag is cleared.
 */
module EventGroups {
  import opened ListSpec
  import opened TaskLists

  /** A 64-bit event word, as the set of the numbers of its one bits: `|` is union, `&` is
      intersection, `& ~` is difference. */
  type Bits = set<nat>

  // Control bits of an event list item value, for 64-bit ticks.
  const CLEAR_ON_EXIT: Bits := {56}
  const UNBLOCKED: Bits := {57}
  const WAIT_FOR_ALL: Bits := {58}
  const IN_USE: Bits := {63}
  const CONTROL: Bits := {56, 57, 58, 59, 60, 61, 62, 63}

  /** prvTestWaitCondition. */
  predicate TestWaitCondition(current: Bits, waitFor: Bits, waitForAll: bool) {
    if waitForAll then current * waitFor == waitFor else current * waitFor != {}
  }

  /** The event list item value of a blocked task: what it waits for, and how. */
  function Request(waitFor: Bits, clearOnExit: bool, waitForAll: bool): Bits {
    waitFor + (if clearOnExit then CLEAR_ON_EXIT else {}) + (if waitForAll then WAIT_FOR_ALL else {}) + IN_USE
  }

  function WaitedFor(value: Bits): Bits { value - CONTROL }

  predicate ClearsOnExit(value: Bits) { value * CLEAR_ON_EXIT != {} }

  /** The match test of the traversal, on the packed item value. */
  predicate Satisfied(bits: Bits, value: Bits) {
    if value * WAIT_FOR_ALL == {}
    then WaitedFor(value) * bits != {}
    else WaitedFor(value) * bits == WaitedFor(value)
  }

  /** Packing a request and unpacking it again loses nothing: the traversal tests exactly the
      condition that the caller asked for. */
  lemma RequestRoundTrip(bits: Bits, waitFor: Bits, clearOnExit: bool, waitForAll: bool)
    requires waitFor !! CONTROL
    ensures var v := Request(waitFor, clearOnExit, waitForAll);
            && WaitedFor(v) == waitFor && ClearsOnExit(v) == clearOnExit
            && Satisfied(bits, v) == TestWaitCondition(bits, waitFor, waitForAll)
            && v !! UNBLOCKED
  {
    var v := Request(waitFor, clearOnExit, waitForAll);
    assert forall b :: b in CONTROL ==> b !in waitFor;
    assert (58 in v) == waitForAll && (56 in v) == clearOnExit;
    assert v * WAIT_FOR_ALL == if waitForAll then WAIT_FOR_ALL else {};
    assert v * CLEAR_ON_EXIT == if clearOnExit then CLEAR_ON_EXIT else {};
    assert WaitedFor(v) == waitFor;
    assert waitFor * bits == bits * waitFor;
  }

  /** Clearing flags never satisfies a condition that did not hold. */
  lemma ClearingNeverSatisfies(bits: Bits, mask: Bits, value: Bits)
    requires !Satisfied(bits, value)
    ensures !Satisfied(bits - mask, value)
  {
    var w := WaitedFor(value);
    assert w * (bits - mask) <= w * bits;
  }

  /** What the calling task reads back after being released. */
  lemma ReleasedValue(bits: Bits)
    requires bits !! CONTROL
    ensures (bits + UNBLOCKED + IN_USE) * UNBLOCKED != {}
    ensures bits + UNBLOCKED + IN_USE - CONTROL == bits
  {
    assert 57 in (bits + UNBLOCKED + IN_USE) * UNBLOCKED;
    assert UNBLOCKED <= CONTROL && IN_USE <= CONTROL;
  }

  // ---------- The traversal, as functions of the waiting list ----------

  type Items = map<TaskId, Bits>

  ghost predicate Covers(item: Items, ws: seq<TaskId>) {
    forall w :: w in ws ==> w in item
  }

  function Waiting(bits: Bits, ws: seq<TaskId>, item: Items): seq<TaskId>
    requires Covers(item, ws)
  {
    if ws == []  then [] else
      var n := |ws| - 1;
      var before := Waiting(bits, ws[..n], item);
      if Satisfied(bits, item[ws[n]]) then before else before + [ws[n]]
  }

  function Released(bits: Bits, ws: seq<TaskId>, item: Items): seq<TaskId>
    requires Covers(item, ws)
  {
    if ws == []  then [] else
      var n := |ws| - 1;
      var before := Released(bits, ws[..n], item);
      if Satisfied(bits, item[ws[n]]) then before + [ws[n]] else before
  }

  function ClearMask(bits: Bits, ws: seq<TaskId>, item: Items): Bits
    requires Covers(item, ws)
  {
    if ws == [] then {} else
      var n := |ws| - 1;
      ClearMask(bits, ws[..n], item) +
      if Satisfied(bits, item[ws[n]]) && ClearsOnExit(item[ws[n]]) then WaitedFor(item[ws[n]]) else {}
  }

  /** Item values after the traversal: every released task finds the flags that released it. */
  function Stamped(bits: Bits, ws: seq<TaskId>, item: Items): Items
    requires Covers(item, ws)
  {
    map t | t in item :: if t in ws && Satisfied(bits, item[t]) then bits + UNBLOCKED + IN_USE else item[t]
  }

  /** The traversal splits the waiters into the satisfied and the others, losing nobody. */
  lemma {:induction false} TraversalPartition(bits: Bits, ws: seq<TaskId>, item: Items)
    requires Covers(item, ws)
    ensures multiset(Waiting(bits, ws, item)) + multiset(Released(bits, ws, item)) == multiset(ws)
  {
    hide Satisfied;
    if ws != [] {
      var n := |ws| - 1;
      var w, r, x := Waiting(bits, ws[..n], item), Released(bits, ws[..n], item), ws[n];
      TraversalPartition(bits, ws[..n], item);
      assert ws == ws[..n] + [x];
      OneMore(w, r, ws[..n], x);
    }
  }

  lemma OneMore(w: seq<TaskId>, r: seq<TaskId>, ws: seq<TaskId>, x: TaskId)
    requires multiset(w) + multiset(r) == multiset(ws)
    ensures multiset(w + [x]) + multiset(r) == multiset(ws + [x]) == multiset(w) + multiset(r + [x])
  {
    assert multiset(w + [x]) == multiset(w) + multiset{x};
    assert multiset(r + [x]) == multiset(r) + multiset{x};
    assert multiset(ws + [x]) == multiset(ws) + multiset{x};
  }

  lemma {:induction false} TraversalMembers(bits: Bits, ws: seq<TaskId>, item: Items)
    requires Covers(item, ws)
    ensures forall w :: w in Released(bits, ws, item) <==> w in ws && Satisfied(bits, item[w])
    ensures forall w :: w in Waiting(bits, ws, item) <==> w in ws && !Satisfied(bits, item[w])
  {
    hide Satisfied;
    if ws != [] {
      var n := |ws| - 1;
      TraversalMembers(bits, ws[..n], item);
      assert ws == ws[..n] + [ws[n]];
      assert forall w :: w in ws <==> w in ws[..n] || w == ws[n];
    }
  }

  lemma {:induction false} WaitingNoDup(bits: Bits, ws: seq<TaskId>, item: Items)
    requires Covers(item, ws) && NoDup(ws)
    ensures NoDup(Waiting(bits, ws, item))
  {
    hide Satisfied;
    if ws != [] {
      var n := |ws| - 1;
      WaitingNoDup(bits, ws[..n], item);
      TraversalMembers(bits, ws[..n], item);
      assert ws[n] !in ws[..n];
    }
  }

  /** Those left waiting keep their order. */
  lemma {:induction false} WaitingInOrder(bits: Bits, ws: seq<TaskId>, item: Items, x: TaskId, y: TaskId)
    requires Covers(item, ws) && Before(Waiting(bits, ws, item), x, y)
    ensures Before(ws, x, y)
  {
    hide Satisfied;
    if ws != [] {
      var n := |ws| - 1;
      var left, now := Waiting(bits, ws[..n], item), Waiting(bits, ws, item);
      var i, j :| 0 <= i < j < |now| && now[i] == x && now[j] == y;
      if j < |left| {
        assert left[i] == x && left[j] == y;
        WaitingInOrder(bits, ws[..n], item, x, y);
        var p, q :| 0 <= p < q < n && ws[..n][p] == x && ws[..n][q] == y;
        assert ws[p] == x && ws[q] == y;
      } else {
        TraversalMembers(bits, ws[..n], item);
        assert left[i] in left;
        var p :| 0 <= p < n && ws[..n][p] == x;
        assert ws[p] == x && ws[n] == y;
      }
    }
  }

  /** The cleared flags are exactly the union of the requests of the satisfied clear-on-exit
      waiters. */
  lemma {:induction false} ClearMaskIsUnion(bits: Bits, ws: seq<TaskId>, item: Items, b: nat)
    requires Covers(item, ws)
    ensures b in ClearMask(bits, ws, item) <==>
            exists w :: w in ws && Satisfied(bits, item[w]) && ClearsOnExit(item[w]) && b in WaitedFor(item[w])
  {
    hide Satisfied;
    if ws != [] {
      var n := |ws| - 1;
      ClearMaskIsUnion(bits, ws[..n], item, b);
      assert ws == ws[..n] + [ws[n]];
    }
  }

  // ---------- Operations, on the value of an event group ----------

  datatype Group = Group(bits: Bits, waiting: seq<TaskId>, item: Items)

  /** What the first half of a waiting call does: return at once, or block. */
  datatype Outcome = Returns(value: Bits) | Blocks

  /** No waiter is left asleep on a condition that the current flags satisfy. */
  ghost predicate NoneSatisfied(g: Group)
    requires Covers(g.item, g.waiting)
  {
    forall w :: w in g.waiting ==> !Satisfied(g.bits, g.item[w])
  }

  ghost predicate Inv(g: Group) {
    && NoDup(g.waiting) && Covers(g.item, g.waiting) && g.bits !! CONTROL
    && (forall w :: w in g.waiting ==> g.item[w] !! UNBLOCKED)
    && NoneSatisfied(g)
  }

  function AfterSetBits(g: Group, toSet: Bits): (r: Group)
    requires Covers(g.item, g.waiting)
  {
    var b := g.bits + toSet;
    Group(b - ClearMask(b, g.waiting, g.item), Waiting(b, g.waiting, g.item), Stamped(b, g.waiting, g.item))
  }

  function AfterClear(g: Group, toClear: Bits): Group { g.(bits := g.bits - toClear) }

  /** vTaskPlaceOnUnorderedEventList: nobody ever moves the index of this list. */
  function Block(g: Group, t: TaskId, value: Bits): Group {
    g.(waiting := g.waiting + [t], item := g.item[t := value])
  }

  function AfterWait(g: Group, t: TaskId, waitFor: Bits, clearOnExit: bool, waitForAll: bool, mayBlock: bool)
    : (Group, Outcome)
  {
    if TestWaitCondition(g.bits, waitFor, waitForAll) then
      (if clearOnExit then AfterClear(g, waitFor) else g, Returns(g.bits))
    else if !mayBlock then (g, Returns(g.bits))
    else (Block(g, t, Request(waitFor, clearOnExit, waitForAll)), Blocks)
  }

  function AfterSync(g: Group, t: TaskId, toSet: Bits, waitFor: Bits, mayBlock: bool): (Group, Outcome)
    requires Covers(g.item, g.waiting)
  {
    var g' := AfterSetBits(g, toSet);
    if (g.bits + toSet) * waitFor == waitFor then (AfterClear(g', waitFor), Returns(g.bits + toSet))
    else if !mayBlock then (g', Returns(g'.bits))
    else (Block(g', t, Request(waitFor, true, true)), Blocks)
  }

  /** The block time of `t` runs out: the tick takes it off the event list. */
  function AfterTimeout(g: Group, t: TaskId): Group { g.(waiting := Without(g.waiting, t)) }

  /** Second half of a waiting call, once the task runs again: released tasks return the flags
      stored for them, timed-out tasks look at the flags a last time.  `normal` is the value the
      event list item is reset to. */
  function AfterFinish(g: Group, t: TaskId, waitFor: Bits, clearOnExit: bool, waitForAll: bool,
      normal: Bits): (Group, Bits)
    requires t in g.item
  {
    var value := g.item[t];
    var g' := g.(item := g.item[t := normal]);
    if value * UNBLOCKED != {} then (g', value - CONTROL)
    else (if clearOnExit && TestWaitCondition(g.bits, waitFor, waitForAll) then AfterClear(g', waitFor) else g',
          g.bits - CONTROL)
  }

  // ---------- What the operations do, flag by flag and task by task ----------

  /** The condition that a caller asks for, in terms of single flags. */
  lemma ConditionMeans(current: Bits, waitFor: Bits)
    ensures TestWaitCondition(current, waitFor, true) <==> forall b :: b in waitFor ==> b in current
    ensures TestWaitCondition(current, waitFor, false) <==> exists b :: b in waitFor && b in current
  {
    assert current * waitFor == waitFor <==> waitFor <= current;
    if b :| b in waitFor && b in current {
      assert b in current * waitFor;
    }
    if current * waitFor != {} {
      var b :| b in current * waitFor;
      assert b in waitFor && b in current;
    }
  }

  /** After xEventGroupSetBits a flag is set iff it was set before or by the call, and is not one that a
      waiter released by the call wanted cleared. */
  lemma SetBitsFlags(g: Group, toSet: Bits, b: nat)
    requires Covers(g.item, g.waiting)
    ensures b in AfterSetBits(g, toSet).bits <==>
            && (b in g.bits || b in toSet)
            && !exists w :: w in g.waiting && Satisfied(g.bits + toSet, g.item[w]) && ClearsOnExit(g.item[w])
                            && b in WaitedFor(g.item[w])
  {
    ClearMaskIsUnion(g.bits + toSet, g.waiting, g.item, b);
  }

  /** It releases exactly the waiters whose condition the flags meet before any is cleared, keeps the others
      in order, and gives each released task these flags. */
  lemma SetBitsWaiters(g: Group, toSet: Bits)
    requires Covers(g.item, g.waiting)
    ensures var r := AfterSetBits(g, toSet);
            && r.item.Keys == g.item.Keys
            && (forall w :: w in r.waiting <==> w in g.waiting && !Satisfied(g.bits + toSet, g.item[w]))
            && (forall x, y :: Before(r.waiting, x, y) ==> Before(g.waiting, x, y))
            && (NoDup(g.waiting) ==> NoDup(r.waiting))
            && forall w :: w in g.item ==>
                 r.item[w] == if w in g.waiting && w !in r.waiting then g.bits + toSet + UNBLOCKED + IN_USE
                              else g.item[w]
  {
    hide Satisfied;
    var b := g.bits + toSet;
    TraversalMembers(b, g.waiting, g.item);
    forall x, y | Before(AfterSetBits(g, toSet).waiting, x, y) ensures Before(g.waiting, x, y) {
      WaitingInOrder(b, g.waiting, g.item, x, y);
    }
    if NoDup(g.waiting) {
      WaitingNoDup(b, g.waiting, g.item);
    }
  }

  /** xEventGroupWaitBits.  A call whose condition is met returns the flags that met it and takes the flags
      it waited for away iff it was asked to; an impatient call changes nothing; any other one joins the
      waiters, and will be released exactly by flags that meet its condition. */
  lemma WaitBitsExact(g: Group, t: TaskId, waitFor: Bits, clearOnExit: bool, waitForAll: bool, mayBlock: bool)
    requires waitFor !! CONTROL
    ensures var (r, outcome) := AfterWait(g, t, waitFor, clearOnExit, waitForAll, mayBlock);
            var met := if waitForAll then waitFor <= g.bits else exists b :: b in waitFor && b in g.bits;
            && (met || !mayBlock ==> outcome == Returns(g.bits) && r.waiting == g.waiting && r.item == g.item)
            && (forall b :: b in r.bits <==> b in g.bits && !(met && clearOnExit && b in waitFor))
            && (!met && mayBlock ==>
                  && outcome == Blocks && r.waiting == g.waiting + [t]
                  && t in r.item && (forall u :: u in g.item && u != t ==> u in r.item && r.item[u] == g.item[u])
                  && WaitedFor(r.item[t]) == waitFor && (ClearsOnExit(r.item[t]) <==> clearOnExit)
                  && forall bits: Bits {:trigger Satisfied(bits, r.item[t])} ::
                       Satisfied(bits, r.item[t]) <==> TestWaitCondition(bits, waitFor, waitForAll))
  {
    ConditionMeans(g.bits, waitFor);
    RequestRoundTrip(g.bits, waitFor, clearOnExit, waitForAll);
    forall bits: Bits
      ensures Satisfied(bits, Request(waitFor, clearOnExit, waitForAll)) ==
              TestWaitCondition(bits, waitFor, waitForAll)
    {
      RequestRoundTrip(bits, waitFor, clearOnExit, waitForAll);
    }
  }

  /** xEventGroupSync first sets the caller's flags.  A complete rendezvous returns all the flags and takes
      those of the rendezvous away; otherwise an impatient call returns the flags that are left, and any
      other one joins the waiters for all of them, to be cleared on exit. */
  lemma SyncExact(g: Group, t: TaskId, toSet: Bits, waitFor: Bits, mayBlock: bool)
    requires Covers(g.item, g.waiting) && waitFor !! CONTROL
    ensures var (r, outcome) := AfterSync(g, t, toSet, waitFor, mayBlock);
            var base := AfterSetBits(g, toSet);
            var met := waitFor <= g.bits + toSet;
            && (forall b :: b in r.bits <==> b in base.bits && !(met && b in waitFor))
            && (met || !mayBlock ==>
                  && outcome == Returns(if met then g.bits + toSet else base.bits)
                  && r.waiting == base.waiting && r.item == base.item)
            && (!met && mayBlock ==>
                  && outcome == Blocks && r.waiting == base.waiting + [t]
                  && t in r.item && (forall u :: u in base.item && u != t ==> u in r.item && r.item[u] == base.item[u])
                  && WaitedFor(r.item[t]) == waitFor && ClearsOnExit(r.item[t])
                  && forall bits: Bits {:trigger Satisfied(bits, r.item[t])} ::
                       Satisfied(bits, r.item[t]) <==> waitFor <= bits)
  {
    hide AfterSetBits;
    assert (g.bits + toSet) * waitFor == waitFor <==> waitFor <= g.bits + toSet;
    RequestRoundTrip(g.bits, waitFor, true, true);
    forall bits: Bits ensures Satisfied(bits, Request(waitFor, true, true)) <==> waitFor <= bits {
      RequestRoundTrip(bits, waitFor, true, true);
      ConditionMeans(bits, waitFor);
    }
  }

  /** The second half of a waiting call.  A released task returns the flags stored for it and leaves the
      group alone; one that timed out returns the flags as they are now, and takes those it waited for away
      iff it was asked to and they meet its condition after all. */
  lemma FinishExact(g: Group, t: TaskId, waitFor: Bits, clearOnExit: bool, waitForAll: bool, normal: Bits)
    requires t in g.item
    ensures var (r, value) := AfterFinish(g, t, waitFor, clearOnExit, waitForAll, normal);
            var released := 57 in g.item[t];
            var late := !released && TestWaitCondition(g.bits, waitFor, waitForAll);
            && r.waiting == g.waiting && r.item == g.item[t := normal]
            && (forall b :: b in value <==> b !in CONTROL && (if released then b in g.item[t] else b in g.bits))
            && (forall b :: b in r.bits <==> b in g.bits && !(late && clearOnExit && b in waitFor))
  {
    assert 57 in g.item[t] <==> 57 in g.item[t] * UNBLOCKED;
  }

  lemma ClearAndTimeoutExact(g: Group, toClear: Bits, t: TaskId)
    ensures var r := AfterClear(g, toClear);
            && (forall b :: b in r.bits <==> b in g.bits && b !in toClear)
            && r.waiting == g.waiting && r.item == g.item
    ensures var r := AfterTimeout(g, t);
            && r.bits == g.bits && r.item == g.item
            && forall w :: w in r.waiting <==> w in g.waiting && w != t
  {
    WithoutMembers(g.waiting, t);
  }

  // ---------- The invariant, over every operation ----------

  lemma SetBitsKeepsInv(g: Group, toSet: Bits)
    requires Inv(g) && toSet !! CONTROL
    ensures Inv(AfterSetBits(g, toSet))
  {
    var b := g.bits + toSet;
    WaitingNoDup(b, g.waiting, g.item);
    TraversalMembers(b, g.waiting, g.item);
    var g' := AfterSetBits(g, toSet);
    forall w | w in g'.waiting ensures w in g'.item && !Satisfied(g'.bits, g'.item[w]) && g'.item[w] !! UNBLOCKED {
      ClearingNeverSatisfies(b, ClearMask(b, g.waiting, g.item), g.item[w]);
    }
  }

  lemma ClearBitsKeepsInv(g: Group, toClear: Bits)
    requires Inv(g)
    ensures Inv(AfterClear(g, toClear))
  {
    forall w | w in g.waiting ensures !Satisfied(g.bits - toClear, g.item[w]) {
      ClearingNeverSatisfies(g.bits, toClear, g.item[w]);
    }
  }

  lemma BlockKeepsInv(g: Group, t: TaskId, waitFor: Bits, clearOnExit: bool, waitForAll: bool)
    requires Inv(g) && t !in g.waiting && waitFor !! CONTROL
    requires !TestWaitCondition(g.bits, waitFor, waitForAll)
    ensures Inv(Block(g, t, Request(waitFor, clearOnExit, waitForAll)))
  {
    RequestRoundTrip(g.bits, waitFor, clearOnExit, waitForAll);
    assert forall w :: w in g.waiting + [t] <==> w in g.waiting || w == t;
  }

  lemma WaitBitsKeepsInv(g: Group, t: TaskId, waitFor: Bits, clearOnExit: bool, waitForAll: bool, mayBlock: bool)
    requires Inv(g) && t !in g.waiting && waitFor !! CONTROL
    ensures Inv(AfterWait(g, t, waitFor, clearOnExit, waitForAll, mayBlock).0)
  {
    if TestWaitCondition(g.bits, waitFor, waitForAll) {
      ClearBitsKeepsInv(g, waitFor);
    } else {
      BlockKeepsInv(g, t, waitFor, clearOnExit, waitForAll);
    }
  }

  lemma SyncKeepsInv(g: Group, t: TaskId, toSet: Bits, waitFor: Bits, mayBlock: bool)
    requires Inv(g) && t !in g.waiting && waitFor !! CONTROL && toSet !! CONTROL
    ensures Inv(AfterSync(g, t, toSet, waitFor, mayBlock).0)
  {
    var g' := AfterSetBits(g, toSet);
    SetBitsKeepsInv(g, toSet);
    if (g.bits + toSet) * waitFor == waitFor {
      ClearBitsKeepsInv(g', waitFor);
    } else {
      var b :| b in waitFor && b !in g.bits + toSet;
      assert b !in g'.bits * waitFor;
      TraversalMembers(g.bits + toSet, g.waiting, g.item);
      BlockKeepsInv(g', t, waitFor, true, true);
    }
  }

  lemma TimeoutKeepsInv(g: Group, t: TaskId)
    requires Inv(g)
    ensures Inv(AfterTimeout(g, t)) && t !in AfterTimeout(g, t).waiting
  {
    NoDupWithout(g.waiting, t);
    WithoutMembers(g.waiting, t);
  }

  lemma FinishKeepsInv(g: Group, t: TaskId, waitFor: Bits, clearOnExit: bool, waitForAll: bool, normal: Bits)
    requires Inv(g) && t in g.item && t !in g.waiting
    ensures Inv(AfterFinish(g, t, waitFor, clearOnExit, waitForAll, normal).0)
  {
    var g' := g.(item := g.item[t := normal]);
    assert Inv(g');
    ClearBitsKeepsInv(g', waitFor);
  }

  /** End to end: a task that blocks on a request and is then released by a set-bits call returns
      exactly the flags present before any clearing, and these meet its condition. */
  lemma ReleasedCallerSeesItsCondition(g: Group, t: TaskId, waitFor: Bits, clearOnExit: bool, waitForAll: bool,
                                       toSet: Bits, normal: Bits)
    requires Inv(g) && waitFor !! CONTROL && toSet !! CONTROL
    requires t in g.waiting && g.item[t] == Request(waitFor, clearOnExit, waitForAll)
    ensures var g' := AfterSetBits(g, toSet);
            && g'.item.Keys == g.item.Keys
            && (t !in g'.waiting <==> TestWaitCondition(g.bits + toSet, waitFor, waitForAll))
            && (t !in g'.waiting ==> AfterFinish(g', t, waitFor, clearOnExit, waitForAll, normal).1 == g.bits + toSet)
            && (t in g'.waiting ==> g'.item[t] == g.item[t])
  {
    var b := g.bits + toSet;
    RequestRoundTrip(b, waitFor, clearOnExit, waitForAll);
    TraversalMembers(b, g.waiting, g.item);
    ReleasedValue(b);
  }

  // ---------- Runs of calls by any tasks, in any order ----------

  datatype Call =
    | SetCall(bits: Bits)
    | ClearCall(bits: Bits)
    | WaitCall(task: TaskId, waitFor: Bits, clearOnExit: bool, waitForAll: bool, mayBlock: bool)
    | SyncCall(task: TaskId, bits: Bits, waitFor: Bits, mayBlock: bool)
    | Expiry(task: TaskId)
    | Resumption(task: TaskId, waitFor: Bits, clearOnExit: bool, waitForAll: bool, normal: Bits)

  /** What the assertions of the source demand, and that a blocked task makes no call. */
  predicate Legal(g: Group, c: Call) {
    match c
    case SetCall(bits) => bits !! CONTROL
    case ClearCall(bits) => true
    case WaitCall(t, waitFor, _, _, _) => t !in g.waiting && waitFor !! CONTROL
    case SyncCall(t, bits, waitFor, _) => t !in g.waiting && bits !! CONTROL && waitFor !! CONTROL
    case Expiry(_) => true
    case Resumption(t, _, _, _, _) => t in g.item && t !in g.waiting
  }

  function Apply(g: Group, c: Call): Group
    requires Covers(g.item, g.waiting) && Legal(g, c)
  {
    match c
    case SetCall(bits) => AfterSetBits(g, bits)
    case ClearCall(bits) => AfterClear(g, bits)
    case WaitCall(t, waitFor, clear, all, mayBlock) => AfterWait(g, t, waitFor, clear, all, mayBlock).0
    case SyncCall(t, bits, waitFor, mayBlock) => AfterSync(g, t, bits, waitFor, mayBlock).0
    case Expiry(t) => AfterTimeout(g, t)
    case Resumption(t, waitFor, clear, all, normal) => AfterFinish(g, t, waitFor, clear, all, normal).0
  }

  ghost predicate IsRun(states: seq<Group>, calls: seq<Call>) {
    && |states| == |calls| + 1
    && forall i :: 0 <= i < |calls| ==>
         Covers(states[i].item, states[i].waiting) && Legal(states[i], calls[i]) &&
         states[i+1] == Apply(states[i], calls[i])
  }

  /** In every state of every run, no task sleeps on a condition that the flags satisfy. */
  lemma {:induction false} RunKeepsInv(states: seq<Group>, calls: seq<Call>, n: nat)
    requires IsRun(states, calls) && n < |states| && Inv(states[0])
    ensures Inv(states[n])
  {
    if n != 0 {
      RunKeepsInv(states, calls, n - 1);
      var g := states[n-1];
      assert states[n] == Apply(g, calls[n-1]);
      match calls[n-1]
      case SetCall(bits) => SetBitsKeepsInv(g, bits);
      case ClearCall(bits) => ClearBitsKeepsInv(g, bits);
      case WaitCall(t, waitFor, clear, all, mayBlock) => WaitBitsKeepsInv(g, t, waitFor, clear, all, mayBlock);
      case SyncCall(t, bits, waitFor, mayBlock) => SyncKeepsInv(g, t, bits, waitFor, mayBlock);
      case Expiry(t) => TimeoutKeepsInv(g, t);
      case Resumption(t, waitFor, clear, all, normal) => FinishKeepsInv(g, t, waitFor, clear, all, normal);
    }
  }

  /** A call that sets flags, on top of which a condition is met. */
  predicate Meets(g: Group, c: Call, waitFor: Bits, waitForAll: bool) {
    (c.SetCall? || c.SyncCall?) && TestWaitCondition(g.bits + c.bits, waitFor, waitForAll)
  }

  /** A call made by task `t`, or its timeout. */
  predicate Concerns(c: Call, t: TaskId) {
    !c.SetCall? && !c.ClearCall? && c.task == t
  }

  ghost predicate SleepsOn(g: Group, t: TaskId, request: Bits) {
    t in g.waiting && t in g.item && g.item[t] == request
  }

  lemma CallOnSleeper(g: Group, c: Call, t: TaskId, waitFor: Bits, clearOnExit: bool, waitForAll: bool)
    requires Inv(g) && Legal(g, c) && !Concerns(c, t) && waitFor !! CONTROL
    requires SleepsOn(g, t, Request(waitFor, clearOnExit, waitForAll))
    ensures var r := Apply(g, c);
            if Meets(g, c, waitFor, waitForAll) then
              t !in r.waiting && t in r.item && r.item[t] == g.bits + c.bits + UNBLOCKED + IN_USE
            else SleepsOn(r, t, g.item[t])
  {
    hide Satisfied, TestWaitCondition, Request, AfterSetBits;
    match c
    case SetCall(bits) =>
      SetBitsWaiters(g, bits);
      RequestRoundTrip(g.bits + bits, waitFor, clearOnExit, waitForAll);
    case SyncCall(u, bits, _, _) =>
      SetBitsWaiters(g, bits);
      RequestRoundTrip(g.bits + bits, waitFor, clearOnExit, waitForAll);
    case ClearCall(bits) => ClearAndTimeoutExact(g, bits, t);
    case WaitCall(_, _, _, _, _) =>
    case Expiry(u) => ClearAndTimeoutExact(g, {}, u);
    case Resumption(_, _, _, _, _) =>
  }

  lemma CallOnReleased(g: Group, c: Call, t: TaskId)
    requires Covers(g.item, g.waiting) && Legal(g, c) && !Concerns(c, t) && t in g.item && t !in g.waiting
    ensures var r := Apply(g, c);
            t !in r.waiting && t in r.item && r.item[t] == g.item[t]
  {
    hide Satisfied, TestWaitCondition, Request, AfterSetBits;
    match c
    case SetCall(bits) => SetBitsWaiters(g, bits);
    case SyncCall(u, bits, _, _) => SetBitsWaiters(g, bits);
    case ClearCall(bits) =>
    case WaitCall(_, _, _, _, _) =>
    case Expiry(u) => ClearAndTimeoutExact(g, {}, u);
    case Resumption(_, _, _, _, _) =>
  }

  /** Over any run of calls, a waiting task sleeps exactly until the first call that sets flags on top of
      which its condition is met, and keeps the flags of that call to return, whatever is cleared later. */
  lemma {:induction false} SleepsUntilMet(states: seq<Group>, calls: seq<Call>, t: TaskId, waitFor: Bits,
      clearOnExit: bool, waitForAll: bool, i: nat, k: nat)
    requires IsRun(states, calls) && Inv(states[0]) && i <= k < |states| && waitFor !! CONTROL
    requires SleepsOn(states[i], t, Request(waitFor, clearOnExit, waitForAll))
    requires forall j :: i <= j < k ==> !Concerns(calls[j], t)
    ensures if forall j :: i <= j < k ==> !Meets(states[j], calls[j], waitFor, waitForAll) then
              SleepsOn(states[k], t, Request(waitFor, clearOnExit, waitForAll))
            else
              && t !in states[k].waiting && t in states[k].item
              && exists j :: i <= j < k && FirstMet(states, calls, waitFor, waitForAll, i, j)
                             && states[k].item[t] == states[j].bits + calls[j].bits + UNBLOCKED + IN_USE
    decreases k - i
  {
    hide Inv, Legal, Apply, Request, Concerns, TestWaitCondition;
    if i < k {
      SleepsUntilMet(states, calls, t, waitFor, clearOnExit, waitForAll, i, k - 1);
      RunKeepsInv(states, calls, k - 1);
      var g := states[k-1];
      assert Covers(g.item, g.waiting) && Legal(g, calls[k-1]) && states[k] == Apply(g, calls[k-1]);
      if forall j :: i <= j < k - 1 ==> !Meets(states[j], calls[j], waitFor, waitForAll) {
        CallOnSleeper(g, calls[k-1], t, waitFor, clearOnExit, waitForAll);
        assert Meets(g, calls[k-1], waitFor, waitForAll) ==> FirstMet(states, calls, waitFor, waitForAll, i, k - 1);
      } else {
        CallOnReleased(g, calls[k-1], t);
      }
    }
  }

  ghost predicate FirstMet(states: seq<Group>, calls: seq<Call>, waitFor: Bits, waitForAll: bool, i: nat, j: nat)
    requires j < |calls| == |states| - 1
  {
    && (calls[j].SetCall? || calls[j].SyncCall?)
    && Meets(states[j], calls[j], waitFor, waitForAll)
    && forall l :: i <= l < j ==> !Meets(states[l], calls[l], waitFor, waitForAll)
  }

  // ---------- The traversal loop ----------

  lemma ControlParts(value: Bits)
    ensures value * CONTROL * WAIT_FOR_ALL == value * WAIT_FOR_ALL
    ensures value * CONTROL * CLEAR_ON_EXIT == value * CLEAR_ON_EXIT
  {
  }

  /** What visiting waiter `k` adds to the result of visiting the first `k`. */
  lemma TraversalStep(bits: Bits, ws: seq<TaskId>, item: Items, k: nat)
    requires Covers(item, ws) && k < |ws|
    ensures var hit := Satisfied(bits, item[ws[k]]);
            && Waiting(bits, ws[..k+1], item) == Waiting(bits, ws[..k], item) + (if hit then [] else [ws[k]])
            && ClearMask(bits, ws[..k+1], item) == ClearMask(bits, ws[..k], item) +
               if hit && ClearsOnExit(item[ws[k]]) then WaitedFor(item[ws[k]]) else {}
  {
    assert ws[..k+1][..k] == ws[..k];
  }

  lemma StampStep(bits: Bits, ws: seq<TaskId>, item: Items, k: nat)
    requires Covers(item, ws) && NoDup(ws) && k < |ws|
    ensures ws[k] in Stamped(bits, ws[..k], item) && Stamped(bits, ws[..k], item)[ws[k]] == item[ws[k]]
    ensures Stamped(bits, ws[..k+1], item) ==
            if Satisfied(bits, item[ws[k]]) then Stamped(bits, ws[..k], item)[ws[k] := bits + UNBLOCKED + IN_USE]
            else Stamped(bits, ws[..k], item)
  {
    assert ws[k] !in ws[..k];
    assert ws[..k+1] == ws[..k] + [ws[k]];
    assert forall t :: t in ws[..k+1] <==> t in ws[..k] || t == ws[k];
  }

  /** The list in mid-pass: `left` stays, `ws[k..]` is still to be visited. */
  lemma MidPass(left: seq<TaskId>, ws: seq<TaskId>, k: nat)
    requires k < |ws|
    ensures (left + ws[k..])[|left|] == ws[k]
    ensures RemoveAt(left + ws[k..], |left|) == left + ws[k+1..]
    ensures left + ws[k..] == (left + [ws[k]]) + ws[k+1..]
  {
  }

  /** The state of the pass after `k` of the waiters `ws` have been visited. */
  ghost predicate Pass(bits: Bits, ws: seq<TaskId>, item0: Items, k: nat,
                       waiting: seq<TaskId>, i: nat, item: Items, toClear: Bits)
    requires Covers(item0, ws) && k <= |ws|
  {
    && waiting == Waiting(bits, ws[..k], item0) + ws[k..]
    && i == |Waiting(bits, ws[..k], item0)|
    && item == Stamped(bits, ws[..k], item0)
    && toClear == ClearMask(bits, ws[..k], item0)
  }

  lemma PassStep(bits: Bits, ws: seq<TaskId>, item0: Items, k: nat,
                 waiting: seq<TaskId>, i: nat, item: Items, toClear: Bits)
    requires Covers(item0, ws) && NoDup(ws) && k < |ws|
    requires Pass(bits, ws, item0, k, waiting, i, item, toClear)
    ensures i < |waiting| && waiting[i] == ws[k] && ws[k] in item && item[ws[k]] == item0[ws[k]]
    ensures Satisfied(bits, item[ws[k]]) ==>
              Pass(bits, ws, item0, k + 1, RemoveAt(waiting, i), i, item[ws[k] := bits + UNBLOCKED + IN_USE],
                   if ClearsOnExit(item[ws[k]]) then toClear + WaitedFor(item[ws[k]]) else toClear)
    ensures !Satisfied(bits, item[ws[k]]) ==> Pass(bits, ws, item0, k + 1, waiting, i + 1, item, toClear)
  {
    hide Satisfied, ClearsOnExit, WaitedFor, Waiting, Stamped, ClearMask;
    MidPass(Waiting(bits, ws[..k], item0), ws, k);
    TraversalStep(bits, ws, item0, k);
    StampStep(bits, ws, item0, k);
  }

  lemma PassEnd(bits: Bits, ws: seq<TaskId>, item0: Items, k: nat,
                waiting: seq<TaskId>, i: nat, item: Items, toClear: Bits)
    requires Covers(item0, ws) && k <= |ws|
    requires Pass(bits, ws, item0, k, waiting, i, item, toClear) && |waiting| <= i
    ensures waiting == Waiting(bits, ws, item0) && item == Stamped(bits, ws, item0)
    ensures toClear == ClearMask(bits, ws, item0)
  {
    assert k == |ws| && ws[..k] == ws;
    assert ws[k..] == [];
  }

  class EventGroup {
    var bits: Bits
    var waiting: seq<TaskId>
    var item: Items

    constructor ()
      ensures Inv(Abs()) && Abs() == Group({}, [], map[])
    {
      bits, waiting, item := {}, [], map[];
    }

    function Abs(): Group
      reads this
    {
      Group(bits, waiting, item)
    }

    /** One turn of the pass, for the waiter at place `i`. */
    method Visit(i: nat, toClear: Bits) returns (next: nat, mask: Bits)
      requires i < |waiting| && waiting[i] in item
      modifies this`waiting, this`item
      ensures var t, value := old(waiting[i]), old(item[waiting[i]]);
              if Satisfied(bits, value) then
                && waiting == RemoveAt(old(waiting), i) && next == i
                && item == old(item)[t := bits + UNBLOCKED + IN_USE]
                && mask == if ClearsOnExit(value) then toClear + WaitedFor(value) else toClear
              else
                waiting == old(waiting) && item == old(item) && next == i + 1 && mask == toClear
    {
      var t := waiting[i];
      var value := item[t];
      var control, wanted := value * CONTROL, value - CONTROL;
      ControlParts(value);
      next, mask := i, toClear;
      if if control * WAIT_FOR_ALL == {} then wanted * bits != {} else wanted * bits == wanted {
        if control * CLEAR_ON_EXIT != {} {
          mask := mask + wanted;
        }
        item := item[t := bits + UNBLOCKED + IN_USE];
        waiting := RemoveAt(waiting, i);
      } else {
        next := i + 1;
      }
    }

    /** xEventGroupSetBits: one pass over the waiters; matching ones leave the list while the
        pass goes on behind them, and flags are cleared only after the pass. */
    method SetBits(toSet: Bits) returns (r: Bits)
      requires NoDup(waiting) && Covers(item, waiting)
      modifies this
      ensures Abs() == AfterSetBits(old(Abs()), toSet)
      ensures r == bits
    {
      ghost var ws, item0, k := waiting, item, 0;
      bits := bits + toSet;
      var toClear: Bits := {};
      var i: nat := 0;
      while i < |waiting|
        invariant k <= |ws| && bits == old(bits) + toSet
        invariant Pass(bits, ws, item0, k, waiting, i, item, toClear)
        decreases |ws| - k
      {
        PassStep(bits, ws, item0, k, waiting, i, item, toClear);
        i, toClear := Visit(i, toClear);
        k := k + 1;
      }
      PassEnd(bits, ws, item0, k, waiting, i, item, toClear);
      bits := bits - toClear;
      r := bits;
    }

    /** xEventGroupClearBits: returns the flags as they were. */
    method ClearBits(toClear: Bits) returns (r: Bits)
      modifies this`bits
      ensures Abs() == AfterClear(old(Abs()), toClear)
      ensures r == old(bits)
    {
      r := bits;
      bits := bits - toClear;
    }

    /** xEventGroupWaitBits, up to the point where the task returns or blocks. */
    method WaitBits(t: TaskId, waitFor: Bits, clearOnExit: bool, waitForAll: bool, ticksToWait: nat)
      returns (r: Outcome)
      modifies this
      ensures (Abs(), r) == AfterWait(old(Abs()), t, waitFor, clearOnExit, waitForAll, ticksToWait != 0)
    {
      var current := bits;
      if TestWaitCondition(current, waitFor, waitForAll) {
        r := Returns(current);
        if clearOnExit {
          bits := bits - waitFor;
        }
      } else if ticksToWait == 0 {
        r := Returns(current);
      } else {
        item := item[t := Request(waitFor, clearOnExit, waitForAll)];
        waiting := waiting + [t];
        r := Blocks;
      }
    }

    /** xEventGroupSync, up to the point where the task returns or blocks. */
    method Sync(t: TaskId, toSet: Bits, waitFor: Bits, ticksToWait: nat) returns (r: Outcome)
      requires NoDup(waiting) && Covers(item, waiting)
      modifies this
      ensures (Abs(), r) == AfterSync(old(Abs()), t, toSet, waitFor, ticksToWait != 0)
    {
      var original := bits;
      var _ := SetBits(toSet);
      if (original + toSet) * waitFor == waitFor {
        r := Returns(original + toSet);
        bits := bits - waitFor;
      } else if ticksToWait != 0 {
        item := item[t := Request(waitFor, true, true)];
        waiting := waiting + [t];
        r := Blocks;
      } else {
        r := Returns(bits);
      }
    }

    /** The second half of both waiting calls, after the task has been unblocked. */
    method Unblocked(t: TaskId, waitFor: Bits, clearOnExit: bool, waitForAll: bool, normal: Bits) returns (r: Bits)
      requires t in item
      modifies this
      ensures (Abs(), r) == AfterFinish(old(Abs()), t, waitFor, clearOnExit, waitForAll, normal)
    {
      r := item[t];
      item := item[t := normal];
      if r * UNBLOCKED == {} {
        r := bits;
        if TestWaitCondition(r, waitFor, waitForAll) && clearOnExit {
          bits := bits - waitFor;
        }
      }
      r := r - CONTROL;
    }
  }
}
