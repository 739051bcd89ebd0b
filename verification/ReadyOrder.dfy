/**
 The order in which the tasks of one ready list are selected: any sequence of tasks that become ready,
 tasks that block, and selections by listGET_OWNER_OF_NEXT_ENTRY.
 */
module ReadyOrder {
  import opened ListSpec
  import opened TaskLists

  datatype Event = Join(task: TaskId) | Leave(task: TaskId) | Select

  predicate Enabled(l: TaskList, e: Event) {
    l.pos <= |l.items| &&
    match e
    case Join(t) => t !in l.items
    case Leave(t) => t in l.items
    case Select => l.items != []
  }

  function Apply(l: TaskList, e: Event): TaskList
    requires Enabled(l, e)
  {
    match e
    case Join(t) => AtEnd(l, t)
    case Leave(t) => Off(l, t)
    case Select => l.(pos := NextPos(|l.items|, l.pos))
  }

  /** The task that a selection yields: the one that the index has moved to. */
  function Selected(l: TaskList): TaskId
    requires Enabled(l, Select)
  {
    l.items[NextPos(|l.items|, l.pos) - 1]
  }

  ghost predicate Selects(l: TaskList, e: Event, t: TaskId) {
    e == Select && Enabled(l, e) && Selected(l) == t
  }

  lemma SelectionRotates(l: TaskList)
    requires ListOk(l) && l.items != []
    ensures ListOk(Apply(l, Select)) && Selected(l) == Turns(l)[0] && Turns(Apply(l, Select)) == Rotated(Turns(l))
  {
    NextSelectsFront(l.items, l.pos);
  }

  lemma EventKeepsList(l: TaskList, e: Event)
    requires ListOk(l) && Enabled(l, e)
    ensures ListOk(Apply(l, e))
  {
    match e
    case Join(t) => AtEndTurns(l, t);
    case Leave(t) => OffTurns(l, t);
    case Select =>
  }

  // ---------- Before and after, in sequences ----------

  lemma BeforeInRemoved(s: seq<TaskId>, x: TaskId, y: TaskId, k: nat)
    requires Before(s, x, y) && k < |s| && s[k] != x && s[k] != y
    ensures Before(RemoveAt(s, k), x, y)
  {
    var i, j :| 0 <= i < j < |s| && s[i] == x && s[j] == y;
    var r := RemoveAt(s, k);
    assert r[if i < k then i else i - 1] == x && r[if j < k then j else j - 1] == y;
  }

  lemma BeforeInWithout(s: seq<TaskId>, x: TaskId, y: TaskId, u: TaskId)
    requires NoDup(s) && Before(s, x, y) && u != x && u != y
    ensures Before(Without(s, u), x, y)
  {
    hide NoDup, Before, Without, RemoveAt;
    if k :| 0 <= k < |s| && s[k] == u {
      WithoutIsRemoveAt(s, k);
      BeforeInRemoved(s, x, y, k);
    }
  }

  lemma BeforeInRotated(s: seq<TaskId>, x: TaskId, y: TaskId)
    requires NoDup(s) && Before(s, x, y) && s[0] != x
    ensures s[0] != y && Before(Rotated(s), x, y)
  {
    var i, j :| 0 <= i < j < |s| && s[i] == x && s[j] == y;
    assert Rotated(s)[i-1] == x && Rotated(s)[j-1] == y;
  }

  lemma BeforeWithNew(s: seq<TaskId>, x: TaskId, y: TaskId, u: TaskId)
    requires Before(s, x, y)
    ensures Before(s + [u], x, y)
    ensures Before(s[..|s| - 1] + [u, s[|s| - 1]], x, y)
  {
    var i, j :| 0 <= i < j < |s| && s[i] == x && s[j] == y;
    assert (s + [u])[i] == x && (s + [u])[j] == y;
    var r := s[..|s| - 1] + [u, s[|s| - 1]];
    assert r[i] == x && r[if j < |s| - 1 then j else j + 1] == y;
  }

  // ---------- Nobody is overtaken ----------

  /** A task that comes before another in the turns stays there until it is selected. */
  lemma BeforeKept(l: TaskList, e: Event, x: TaskId, t: TaskId)
    requires ListOk(l) && Enabled(l, e) && Before(Turns(l), x, t) && e !in {Leave(x), Leave(t)}
    requires !Selects(l, e, x)
    ensures ListOk(Apply(l, e)) && Before(Turns(Apply(l, e)), x, t) && !Selects(l, e, t)
  {
    hide Turns, AtEnd, Off, NoDup, Selected;
    TurnsMembers(l);
    match e
    case Join(u) =>
      AtEndTurns(l, u);
      BeforeWithNew(Turns(l), x, t, u);
    case Leave(u) =>
      OffTurns(l, u);
      BeforeInWithout(Turns(l), x, t, u);
    case Select =>
      SelectionRotates(l);
      BeforeInRotated(Turns(l), x, t);
  }

  ghost predicate IsRun(lists: seq<TaskList>, events: seq<Event>) {
    && |lists| == |events| + 1
    && forall i :: 0 <= i < |events| ==>
         ListOk(lists[i]) && Enabled(lists[i], events[i]) && lists[i+1] == Apply(lists[i], events[i])
  }

  /** Whoever comes first is selected first, whatever joins and leaves meanwhile. */
  lemma {:induction false} NobodyIsOvertaken(lists: seq<TaskList>, events: seq<Event>, i: nat, k: nat, x: TaskId,
      t: TaskId)
    requires IsRun(lists, events) && i <= k < |events| && ListOk(lists[i]) && Before(Turns(lists[i]), x, t)
    requires forall j :: i <= j < k ==> events[j] !in {Leave(x), Leave(t)}
    requires Selects(lists[k], events[k], t)
    ensures exists j :: i <= j < k && Selects(lists[j], events[j], x)
    decreases k - i
  {
    hide Apply, Turns, ListOk, Selected;
    if i == k {
      FrontIsNotBehind(lists[i], x, t);
    } else if !Selects(lists[i], events[i], x) {
      BeforeKept(lists[i], events[i], x, t);
      NobodyIsOvertaken(lists, events, i + 1, k, x, t);
    }
  }

  lemma FrontIsNotBehind(l: TaskList, x: TaskId, t: TaskId)
    requires ListOk(l) && Before(Turns(l), x, t) && l.items != []
    ensures Selected(l) != t
  {
    SelectionRotates(l);
    TurnsMembers(l);
  }

  /** A task that becomes ready is selected only after every other task of its priority has had its turn or
      has gone, apart from the one that the index is on. */
  lemma ReadiedWaitsItsTurn(lists: seq<TaskList>, events: seq<Event>, i: nat, k: nat, x: TaskId, t: TaskId)
    requires IsRun(lists, events) && i < k < |events| && events[i] == Join(t) && Selects(lists[k], events[k], t)
    requires x in lists[i].items && !IndexOn(lists[i], x)
    requires forall j :: i < j < k ==> events[j] !in {Leave(x), Leave(t)}
    ensures exists j :: i < j < k && Selects(lists[j], events[j], x)
  {
    NewcomerBehind(lists[i], x, t);
    EventKeepsList(lists[i], events[i]);
    NobodyIsOvertaken(lists, events, i + 1, k, x, t);
  }

  // ---------- When a latecomer does overtake ----------

  /** A task that becomes ready comes before one that is ready already if and only if the index of the list
      is on that one. */
  lemma LatecomerExact(l: TaskList, t: TaskId, u: TaskId)
    requires ListOk(l) && t in l.items && u !in l.items
    ensures Before(Turns(AtEnd(l, u)), u, t) <==> IndexOn(l, t)
  {
    hide Turns, AtEnd, NoDup;
    AtEndTurns(l, u);
    TurnsMembers(AtEnd(l, u));
    if IndexOn(l, t) {
      var r := Turns(AtEnd(l, u));
      assert r[|r| - 2] == u && r[|r| - 1] == t;
    } else {
      NewcomerBehind(l, t, u);
      NotBothWays(Turns(AtEnd(l, u)), t, u);
    }
  }

  lemma NotBothWays(s: seq<TaskId>, x: TaskId, y: TaskId)
    requires NoDup(s) && Before(s, x, y)
    ensures !Before(s, y, x)
  {
  }

  /** The index can be on a task that has never been selected: when the running task, the one selected last,
      leaves its list, the index steps back onto the task in front of it.  Here `a` runs, `t` becomes
      ready, `a` blocks, and `u` becomes ready before the next selection; `u` is selected before `t`. */
  lemma LatecomerOvertakes(a: TaskId, t: TaskId, u: TaskId)
    requires a != t && t != u && a != u
    ensures var lists := [TaskList([a], 1), TaskList([t, a], 2), TaskList([t], 1), TaskList([u, t], 2)];
            && IsRun(lists, [Join(t), Leave(a), Join(u)])
            && Selects(lists[3], Select, u)
  {
    hide Off;
    LastOneOff(a, t);
  }

  lemma LastOneOff(a: TaskId, t: TaskId)
    requires a != t
    ensures Off(TaskList([t, a], 2), a) == TaskList([t], 1)
  {
    assert [t, a][1..] == [a] && [a][1..] == [];
  }
}
