/**
 Families of task lists on values.  A task has one list item per family (its state list item or its
 event list item); the item is linked into at most one list of the family and records which one,
 as `pxContainer` does.
 */
module TaskLists {
  import opened ListSpec

  type TaskId = nat

  /** A pointer to a task that may be NULL. */
  datatype Holder = Nobody | Task(id: TaskId)

  datatype TaskList = TaskList(items: seq<TaskId>, pos: nat)

  /** `P` names the list objects of the family. */
  datatype Store<P> = Store(lists: map<P, TaskList>, container: map<TaskId, P>)

  ghost predicate ListOk(l: TaskList) {
    NoDup(l.items) && l.pos <= |l.items|
  }

  predicate On<P(==)>(s: Store<P>, t: TaskId, p: P) {
    t in s.container && s.container[t] == p
  }

  /** A list holds exactly the tasks that say they are on it: no task is on two lists. */
  ghost predicate StoreOk<P>(s: Store<P>) {
    && (forall p :: p in s.lists ==> HoldsItsTasks(s, p))
    && (forall t :: t in s.container ==> s.container[t] in s.lists)
  }

  ghost predicate HoldsItsTasks<P>(s: Store<P>, p: P)
    requires p in s.lists
  {
    ListOk(s.lists[p]) && forall t :: t in s.lists[p].items <==> On(s, t, p)
  }

  /** A family of empty lists, as vListInitialise leaves them. */
  function Unlinked<P>(places: set<P>): (r: Store<P>)
    ensures r.lists.Keys == places && r.container == map[]
  {
    Store(map p | p in places :: TaskList([], 0), map[])
  }

  lemma UnlinkedOk<P>(places: set<P>)
    ensures StoreOk(Unlinked(places))
  {
    assert forall p :: p in places ==> HoldsItsTasks(Unlinked(places), p);
  }

  /** The tasks of a list in the order in which its index will come to them. */
  function Turns(l: TaskList): (r: seq<TaskId>)
    requires l.pos <= |l.items|
    ensures |r| == |l.items|
  {
    Upcoming(l.items, l.pos)
  }

  /** The list without `t`. */
  function Off(l: TaskList, t: TaskId): TaskList {
    TaskList(Without(l.items, t), PosAfterRemove(l.pos, IndexOf(l.items, t)))
  }

  /** The list with `t` put in at the end. */
  function AtEnd(l: TaskList, t: TaskId): TaskList
    requires l.pos <= |l.items|
  {
    TaskList(InsertAt(l.items, EndPosition(|l.items|, l.pos), t), PosAfterInsertEnd(l.pos))
  }

  lemma TurnsMembers(l: TaskList)
    requires ListOk(l)
    ensures NoDup(Turns(l)) && forall u :: u in Turns(l) <==> u in l.items
  {
    UpcomingMembers(l.items, l.pos);
  }

  /** A task that leaves a list, even the one that the index is on, leaves the turns of all others alone. */
  lemma OffTurns(l: TaskList, t: TaskId)
    requires ListOk(l) && t in l.items
    ensures ListOk(Off(l, t)) && Off(l, t).pos <= |Off(l, t).items|
    ensures Turns(Off(l, t)) == Without(Turns(l), t)
    ensures forall u :: u in Off(l, t).items <==> u in l.items && u != t
  {
    hide NoDup, Without, Upcoming;
    var i := IndexOf(l.items, t);
    WithoutIsRemoveAt(l.items, i);
    NoDupRemove(l.items, i);
    RemovedFromOrder(l.items, l.pos, i);
  }

  /** A task that joins a list gets the last turn, except that the task that the index is on comes
      after it. */
  lemma AtEndTurns(l: TaskList, t: TaskId)
    requires ListOk(l) && t !in l.items
    ensures ListOk(AtEnd(l, t)) && forall u :: u in AtEnd(l, t).items <==> u in l.items || u == t
    ensures var u := Turns(l);
            Turns(AtEnd(l, t)) == if l.pos == 0 then u + [t] else u[..|u| - 1] + [t, u[|u| - 1]]
    ensures l.pos != 0 ==> Turns(l)[|l.items| - 1] == l.items[l.pos - 1]
  {
    NoDupInsert(l.items, EndPosition(|l.items|, l.pos), t);
    InsertEndOrder(l.items, l.pos, t);
  }

  /** uxListRemove on a state list item. */
  function Detach<P(==)>(s: Store<P>, t: TaskId): (r: Store<P>)
    requires t in s.container && s.container[t] in s.lists
    ensures r.lists.Keys == s.lists.Keys
  {
    var p := s.container[t];
    Store(s.lists[p := Off(s.lists[p], t)], s.container - {t})
  }

  function IndexOf(s: seq<TaskId>, t: TaskId): (i: nat)
    ensures t in s ==> i < |s| && s[i] == t
    ensures t !in s ==> i == |s|
  {
    if s == [] || s[0] == t then 0 else 1 + IndexOf(s[1..], t)
  }

  /** vListInsertEnd. */
  function PutEnd<P(==)>(s: Store<P>, p: P, t: TaskId): (r: Store<P>)
    requires p in s.lists && s.lists[p].pos <= |s.lists[p].items|
    ensures r.lists.Keys == s.lists.Keys
  {
    Store(s.lists[p := AtEnd(s.lists[p], t)], s.container[t := p])
  }

  /** vListInsert at place `i`. */
  function PutAt<P(==)>(s: Store<P>, p: P, t: TaskId, i: nat): (r: Store<P>)
    requires p in s.lists && i <= |s.lists[p].items|
    ensures r.lists.Keys == s.lists.Keys
  {
    var l := s.lists[p];
    Store(s.lists[p := TaskList(InsertAt(l.items, i, t), if i < l.pos then l.pos + 1 else l.pos)],
          s.container[t := p])
  }

  lemma OnListed<P>(s: Store<P>, t: TaskId)
    requires StoreOk(s) && t in s.container
    ensures s.container[t] in s.lists && ListOk(s.lists[s.container[t]]) && t in s.lists[s.container[t]].items
    ensures s.lists[s.container[t]].pos <= |s.lists[s.container[t]].items|
  {
    assert HoldsItsTasks(s, s.container[t]) && On(s, t, s.container[t]);
  }

  lemma DetachOk<P>(s: Store<P>, t: TaskId)
    requires StoreOk(s) && t in s.container
    ensures StoreOk(Detach(s, t)) && Detach(s, t).container == s.container - {t}
    ensures var p := s.container[t];
            var l, r := s.lists[p], Detach(s, t).lists[p];
            l.pos <= |l.items| && r.pos <= |r.items| && Turns(r) == Without(Turns(l), t)
    ensures forall p :: p in s.lists && p != s.container[t] ==> Detach(s, t).lists[p] == s.lists[p]
  {
    hide Off, ListOk, Turns;
    var p := s.container[t];
    var l := s.lists[p];
    OnListed(s, t);
    OffTurns(l, t);
    var r := Detach(s, t);
    forall q | q in r.lists ensures HoldsItsTasks(r, q) {
      assert HoldsItsTasks(s, q);
    }
  }

  lemma PutOk<P>(s: Store<P>, p: P, t: TaskId, i: nat, pos: nat)
    requires StoreOk(s) && p in s.lists && t !in s.container && i <= |s.lists[p].items|
    requires pos <= |s.lists[p].items| + 1
    ensures StoreOk(Store(s.lists[p := TaskList(InsertAt(s.lists[p].items, i, t), pos)], s.container[t := p]))
  {
    var items := s.lists[p].items;
    assert HoldsItsTasks(s, p) && !On(s, t, p);
    NoDupInsert(items, i, t);
    var r := Store(s.lists[p := TaskList(InsertAt(items, i, t), pos)], s.container[t := p]);
    forall q | q in r.lists ensures HoldsItsTasks(r, q) {
      assert HoldsItsTasks(s, q);
    }
  }

  lemma PutEndOk<P>(s: Store<P>, p: P, t: TaskId)
    requires StoreOk(s) && p in s.lists && t !in s.container
    ensures s.lists[p].pos <= |s.lists[p].items|
    ensures var r := PutEnd(s, p, t);
            && StoreOk(r) && r.container == s.container[t := p] && r.lists.Keys == s.lists.Keys
            && (forall q :: q in s.lists && q != p ==> r.lists[q] == s.lists[q])
            && r.lists[p].pos <= |r.lists[p].items|
            && var u := Turns(s.lists[p]);
               Turns(r.lists[p]) == if s.lists[p].pos == 0 then u + [t] else u[..|u| - 1] + [t, u[|u| - 1]]
  {
    assert HoldsItsTasks(s, p) && !On(s, t, p);
    var l := s.lists[p];
    AtEndTurns(l, t);
    PutOk(s, p, t, EndPosition(|l.items|, l.pos), PosAfterInsertEnd(l.pos));
  }

  lemma PutAtOk<P>(s: Store<P>, p: P, t: TaskId, i: nat)
    requires StoreOk(s) && p in s.lists && t !in s.container && i <= |s.lists[p].items|
    ensures var r := PutAt(s, p, t, i);
            && StoreOk(r) && r.container == s.container[t := p] && r.lists.Keys == s.lists.Keys
            && r.lists[p].items == InsertAt(s.lists[p].items, i, t)
            && forall q :: q in s.lists && q != p ==> r.lists[q] == s.lists[q]
  {
    assert HoldsItsTasks(s, p);
    var l := s.lists[p];
    PutOk(s, p, t, i, if i < l.pos then l.pos + 1 else l.pos);
  }

  lemma NotLinked<P>(s: Store<P>, t: TaskId)
    requires StoreOk(s)
    ensures forall p :: p in s.lists && t !in s.container ==> t !in s.lists[p].items
  {
    forall p | p in s.lists && t !in s.container ensures t !in s.lists[p].items {
      assert HoldsItsTasks(s, p) && !On(s, t, p);
    }
  }

  // ---------- The turns of everybody else ----------

  /** The tasks of `s` that are not in `w`, in order. */
  function Others(s: seq<TaskId>, w: set<TaskId>): seq<TaskId> {
    if s == [] then [] else (if s[0] in w then [] else [s[0]]) + Others(s[1..], w)
  }

  /** On every list the tasks outside `w` have their turns in the same order. */
  ghost predicate OrderKept<P>(before: Store<P>, after: Store<P>, w: set<TaskId>) {
    before.lists.Keys == after.lists.Keys
    && forall p :: p in before.lists ==> TurnsKept(before.lists[p], after.lists[p], w)
  }

  ghost predicate TurnsKept(l: TaskList, r: TaskList, w: set<TaskId>) {
    l.pos <= |l.items| && r.pos <= |r.items| && Others(Turns(l), w) == Others(Turns(r), w)
  }

  lemma {:induction false} OthersConcat(a: seq<TaskId>, b: seq<TaskId>, w: set<TaskId>)
    ensures Others(a + b, w) == Others(a, w) + Others(b, w)
  {
    if a == [] {
      assert a + b == b;
    } else {
      assert (a + b)[1..] == a[1..] + b;
      OthersConcat(a[1..], b, w);
      assert ((if a[0] in w then [] else [a[0]]) + Others(a[1..], w)) + Others(b, w) ==
             (if a[0] in w then [] else [a[0]]) + (Others(a[1..], w) + Others(b, w));
    }
  }

  lemma {:induction false} OthersTwice(s: seq<TaskId>, w: set<TaskId>, w': set<TaskId>)
    ensures Others(Others(s, w), w') == Others(s, w + w')
  {
    if s != [] {
      OthersTwice(s[1..], w, w');
      var head := if s[0] in w then [] else [s[0]];
      OthersConcat(head, Others(s[1..], w), w');
      assert s[0] !in w ==> head[1..] == [];
    }
  }

  lemma OthersOne(t: TaskId, w: set<TaskId>)
    ensures Others([t], w) == if t in w then [] else [t]
  {
    assert [t][1..] == [];
    assert Others([], w) == [];
  }

  lemma OthersInsert(s: seq<TaskId>, i: nat, t: TaskId, w: set<TaskId>)
    requires i <= |s| && t in w
    ensures Others(InsertAt(s, i, t), w) == Others(s, w)
  {
    assert s == s[..i] + s[i..];
    OthersConcat(s[..i], s[i..], w);
    OthersConcat(s[..i] + [t], s[i..], w);
    OthersConcat(s[..i], [t], w);
    OthersOne(t, w);
    assert Others(s[..i], w) + [] == Others(s[..i], w);
  }

  lemma {:induction false} OthersWithout(s: seq<TaskId>, t: TaskId, w: set<TaskId>)
    requires t in w
    ensures Others(Without(s, t), w) == Others(s, w)
  {
    if s != [] {
      OthersWithout(s[1..], t, w);
      if s[0] != t {
        OthersConcat([s[0]], Without(s[1..], t), w);
        OthersOne(s[0], w);
      } else {
        assert [] + Without(s[1..], t) == Without(s[1..], t);
      }
    }
  }

  lemma OrderKeptTwice<P>(a: Store<P>, b: Store<P>, c: Store<P>, w: set<TaskId>, w': set<TaskId>)
    requires OrderKept(a, b, w) && OrderKept(b, c, w')
    ensures OrderKept(a, c, w + w')
  {
    forall p | p in a.lists ensures TurnsKept(a.lists[p], c.lists[p], w + w') {
      assert TurnsKept(a.lists[p], b.lists[p], w) && TurnsKept(b.lists[p], c.lists[p], w');
      TurnsKeptTwice(a.lists[p], b.lists[p], c.lists[p], w, w');
    }
  }

  lemma TurnsKeptTwice(a: TaskList, b: TaskList, c: TaskList, w: set<TaskId>, w': set<TaskId>)
    requires TurnsKept(a, b, w) && TurnsKept(b, c, w')
    ensures TurnsKept(a, c, w + w')
  {
    hide Turns;
    OthersTwice(Turns(a), w, w');
    OthersTwice(Turns(b), w, w');
    OthersTwice(Turns(b), w', w);
    OthersTwice(Turns(c), w', w);
    assert w + w' == w' + w;
  }

  lemma OrderKeptAlready<P>(s: Store<P>, w: set<TaskId>)
    requires StoreOk(s)
    ensures OrderKept(s, s, w)
  {
    forall p | p in s.lists ensures TurnsKept(s.lists[p], s.lists[p], w) {
      assert HoldsItsTasks(s, p);
    }
  }

  lemma DetachKeepsOrder<P>(s: Store<P>, t: TaskId)
    requires StoreOk(s) && t in s.container
    ensures s.container[t] in s.lists && OrderKept(s, Detach(s, t), {t})
  {
    hide Off, Turns, ListOk;
    DetachOk(s, t);
    OthersWithout(Turns(s.lists[s.container[t]]), t, {t});
    forall p | p in s.lists ensures TurnsKept(s.lists[p], Detach(s, t).lists[p], {t}) {
      InPlace(s, p);
    }
  }

  lemma InPlace<P>(s: Store<P>, p: P)
    requires StoreOk(s) && p in s.lists
    ensures s.lists[p].pos <= |s.lists[p].items|
  {
    assert HoldsItsTasks(s, p);
  }

  lemma PutEndKeepsOrder<P>(s: Store<P>, p: P, t: TaskId)
    requires StoreOk(s) && p in s.lists && t !in s.container
    ensures s.lists[p].pos <= |s.lists[p].items| && OrderKept(s, PutEnd(s, p, t), {t})
  {
    hide AtEnd, Turns, ListOk;
    PutEndOk(s, p, t);
    var l := s.lists[p];
    var u := Turns(l);
    if l.pos == 0 {
      assert u + [t] == InsertAt(u, |u|, t);
      OthersInsert(u, |u|, t, {t});
    } else {
      assert u[..|u| - 1] + [t, u[|u| - 1]] == InsertAt(u, |u| - 1, t);
      OthersInsert(u, |u| - 1, t, {t});
    }
    forall q | q in s.lists ensures TurnsKept(s.lists[q], PutEnd(s, p, t).lists[q], {t}) {
      InPlace(s, q);
    }
  }

  /** An item put in at any place, with the index staying on its item. */
  lemma OthersAfterInsert(items: seq<TaskId>, pos: nat, i: nat, t: TaskId, w: set<TaskId>)
    requires pos <= |items| && i <= |items| && t in w
    ensures Others(Upcoming(InsertAt(items, i, t), if i < pos then pos + 1 else pos), w) ==
            Others(Upcoming(items, pos), w)
  {
    hide Others;
    var r := InsertAt(items, i, t);
    if i < pos {
      assert r[pos+1..] == items[pos..] && r[..pos+1] == InsertAt(items[..pos], i, t);
      OthersConcat(r[pos+1..], r[..pos+1], w);
      OthersInsert(items[..pos], i, t, w);
    } else {
      assert r[pos..] == InsertAt(items[pos..], i - pos, t) && r[..pos] == items[..pos];
      OthersConcat(r[pos..], r[..pos], w);
      OthersInsert(items[pos..], i - pos, t, w);
    }
    OthersConcat(items[pos..], items[..pos], w);
  }

  lemma PutAtKeepsOrder<P>(s: Store<P>, p: P, t: TaskId, i: nat)
    requires StoreOk(s) && p in s.lists && t !in s.container && i <= |s.lists[p].items|
    ensures OrderKept(s, PutAt(s, p, t, i), {t})
  {
    hide StoreOk, InsertAt, Upcoming;
    InPlace(s, p);
    OthersAfterInsert(s.lists[p].items, s.lists[p].pos, i, t, {t});
    forall q | q in s.lists ensures TurnsKept(s.lists[q], PutAt(s, p, t, i).lists[q], {t}) {
      InPlace(s, q);
    }
  }

  /** Tasks outside `w` that are on a list before and after have the same order there. */
  lemma OrderOfOthers(l: TaskList, r: TaskList, w: set<TaskId>, x: TaskId, y: TaskId)
    requires TurnsKept(l, r, w) && x !in w && y !in w && Before(Turns(l), x, y)
    ensures Before(Turns(r), x, y)
  {
    hide Turns, Before, Others;
    OrderInOthers(Turns(l), w, x, y);
    OrderInOthers(Turns(r), w, x, y);
  }

  lemma MemberOfOthers(s: seq<TaskId>, w: set<TaskId>, x: TaskId)
    ensures x in Others(s, w) <==> x in s && x !in w
  {
  }

  lemma BeforeCons(s: seq<TaskId>, x: TaskId, y: TaskId)
    requires s != []
    ensures Before(s, x, y) <==> (s[0] == x && y in s[1..]) || Before(s[1..], x, y)
  {
    if s[0] == x && y in s[1..] {
      var j :| 0 <= j < |s[1..]| && s[1..][j] == y;
      assert s[j+1] == y;
    }
    if Before(s[1..], x, y) {
      var i, j :| 0 <= i < j < |s[1..]| && s[1..][i] == x && s[1..][j] == y;
      assert s[i+1] == x && s[j+1] == y;
    }
    if Before(s, x, y) {
      var i, j :| 0 <= i < j < |s| && s[i] == x && s[j] == y;
      assert s[1..][j-1] == y;
      assert i != 0 ==> s[1..][i-1] == x;
    }
  }

  lemma {:induction false} OrderInOthers(s: seq<TaskId>, w: set<TaskId>, x: TaskId, y: TaskId)
    requires x !in w && y !in w
    ensures Before(Others(s, w), x, y) <==> Before(s, x, y)
  {
    if s != [] {
      OrderInOthers(s[1..], w, x, y);
      BeforeCons(s, x, y);
      MemberOfOthers(s[1..], w, y);
      if s[0] !in w {
        BeforeCons(Others(s, w), x, y);
        assert Others(s, w)[1..] == Others(s[1..], w);
      } else {
        assert Others(s, w) == Others(s[1..], w);
      }
    }
  }

  // ---------- Joining behind everybody else ----------

  /** The index is on task `x`: it is the one selected last, unless that one has left the list since. */
  predicate IndexOn(l: TaskList, x: TaskId) {
    0 < l.pos <= |l.items| && l.items[l.pos - 1] == x
  }

  /** The tasks of `w` that are on the list come behind all others but the one that the index is on, and it
      is on the same one as before. */
  ghost predicate JoinsBehind(l: TaskList, r: TaskList, w: set<TaskId>) {
    && l.pos <= |l.items| && r.pos <= |r.items|
    && (forall x :: IndexOn(l, x) <==> IndexOn(r, x))
    && forall x, t :: x in l.items && x !in w && !IndexOn(l, x) && t in w && t in r.items ==> Before(Turns(r), x, t)
  }

  lemma MembersKept(l: TaskList, r: TaskList, w: set<TaskId>, x: TaskId)
    requires ListOk(l) && ListOk(r) && TurnsKept(l, r, w) && x !in w
    ensures x in l.items <==> x in r.items
  {
    hide Turns;
    TurnsMembers(l);
    TurnsMembers(r);
    MemberOfOthers(Turns(l), w, x);
    MemberOfOthers(Turns(r), w, x);
  }

  lemma JoinsBehindTwice(a: TaskList, b: TaskList, c: TaskList, w: set<TaskId>, w': set<TaskId>)
    requires ListOk(a) && ListOk(b) && ListOk(c) && TurnsKept(a, b, w) && TurnsKept(b, c, w')
    requires JoinsBehind(a, b, w) && JoinsBehind(b, c, w')
    ensures JoinsBehind(a, c, w + w')
  {
    hide Turns, ListOk, TurnsKept, Before;
    forall x, t | x in a.items && x !in w + w' && !IndexOn(a, x) && t in w + w' && t in c.items
      ensures Before(Turns(c), x, t)
    {
      MembersKept(a, b, w, x);
      if t !in w' {
        MembersKept(b, c, w', t);
        OrderOfOthers(b, c, w', x, t);
      }
    }
  }

  lemma JoinsBehindAlready(l: TaskList, w: set<TaskId>)
    requires ListOk(l) && forall t :: t in w ==> t !in l.items
    ensures JoinsBehind(l, l, w)
  {
  }

  lemma AtEndJoinsBehind(l: TaskList, t: TaskId)
    requires ListOk(l) && t !in l.items
    ensures JoinsBehind(l, AtEnd(l, t), {t})
  {
    AtEndTurns(l, t);
    var r := AtEnd(l, t);
    forall x ensures IndexOn(l, x) <==> IndexOn(r, x) {
    }
    hide Turns, AtEnd;
    TurnsMembers(l);
    forall x | x in l.items && !IndexOn(l, x) ensures Before(Turns(r), x, t) {
      NewcomerBehind(l, x, t);
    }
  }

  lemma NewcomerBehind(l: TaskList, x: TaskId, t: TaskId)
    requires ListOk(l) && x in l.items && t !in l.items && !IndexOn(l, x)
    ensures Before(Turns(AtEnd(l, t)), x, t)
  {
    hide Turns, AtEnd;
    TurnsMembers(l);
    AtEndTurns(l, t);
    var u, r := Turns(l), Turns(AtEnd(l, t));
    var i :| 0 <= i < |u| && u[i] == x;
    assert r[i] == x && r[if l.pos == 0 then |u| else |u| - 1] == t;
  }
}
