/**
 The sequence view of a kernel list, shared by every other module.

 A list is a sequence of items plus a cursor: position 0 is the sentinel and position `k`
 (1 <= k <= n) is item `k - 1`.  The cursor is the roving index that the scheduler moves
 when it picks the next task of a priority.
 */
module ListSpec {

  function InsertAt<T>(s: seq<T>, i: nat, x: T): (r: seq<T>)
    requires i <= |s|
    ensures |r| == |s| + 1
    ensures forall k :: 0 <= k < |r| ==> r[k] == if k < i then s[k] else if k == i then x else s[k-1]
  {
    s[..i] + [x] + s[i..]
  }

  function RemoveAt<T>(s: seq<T>, i: nat): (r: seq<T>)
    requires i < |s|
    ensures |r| == |s| - 1
    ensures forall k :: 0 <= k < |r| ==> r[k] == if k < i then s[k] else s[k+1]
  {
    s[..i] + s[i+1..]
  }

  ghost predicate NoDup<T>(s: seq<T>) {
    forall i, j :: 0 <= i < j < |s| ==> s[i] != s[j]
  }

  /** `x` comes before `y`. */
  ghost predicate Before<T(!new)>(s: seq<T>, x: T, y: T) {
    exists i, j :: 0 <= i < j < |s| && s[i] == x && s[j] == y
  }

  /** Ascending order of item values. */
  ghost predicate Sorted(keys: seq<nat>) {
    forall i, j :: 0 <= i < j < |keys| ==> keys[i] <= keys[j]
  }

  /** How many leading keys are no larger than `v`: where a sorted insert puts `v`. */
  function InsertPosition(keys: seq<nat>, v: nat): (p: nat)
    ensures p <= |keys|
    ensures forall i :: 0 <= i < p ==> keys[i] <= v
    ensures p < |keys| ==> v < keys[p]
  {
    if keys == [] || v < keys[0] then 0 else 1 + InsertPosition(keys[1..], v)
  }

  /** A position with these two properties is the insert position. */
  lemma {:induction false} InsertPositionUnique(keys: seq<nat>, v: nat, p: nat)
    requires p <= |keys|
    requires forall i :: 0 <= i < p ==> keys[i] <= v
    requires p < |keys| ==> v < keys[p]
    ensures p == InsertPosition(keys, v)
  {
    if p != 0 {
      InsertPositionUnique(keys[1..], v, p - 1);
    }
  }

  /** A sorted insert keeps the order, and is stable: the new key lands behind every equal
      key and in front of only strictly larger ones. */
  lemma {:induction false} SortedInsertStable(keys: seq<nat>, v: nat)
    requires Sorted(keys)
    ensures Sorted(InsertAt(keys, InsertPosition(keys, v), v))
    ensures forall i :: InsertPosition(keys, v) <= i < |keys| ==> v < keys[i]
    ensures forall i :: 0 <= i < |keys| && keys[i] <= v ==> i < InsertPosition(keys, v)
  {
    var p := InsertPosition(keys, v);
    var r := InsertAt(keys, p, v);
    forall i, j | 0 <= i < j < |r| ensures r[i] <= r[j] {
      assert r[i] == if i < p then keys[i] else if i == p then v else keys[i-1];
      assert r[j] == if j < p then keys[j] else if j == p then v else keys[j-1];
    }
  }

  lemma SortedAfterRemove(keys: seq<nat>, i: nat)
    requires Sorted(keys) && i < |keys|
    ensures Sorted(RemoveAt(keys, i))
  {
  }

  lemma NoDupInsert<T>(s: seq<T>, i: nat, x: T)
    requires NoDup(s) && i <= |s| && x !in s
    ensures NoDup(InsertAt(s, i, x))
    ensures forall y :: y in InsertAt(s, i, x) <==> y in s || y == x
  {
    var r := InsertAt(s, i, x);
    assert forall k :: 0 <= k < |s| ==> s[k] in s;
    forall y ensures y in r <==> y in s || y == x {
      if y in s {
        var k :| 0 <= k < |s| && s[k] == y;
        assert r[if k < i then k else k + 1] == y;
      }
    }
  }

  lemma NoDupRemove<T>(s: seq<T>, i: nat)
    requires NoDup(s) && i < |s|
    ensures NoDup(RemoveAt(s, i))
    ensures forall y :: y in RemoveAt(s, i) <==> y in s && y != s[i]
  {
    var r := RemoveAt(s, i);
    forall y ensures y in r <==> y in s && y != s[i] {
      if y in s && y != s[i] {
        var k :| 0 <= k < |s| && s[k] == y;
        assert r[if k < i then k else k - 1] == y;
      }
    }
  }

  /** The list without `x`: what uxListRemove leaves of the list that contains `x`. */
  function Without<T(==)>(s: seq<T>, x: T): (r: seq<T>)
    ensures x !in s ==> r == s
    ensures |r| <= |s| && (x in s ==> |r| < |s|)
  {
    if s == [] then [] else (if s[0] == x then [] else [s[0]]) + Without(s[1..], x)
  }

  lemma {:induction false} WithoutMembers<T>(s: seq<T>, x: T)
    ensures forall y :: y in Without(s, x) <==> y in s && y != x
  {
    if s != [] {
      WithoutMembers(s[1..], x);
      assert s == [s[0]] + s[1..];
    }
  }

  /** Items are unique, so at most one place is removed and the others keep their order. */
  lemma {:induction false} WithoutIsRemoveAt<T>(s: seq<T>, i: nat)
    requires NoDup(s) && i < |s|
    ensures Without(s, s[i]) == RemoveAt(s, i)
  {
    if i == 0 {
      assert s[0] !in s[1..];
    } else {
      assert s[1..][i-1] == s[i];
      WithoutIsRemoveAt(s[1..], i - 1);
      assert RemoveAt(s, i) == [s[0]] + RemoveAt(s[1..], i - 1);
    }
  }

  lemma NoDupWithout<T>(s: seq<T>, x: T)
    requires NoDup(s)
    ensures NoDup(Without(s, x))
  {
    if x in s {
      var i :| 0 <= i < |s| && s[i] == x;
      WithoutIsRemoveAt(s, i);
      NoDupRemove(s, i);
    }
  }

  // ---------- The roving cursor ----------

  /** The items in the order in which the cursor will next visit them. */
  function Upcoming<T>(items: seq<T>, pos: nat): (r: seq<T>)
    requires pos <= |items|
    ensures |r| == |items|
  {
    items[pos..] + items[..pos]
  }

  /** Cursor after one step: the sentinel is skipped. */
  function NextPos(n: nat, pos: nat): (r: nat)
    requires 0 < n && pos <= n
    ensures 1 <= r <= n
  {
    if pos == n then 1 else pos + 1
  }

  function Rotated<T>(u: seq<T>): (r: seq<T>)
    requires u != []
  {
    u[1..] + [u[0]]
  }

  /** One step of the cursor selects the front of the upcoming order and sends it to the back. */
  lemma NextSelectsFront<T>(items: seq<T>, pos: nat)
    requires items != [] && pos <= |items|
    ensures items[NextPos(|items|, pos) - 1] == Upcoming(items, pos)[0]
    ensures Upcoming(items, NextPos(|items|, pos)) == Rotated(Upcoming(items, pos))
  {
  }

  /** The items selected by `k` successive steps of the cursor. */
  function Selections<T>(u: seq<T>, k: nat): (r: seq<T>)
    requires u != []
    ensures |r| == k
    decreases k
  {
    if k == 0 then [] else [u[0]] + Selections(Rotated(u), k - 1)
  }

  /** Round robin: the first n selections visit every one of the n items exactly once, in
      upcoming order, whatever the cursor position. */
  lemma {:induction false} RoundRobin<T>(u: seq<T>, k: nat)
    requires u != [] && k <= |u|
    ensures Selections(u, k) == u[..k]
  {
    assert u + [] == u;
    SelectionsPrefix(u, [], k);
  }

  lemma {:induction false} SelectionsPrefix<T>(front: seq<T>, back: seq<T>, k: nat)
    requires front != [] && k <= |front|
    ensures Selections(front + back, k) == front[..k]
  {
    if k != 0 {
      var u := front + back;
      assert Rotated(u) == front[1..] + (back + [front[0]]);
      if k > 1 {
        SelectionsPrefix(front[1..], back + [front[0]], k - 1);
      } else {
        assert Selections(Rotated(u), 0) == [];
      }
      assert front[..k] == [front[0]] + front[1..][..k-1];
    }
  }

  /** Where an insert "at the end" goes: just in front of the cursor. */
  function EndPosition(n: nat, pos: nat): (r: nat)
    requires pos <= n
    ensures r <= n
  {
    if pos == 0 then n else pos - 1
  }

  function PosAfterInsertEnd(pos: nat): nat { if pos == 0 then 0 else pos + 1 }

  /** An item inserted at the end is visited after every other item, except that when the cursor
      stands on an item that item itself comes after the new one. */
  lemma InsertEndOrder<T>(items: seq<T>, pos: nat, x: T)
    requires pos <= |items|
    ensures var u := Upcoming(items, pos);
            Upcoming(InsertAt(items, EndPosition(|items|, pos), x), PosAfterInsertEnd(pos)) ==
            if pos == 0 then u + [x] else u[..|u| - 1] + [x, u[|u| - 1]]
    ensures pos != 0 ==> Upcoming(items, pos)[|items| - 1] == items[pos - 1]
  {
  }

  /** Cursor after removing item `i`: it steps back when its own item is removed. */
  function PosAfterRemove(pos: nat, i: nat): nat { if i < pos then pos - 1 else pos }

  /** Removing any item, the cursor's own included, drops it from the upcoming order and
      changes nothing else: nobody is skipped and nobody is visited twice. */
  lemma RemoveKeepsOrder<T>(items: seq<T>, pos: nat, i: nat)
    requires i < |items| && pos <= |items|
    ensures PosAfterRemove(pos, i) <= |items| - 1
    ensures var u := Upcoming(items, pos);
            var at := if pos <= i then i - pos else |items| - pos + i;
            at < |u| && u[at] == items[i] &&
            Upcoming(RemoveAt(items, i), PosAfterRemove(pos, i)) == RemoveAt(u, at)
  {
    var u := Upcoming(items, pos);
    var at := if pos <= i then i - pos else |items| - pos + i;
    var r := Upcoming(RemoveAt(items, i), PosAfterRemove(pos, i));
    assert |r| == |RemoveAt(u, at)|;
    forall k | 0 <= k < |r| ensures r[k] == RemoveAt(u, at)[k] {
    }
  }

  lemma UpcomingMembers<T>(items: seq<T>, pos: nat)
    requires NoDup(items) && pos <= |items|
    ensures NoDup(Upcoming(items, pos)) && forall x :: x in Upcoming(items, pos) <==> x in items
  {
    assert items == items[..pos] + items[pos..];
  }

  /** Items are unique, so what an item leaves behind is the upcoming order without it. */
  lemma RemovedFromOrder<T>(items: seq<T>, pos: nat, i: nat)
    requires NoDup(items) && pos <= |items| && i < |items|
    ensures PosAfterRemove(pos, i) <= |RemoveAt(items, i)|
    ensures Upcoming(RemoveAt(items, i), PosAfterRemove(pos, i)) == Without(Upcoming(items, pos), items[i])
  {
    hide NoDup, Without, Upcoming;
    UpcomingMembers(items, pos);
    RemoveKeepsOrder(items, pos, i);
    WithoutIsRemoveAt(Upcoming(items, pos), if pos <= i then i - pos else |items| - pos + i);
  }
}
