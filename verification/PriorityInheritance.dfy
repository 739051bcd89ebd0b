/**
 Exact priority inheritance (queue.c, tasks.c) when each task holds at most one mutex, waits without a
 timeout, and nobody changes priorities or suspends the scheduler for longer than a call.

 Every step is one blocking-free section of the running task, or an interrupt that readies a sleeping
 task, together with the context switch it asks for.  A task that waits on a mutex is on the event
 list of that mutex, sorted by `maxPriorities - priority`.
 */
module PriorityInheritance {
  import opened ListSpec
  import opened Priorities
  import opened TaskLists

  type MutexId = nat

  /** A woken task is ready and will try again to take the mutex it was waiting for. */
  datatype Status = Ready | Woken(x: MutexId) | Waiting(x: MutexId) | Asleep

  datatype State = State(
    maxPriorities: nat, tcb: map<TaskId, Tcb>, status: map<TaskId, Status>,
    holder: map<MutexId, Holder>, waiters: map<MutexId, seq<TaskId>>, current: TaskId)

  predicate Runnable(s: State, t: TaskId) {
    t in s.status && t in s.tcb && (s.status[t].Ready? || s.status[t].Woken?)
  }

  predicate WaitsFor(s: State, t: TaskId, x: MutexId) {
    t in s.status && t in s.tcb && s.status[t] == Waiting(x)
  }

  function Keys(tcb: map<TaskId, Tcb>, q: seq<TaskId>): (r: seq<nat>)
    requires forall i :: 0 <= i < |q| ==> q[i] in tcb
    ensures |r| == |q|
    ensures forall i :: 0 <= i < |r| ==> r[i] == tcb[q[i]].eventValue
  {
    seq(|q|, i requires 0 <= i < |q| => tcb[q[i]].eventValue)
  }

  // ---------- Steps ----------

  datatype Step =
    | Take(x: MutexId)
    | Block(x: MutexId, next: TaskId)
    | Give(x: MutexId, next: TaskId)
    | Sleep(next: TaskId)
    | Wake(t: TaskId)
    | Yield(next: TaskId)

  /** What vTaskSwitchContext may select. */
  ghost predicate IsTop(s: State, t: TaskId) {
    Runnable(s, t) && forall u :: Runnable(s, u) ==> s.tcb[u].priority <= s.tcb[t].priority
  }

  /** The running task may try to take `x`: it holds no mutex, and if it was woken, then for `x`. */
  predicate Tries(s: State, x: MutexId) {
    && Runnable(s, s.current) && s.tcb[s.current].mutexesHeld == 0 && x in s.holder && x in s.waiters
    && (s.status[s.current].Woken? ==> s.status[s.current].x == x)
  }

  /** xQueueSemaphoreTake succeeds. */
  function Taken(s: State, x: MutexId): State
    requires Tries(s, x)
  {
    var c := s.current;
    s.(tcb := s.tcb[c := s.tcb[c].(mutexesHeld := s.tcb[c].mutexesHeld + 1)],
       status := s.status[c := Ready], holder := s.holder[x := Task(c)])
  }

  predicate CanInsert(s: State, x: MutexId) {
    x in s.waiters && forall i :: 0 <= i < |s.waiters[x]| ==> s.waiters[x][i] in s.tcb
  }

  /** xQueueSemaphoreTake finds the mutex held: the holder inherits and the task goes to the list. */
  function Blocked(s: State, x: MutexId): State
    requires Tries(s, x) && s.holder[x].Task? && s.holder[x].id in s.tcb && CanInsert(s, x)
    requires s.tcb[s.current].priority < s.maxPriorities
  {
    var c, h, q := s.current, s.holder[x].id, s.waiters[x];
    var i := InsertPosition(Keys(s.tcb, q), s.tcb[c].eventValue);
    s.(tcb := s.tcb[h := Inherit(s.maxPriorities, s.tcb[h], s.tcb[c].priority).0],
       status := s.status[c := Waiting(x)], waiters := s.waiters[x := InsertAt(q, i, c)])
  }

  predicate Gives(s: State, x: MutexId) {
    && Runnable(s, s.current) && x in s.holder && x in s.waiters && s.holder[x] == Task(s.current)
    && 0 < s.tcb[s.current].mutexesHeld && s.tcb[s.current].basePriority < s.maxPriorities
    && (s.waiters[x] != [] ==> s.waiters[x][0] in s.tcb)
  }

  /** xQueueGenericSend on a mutex, up to the question of a context switch. */
  function Given(s: State, x: MutexId): State
    requires Gives(s, x)
  {
    var c, q := s.current, s.waiters[x];
    var r := s.(tcb := s.tcb[c := Disinherit(s.maxPriorities, s.tcb[c]).0], holder := s.holder[x := Nobody]);
    if q == [] then r else r.(status := s.status[q[0] := Woken(x)], waiters := s.waiters[x := q[1..]])
  }

  /** The yields requested by xQueueGenericSend: because of the woken task, or, only when nobody waits,
      because the giver dropped to its base priority. */
  predicate GiveSwitches(s: State, x: MutexId)
    requires Gives(s, x)
  {
    var r := Given(s, x);
    if s.waiters[x] == [] then Disinherit(s.maxPriorities, s.tcb[s.current]).1
    else s.waiters[x][0] in r.tcb && r.tcb[s.waiters[x][0]].priority > r.tcb[s.current].priority
  }

  ghost predicate Enabled(s: State, step: Step) {
    match step
    case Take(x) => Tries(s, x) && s.holder[x] == Nobody
    case Block(x, next) =>
      && Tries(s, x) && s.holder[x].Task? && s.holder[x].id in s.tcb && CanInsert(s, x)
      && s.tcb[s.current].priority < s.maxPriorities && IsTop(Blocked(s, x), next)
    case Give(x, next) => Gives(s, x) && s.status[s.current].Ready? && (GiveSwitches(s, x) ==> IsTop(Given(s, x), next))
    case Sleep(next) =>
      && Runnable(s, s.current) && s.status[s.current].Ready?
      && IsTop(s.(status := s.status[s.current := Asleep]), next)
    case Wake(t) => t in s.status && t in s.tcb && s.status[t].Asleep? && s.current in s.tcb
    case Yield(next) => IsTop(s, next)
  }

  ghost function Apply(s: State, step: Step): State
    requires Enabled(s, step)
  {
    match step
    case Take(x) => Taken(s, x)
    case Block(x, next) => Blocked(s, x).(current := next)
    case Give(x, next) => Given(s, x).(current := if GiveSwitches(s, x) then next else s.current)
    case Sleep(next) => s.(status := s.status[s.current := Asleep], current := next)
    case Wake(t) =>
      s.(status := s.status[t := Ready],
         current := if s.tcb[t].priority > s.tcb[s.current].priority then t else s.current)
    case Yield(next) => s.(current := next)
  }

  // ---------- The invariant ----------

  /** The list of a mutex holds exactly the tasks waiting for it, most important first. */
  ghost predicate ListOk(s: State, x: MutexId) {
    && CanInsert(s, x)
    && (forall t :: t in s.waiters[x] <==> WaitsFor(s, t, x))
    && NoDup(s.waiters[x]) && Sorted(Keys(s.tcb, s.waiters[x]))
  }

  /** The holder of a mutex runs at the maximum of its base priority and the priorities of the tasks
      waiting for the mutex. */
  ghost predicate Exact(s: State, h: TaskId, x: MutexId) {
    && h in s.tcb
    && s.tcb[h].basePriority <= s.tcb[h].priority
    && (forall t :: WaitsFor(s, t, x) ==> s.tcb[t].priority <= s.tcb[h].priority)
    && (s.tcb[h].priority == s.tcb[h].basePriority
        || exists t :: WaitsFor(s, t, x) && s.tcb[t].priority == s.tcb[h].priority)
  }

  /** A woken task that is going to try for `x` again is at least as important as every waiter. */
  ghost predicate Leads(s: State, w: TaskId, x: MutexId) {
    && w in s.status && w in s.tcb && s.status[w] == Woken(x)
    && forall t :: WaitsFor(s, t, x) ==> s.tcb[t].priority <= s.tcb[w].priority
  }

  ghost predicate MutexOk(s: State, x: MutexId)
    requires x in s.holder
  {
    match s.holder[x]
    case Task(h) =>
      && h in s.tcb && h in s.status && s.tcb[h].mutexesHeld == 1
      && (s.status[h].Ready? || s.status[h].Asleep?) && Exact(s, h, x)
    case Nobody => (exists t :: WaitsFor(s, t, x)) ==> exists w :: Leads(s, w, x)
  }

  ghost predicate TaskOk(s: State, t: TaskId)
    requires t in s.tcb
  {
    var v := s.tcb[t];
    && v.priority < s.maxPriorities && v.basePriority < s.maxPriorities && v.mutexesHeld <= 1
    && !v.eventInUse && v.eventValue + v.priority == s.maxPriorities
    && (v.mutexesHeld == 0 ==> v.priority == v.basePriority)
    && (t in s.status && (s.status[t].Waiting? || s.status[t].Woken?) ==>
          v.mutexesHeld == 0 && s.status[t].x in s.holder)
  }

  ghost predicate Inv(s: State) {
    && s.tcb.Keys == s.status.Keys && s.holder.Keys == s.waiters.Keys
    && IsTop(s, s.current)
    && (forall x :: x in s.waiters ==> ListOk(s, x))
    && (forall x :: x in s.holder ==> MutexOk(s, x))
    && (forall t :: t in s.tcb ==> TaskOk(s, t))
    && (forall x, y :: x in s.holder && y in s.holder && s.holder[x].Task? && s.holder[x] == s.holder[y] ==> x == y)
  }

  // ---------- Every step keeps the invariant ----------

  lemma YieldKeepsInv(s: State, next: TaskId)
    requires Inv(s) && Enabled(s, Yield(next))
    ensures Inv(Apply(s, Yield(next)))
  {
    var r := Apply(s, Yield(next));
    SameLists(s, r);
    forall x | x in r.holder ensures MutexOk(r, x) {
      assert MutexOk(s, x);
      SameWaits(s, r, x);
    }
    forall t | t in r.tcb ensures TaskOk(r, t) {
      assert TaskOk(s, t);
    }
  }

  lemma SameLists(s: State, r: State)
    requires forall x :: x in s.waiters ==> ListOk(s, x)
    requires r.waiters == s.waiters && s.tcb.Keys <= r.tcb.Keys
    requires forall t, x :: WaitsFor(s, t, x) <==> WaitsFor(r, t, x)
    requires forall t, x :: WaitsFor(s, t, x) ==> r.tcb[t].eventValue == s.tcb[t].eventValue
    ensures forall x :: x in r.waiters ==> ListOk(r, x)
  {
    forall x | x in r.waiters ensures ListOk(r, x) {
      assert ListOk(s, x);
      assert forall i :: 0 <= i < |s.waiters[x]| ==> s.waiters[x][i] in s.waiters[x];
      assert Keys(r.tcb, r.waiters[x]) == Keys(s.tcb, s.waiters[x]);
    }
  }

  /** Nothing changes for mutex `x` if its waiters, their priorities and its holder or leader stay. */
  lemma SameWaits(s: State, r: State, x: MutexId)
    requires x in s.holder && x in r.holder && MutexOk(s, x) && r.holder[x] == s.holder[x] && s.tcb.Keys == r.tcb.Keys
    requires forall t :: WaitsFor(s, t, x) <==> WaitsFor(r, t, x)
    requires forall t :: WaitsFor(s, t, x) ==> r.tcb[t].priority == s.tcb[t].priority
    requires s.holder[x].Task? ==>
               var h := s.holder[x].id;
               h in r.tcb && h in r.status && r.tcb[h] == s.tcb[h] && (r.status[h].Ready? || r.status[h].Asleep?)
    requires forall w :: Leads(s, w, x) ==>
               w in r.tcb && w in r.status && r.tcb[w].priority == s.tcb[w].priority && r.status[w] == Woken(x)
    ensures MutexOk(r, x)
  {
    if s.holder[x] == Nobody {
      if w :| Leads(s, w, x) {
        assert Leads(r, w, x);
      }
    } else {
      assert Exact(s, s.holder[x].id, x);
      if t :| WaitsFor(s, t, x) && s.tcb[t].priority == s.tcb[s.holder[x].id].priority {
        assert WaitsFor(r, t, x);
      }
    }
  }

  /** A task falls asleep or is woken up that neither waits for a mutex nor was woken for one. */
  lemma RestKeepsMutexes(s: State, t: TaskId, status: Status)
    requires Inv(s) && t in s.tcb && status in {Ready, Asleep} && s.status[t] in {Ready, Asleep}
    ensures var r := s.(status := s.status[t := status]);
            && (forall x :: x in r.waiters ==> ListOk(r, x))
            && (forall x :: x in r.holder ==> MutexOk(r, x))
            && (forall u :: u in r.tcb ==> TaskOk(r, u))
  {
    hide ListOk, Exact, IsTop;
    var r := s.(status := s.status[t := status]);
    SameLists(s, r);
    forall x | x in r.holder ensures MutexOk(r, x) {
      assert MutexOk(s, x);
      SameWaits(s, r, x);
    }
    forall u | u in r.tcb ensures TaskOk(r, u) {
      assert TaskOk(s, u);
    }
  }

  lemma SleepKeepsInv(s: State, next: TaskId)
    requires Inv(s) && Enabled(s, Sleep(next))
    ensures Inv(Apply(s, Sleep(next)))
  {
    hide ListOk, MutexOk, TaskOk, IsTop;
    assert Runnable(s, s.current);
    RestKeepsMutexes(s, s.current, Asleep);
    SwitchKeeps(s.(status := s.status[s.current := Asleep]), next);
  }

  lemma WakeKeepsInv(s: State, u: TaskId)
    requires Inv(s) && Enabled(s, Wake(u))
    ensures Inv(Apply(s, Wake(u)))
  {
    hide ListOk, MutexOk, TaskOk;
    RestKeepsMutexes(s, u, Ready);
    var next := if s.tcb[u].priority > s.tcb[s.current].priority then u else s.current;
    SwitchKeeps(s.(status := s.status[u := Ready]), next);
  }

  /** Whoever takes a free mutex is at least as important as everybody who waits for it, because a
      woken task that is still to try again does not run. */
  lemma TakerLeads(s: State, x: MutexId)
    requires Inv(s) && Enabled(s, Take(x))
    ensures forall t :: WaitsFor(s, t, x) ==> s.tcb[t].priority <= s.tcb[s.current].priority
  {
    assert MutexOk(s, x);
    forall t | WaitsFor(s, t, x) ensures s.tcb[t].priority <= s.tcb[s.current].priority {
      var w :| Leads(s, w, x);
      assert Runnable(s, w);
    }
  }

  lemma NotTheHolder(s: State, x: MutexId)
    requires Inv(s) && s.current in s.tcb && s.tcb[s.current].mutexesHeld == 0
    ensures x in s.holder ==> s.holder[x] != Task(s.current)
  {
    assert x in s.holder ==> MutexOk(s, x);
  }

  lemma TakeKeepsOwn(s: State, x: MutexId)
    requires Inv(s) && Enabled(s, Take(x))
    ensures MutexOk(Taken(s, x), x)
  {
    hide ListOk, IsTop;
    TakerLeads(s, x);
    assert TaskOk(s, s.current);
    assert Exact(Taken(s, x), s.current, x);
  }

  lemma TakeKeepsOther(s: State, x: MutexId, y: MutexId)
    requires Inv(s) && Enabled(s, Take(x)) && y in s.holder && y != x
    ensures MutexOk(Taken(s, x), y)
  {
    hide ListOk, IsTop, Exact, TaskOk;
    assert MutexOk(s, y);
    NotTheHolder(s, y);
    SameWaits(s, Taken(s, x), y);
  }

  lemma TakeMutexes(s: State, x: MutexId)
    requires Inv(s) && Enabled(s, Take(x))
    ensures forall y :: y in s.holder ==> MutexOk(Taken(s, x), y) && s.holder[y] != Task(s.current)
  {
    hide Inv, MutexOk;
    forall y | y in s.holder ensures MutexOk(Taken(s, x), y) && s.holder[y] != Task(s.current) {
      NotTheHolder(s, y);
      if y == x {
        TakeKeepsOwn(s, x);
      } else {
        TakeKeepsOther(s, x, y);
      }
    }
  }

  lemma TakeKeepsInv(s: State, x: MutexId)
    requires Inv(s) && Enabled(s, Take(x))
    ensures Inv(Apply(s, Take(x)))
  {
    hide ListOk, MutexOk;
    var r := Taken(s, x);
    SameLists(s, r);
    TakeMutexes(s, x);
    forall t | t in r.tcb ensures TaskOk(r, t) {
      assert TaskOk(s, t);
    }
    assert r == r.(current := s.current);
    SwitchKeeps(r, s.current);
  }

  /** The front of the list is the most important waiter. */
  lemma HeadLeads(s: State, x: MutexId)
    requires ListOk(s, x) && s.waiters[x] != [] && forall t :: t in s.tcb ==> TaskOk(s, t)
    ensures WaitsFor(s, s.waiters[x][0], x)
    ensures forall t :: WaitsFor(s, t, x) ==> s.tcb[t].priority <= s.tcb[s.waiters[x][0]].priority
  {
    var q := s.waiters[x];
    assert q[0] in q;
    forall t | WaitsFor(s, t, x) ensures s.tcb[t].priority <= s.tcb[q[0]].priority {
      assert t in q;
      var i :| 0 <= i < |q| && q[i] == t;
      assert Keys(s.tcb, q)[0] <= Keys(s.tcb, q)[i];
      assert TaskOk(s, t) && TaskOk(s, q[0]);
    }
  }

  /** The list of the mutex after the running task has joined it. */
  lemma JoinedList(s: State, x: MutexId)
    requires Inv(s) && Tries(s, x) && s.holder[x].Task? && s.holder[x].id in s.tcb && CanInsert(s, x)
    requires s.tcb[s.current].priority < s.maxPriorities && !WaitsFor(s, s.holder[x].id, x)
    requires s.holder[x].id != s.current
    ensures ListOk(Blocked(s, x), x)
  {
    hide MutexOk, TaskOk, IsTop, Inherit, Sorted, NoDup;
    var c, q, r := s.current, s.waiters[x], Blocked(s, x);
    assert ListOk(s, x);
    assert c !in q;
    var i := InsertPosition(Keys(s.tcb, q), s.tcb[c].eventValue);
    NoDupInsert(q, i, c);
    forall j | 0 <= j < |q| ensures q[j] != s.holder[x].id {
      assert q[j] in q;
    }
    JoinedSorted(s.tcb, r.tcb, q, c);
  }

  lemma JoinedSorted(before: map<TaskId, Tcb>, after: map<TaskId, Tcb>, q: seq<TaskId>, c: TaskId)
    requires c in before && c in after && after[c].eventValue == before[c].eventValue
    requires forall i :: 0 <= i < |q| ==>
               q[i] in before && q[i] in after && after[q[i]].eventValue == before[q[i]].eventValue
    requires Sorted(Keys(before, q))
    ensures var r := InsertAt(q, InsertPosition(Keys(before, q), before[c].eventValue), c);
            (forall i :: 0 <= i < |r| ==> r[i] in after) && Sorted(Keys(after, r))
  {
    var keys, v := Keys(before, q), before[c].eventValue;
    var i := InsertPosition(keys, v);
    SortedInsertStable(keys, v);
    assert Keys(after, InsertAt(q, i, c)) == InsertAt(keys, i, v);
  }

  /** The holder a task waits for: not itself, not waiting, and holding this mutex only. */
  lemma HolderOf(s: State, x: MutexId)
    requires Inv(s) && x in s.holder && s.holder[x].Task?
    ensures var h := s.holder[x].id;
            && h in s.tcb && h in s.status && s.tcb[h].mutexesHeld == 1 && (s.status[h].Ready? || s.status[h].Asleep?)
            && Exact(s, h, x) && TaskOk(s, h)
            && forall y :: y in s.holder && y != x ==> s.holder[y] != Task(h)
  {
    assert MutexOk(s, x);
  }

  lemma BlockKeepsInv(s: State, x: MutexId, next: TaskId)
    requires Inv(s) && Enabled(s, Block(x, next))
    ensures Inv(Apply(s, Block(x, next)))
  {
    hide ListOk, MutexOk, TaskOk, IsTop, Exact, Inherit;
    HolderOf(s, x);
    JoinedList(s, x);
    BlockLists(s, x);
    BlockMutexes(s, x);
    BlockTasks(s, x);
    SwitchKeeps(Blocked(s, x), next);
  }

  /** A context switch to a task that may be selected. */
  lemma SwitchKeeps(b: State, next: TaskId)
    requires b.tcb.Keys == b.status.Keys && b.holder.Keys == b.waiters.Keys && IsTop(b, next)
    requires forall x :: x in b.waiters ==> ListOk(b, x)
    requires forall x :: x in b.holder ==> MutexOk(b, x)
    requires forall t :: t in b.tcb ==> TaskOk(b, t)
    requires forall x, y :: x in b.holder && y in b.holder && b.holder[x].Task? && b.holder[x] == b.holder[y] ==> x == y
    ensures Inv(b.(current := next))
  {
    var r := b.(current := next);
    SameLists(b, r);
    forall x | x in r.holder ensures MutexOk(r, x) {
      assert MutexOk(b, x);
      SameWaits(b, r, x);
    }
    forall t | t in r.tcb ensures TaskOk(r, t) {
      assert TaskOk(b, t);
    }
  }

  lemma BlockKeepsList(s: State, x: MutexId, y: MutexId)
    requires Inv(s) && Tries(s, x) && s.holder[x].Task? && s.holder[x].id in s.tcb && CanInsert(s, x)
    requires s.tcb[s.current].priority < s.maxPriorities && y in s.waiters && y != x
    ensures ListOk(Blocked(s, x), y)
  {
    hide MutexOk, TaskOk, Sorted, NoDup, IsTop, Exact, InsertPosition;
    var r := Blocked(s, x);
    HolderOf(s, x);
    assert ListOk(s, y);
    assert forall t :: WaitsFor(r, t, y) <==> WaitsFor(s, t, y);
    assert forall i :: 0 <= i < |s.waiters[y]| ==> s.waiters[y][i] in s.waiters[y];
    assert Keys(r.tcb, r.waiters[y]) == Keys(s.tcb, s.waiters[y]);
  }

  lemma BlockLists(s: State, x: MutexId)
    requires Inv(s) && Tries(s, x) && s.holder[x].Task? && s.holder[x].id in s.tcb && CanInsert(s, x)
    requires s.tcb[s.current].priority < s.maxPriorities && ListOk(Blocked(s, x), x)
    ensures forall y :: y in Blocked(s, x).waiters ==> ListOk(Blocked(s, x), y)
  {
    hide Inv, ListOk;
    forall y | y in Blocked(s, x).waiters ensures ListOk(Blocked(s, x), y) {
      if y != x {
        BlockKeepsList(s, x, y);
      }
    }
  }

  /** Another mutex: neither its waiters nor its holder or leader are concerned. */
  lemma BlockKeepsOther(s: State, x: MutexId, y: MutexId)
    requires Inv(s) && Tries(s, x) && s.holder[x].Task? && s.holder[x].id in s.tcb && CanInsert(s, x)
    requires s.tcb[s.current].priority < s.maxPriorities && y in s.holder && y != x
    ensures MutexOk(Blocked(s, x), y)
  {
    hide ListOk, Keys, Exact, InsertPosition, IsTop;
    HolderOf(s, x);
    assert MutexOk(s, y) && TaskOk(s, s.current);
    SameWaits(s, Blocked(s, x), y);
  }

  /** The mutex itself: the holder's priority is the maximum again. */
  lemma BlockKeepsOwn(s: State, x: MutexId)
    requires Inv(s) && Tries(s, x) && s.holder[x].Task? && s.holder[x].id in s.tcb && CanInsert(s, x)
    requires s.tcb[s.current].priority < s.maxPriorities
    ensures MutexOk(Blocked(s, x), x)
  {
    hide ListOk, Keys, InsertPosition, IsTop;
    var r, c, h := Blocked(s, x), s.current, s.holder[x].id;
    HolderOf(s, x);
    assert TaskOk(s, c);
    InheritExact(s.maxPriorities, s.tcb[h], s.tcb[c].priority);
    assert WaitsFor(r, c, x);
    if t :| WaitsFor(s, t, x) && s.tcb[t].priority == s.tcb[h].priority {
      assert WaitsFor(r, t, x);
    }
    assert Exact(r, h, x);
  }

  lemma BlockMutexes(s: State, x: MutexId)
    requires Inv(s) && Tries(s, x) && s.holder[x].Task? && s.holder[x].id in s.tcb && CanInsert(s, x)
    requires s.tcb[s.current].priority < s.maxPriorities
    ensures forall y :: y in Blocked(s, x).holder ==> MutexOk(Blocked(s, x), y)
  {
    hide Inv, MutexOk, Inherit;
    BlockKeepsOwn(s, x);
    forall y | y in Blocked(s, x).holder ensures MutexOk(Blocked(s, x), y) {
      if y != x {
        BlockKeepsOther(s, x, y);
      }
    }
  }

  lemma BlockTasks(s: State, x: MutexId)
    requires Inv(s) && Tries(s, x) && s.holder[x].Task? && s.holder[x].id in s.tcb && CanInsert(s, x)
    requires s.tcb[s.current].priority < s.maxPriorities
    ensures forall t :: t in Blocked(s, x).tcb ==> TaskOk(Blocked(s, x), t)
    ensures Blocked(s, x).tcb.Keys == Blocked(s, x).status.Keys == s.tcb.Keys
  {
    hide ListOk, Keys;
    var r, c, h := Blocked(s, x), s.current, s.holder[x].id;
    HolderOf(s, x);
    forall t | t in r.tcb ensures TaskOk(r, t) {
      assert TaskOk(s, t);
    }
  }

  // ---------- Giving a mutex back ----------

  /** The list of the mutex without its front. */
  lemma GivenOwnList(s: State, x: MutexId)
    requires Inv(s) && Gives(s, x)
    ensures ListOk(Given(s, x), x)
  {
    hide MutexOk, TaskOk, IsTop, Sorted, NoDup, Exact;
    var r, q := Given(s, x), s.waiters[x];
    assert ListOk(s, x);
    assert s.current !in q;
    assert forall i :: 0 <= i < |q| ==> q[i] in q;
    assert Keys(s.tcb, q) == Keys(r.tcb, q);
    if q != [] {
      FrontGone(r.tcb, q);
    }
  }

  lemma GivenOtherList(s: State, x: MutexId, y: MutexId)
    requires Inv(s) && Gives(s, x) && y in s.waiters && y != x
    ensures ListOk(Given(s, x), y)
  {
    hide MutexOk, TaskOk, IsTop, Sorted, NoDup, Exact;
    var r := Given(s, x);
    assert ListOk(s, y) && ListOk(s, x);
    assert s.current !in s.waiters[y];
    assert forall i :: 0 <= i < |s.waiters[y]| ==> s.waiters[y][i] in s.waiters[y];
    assert Keys(s.tcb, s.waiters[y]) == Keys(r.tcb, s.waiters[y]);
    if s.waiters[x] != [] {
      assert s.waiters[x][0] in s.waiters[x] && WaitsFor(s, s.waiters[x][0], x);
    }
    assert forall t :: WaitsFor(r, t, y) <==> WaitsFor(s, t, y);
  }

  lemma GivenLists(s: State, x: MutexId)
    requires Inv(s) && Gives(s, x)
    ensures forall y :: y in Given(s, x).waiters ==> ListOk(Given(s, x), y)
  {
    hide Inv, ListOk, Disinherit;
    GivenOwnList(s, x);
    forall y | y in Given(s, x).waiters ensures ListOk(Given(s, x), y) {
      if y != x {
        GivenOtherList(s, x, y);
      }
    }
  }

  lemma FrontGone(tcb: map<TaskId, Tcb>, q: seq<TaskId>)
    requires q != [] && NoDup(q) && (forall i :: 0 <= i < |q| ==> q[i] in tcb) && Sorted(Keys(tcb, q))
    ensures NoDup(q[1..]) && (forall t :: t in q[1..] <==> t in q && t != q[0])
    ensures Sorted(Keys(tcb, q[1..]))
  {
    assert q == [q[0]] + q[1..];
    assert Keys(tcb, q[1..]) == Keys(tcb, q)[1..];
  }

  lemma GiveKeepsOther(s: State, x: MutexId, y: MutexId)
    requires Inv(s) && Gives(s, x) && y in s.holder && y != x
    ensures MutexOk(Given(s, x), y)
  {
    hide IsTop, Keys, Exact, Disinherit, TaskOk, Sorted, NoDup;
    HolderOf(s, x);
    assert MutexOk(s, y) && ListOk(s, x);
    assert s.waiters[x] != [] ==> s.waiters[x][0] in s.waiters[x];
    hide ListOk;
    SameWaits(s, Given(s, x), y);
  }

  /** The woken task leads the remaining waiters. */
  lemma GiveKeepsOwn(s: State, x: MutexId)
    requires Inv(s) && Gives(s, x) && s.status[s.current].Ready?
    ensures MutexOk(Given(s, x), x)
  {
    hide IsTop, Keys, Exact, MutexOk, TaskOk;
    var r, q := Given(s, x), s.waiters[x];
    assert ListOk(s, x);
    if q != [] {
      HeadLeads(s, x);
      assert Leads(r, q[0], x);
    } else {
      NobodyWaits(s, x);
      assert forall t :: WaitsFor(r, t, x) ==> WaitsFor(s, t, x);
    }
    FreeMutexOk(r, x);
  }

  lemma FreeMutexOk(r: State, x: MutexId)
    requires x in r.holder && r.holder[x] == Nobody
    requires (exists w :: Leads(r, w, x)) || forall t :: !WaitsFor(r, t, x)
    ensures MutexOk(r, x)
  {
  }

  lemma GivenMutexes(s: State, x: MutexId)
    requires Inv(s) && Gives(s, x) && s.status[s.current].Ready?
    ensures forall y :: y in Given(s, x).holder ==> MutexOk(Given(s, x), y)
  {
    hide Inv, MutexOk, Disinherit;
    GiveKeepsOwn(s, x);
    forall y | y in Given(s, x).holder ensures MutexOk(Given(s, x), y) {
      if y != x {
        GiveKeepsOther(s, x, y);
      }
    }
  }

  lemma NobodyWaits(s: State, x: MutexId)
    requires x in s.waiters && ListOk(s, x) && s.waiters[x] == []
    ensures forall t :: !WaitsFor(s, t, x)
  {
  }

  lemma GivenTask(s: State, x: MutexId, t: TaskId)
    requires Inv(s) && Gives(s, x) && s.status[s.current].Ready? && t in s.tcb
    ensures Given(s, x).tcb.Keys == Given(s, x).status.Keys == s.tcb.Keys
    ensures TaskOk(Given(s, x), t)
  {
    hide Keys, IsTop, Exact, MutexOk, Sorted, NoDup;
    HolderOf(s, x);
    assert ListOk(s, x) && TaskOk(s, t);
    if s.waiters[x] != [] {
      assert s.waiters[x][0] in s.waiters[x];
      assert TaskOk(s, s.waiters[x][0]);
    }
  }

  lemma GivenTasks(s: State, x: MutexId)
    requires Inv(s) && Gives(s, x) && s.status[s.current].Ready?
    ensures forall t :: t in Given(s, x).tcb ==> TaskOk(Given(s, x), t)
    ensures Given(s, x).tcb.Keys == Given(s, x).status.Keys
  {
    hide Inv, TaskOk, Disinherit;
    GivenTask(s, x, s.current);
    forall t | t in Given(s, x).tcb ensures TaskOk(Given(s, x), t) {
      GivenTask(s, x, t);
    }
  }

  /** If no context switch is requested the giver is still at the top: either it kept its priority, or
      the most important waiter does not exceed its base priority. */
  lemma GiverStaysOnTop(s: State, x: MutexId)
    requires Inv(s) && Gives(s, x) && s.status[s.current].Ready? && !GiveSwitches(s, x)
    ensures IsTop(Given(s, x), s.current)
  {
    hide ListOk, Keys;
    var r, c, q := Given(s, x), s.current, s.waiters[x];
    HolderOf(s, x);
    assert ListOk(s, x);
    if q != [] {
      HeadLeads(s, x);
    } else {
      NobodyWaits(s, x);
    }
    assert r.tcb[c].priority == s.tcb[c].priority;
    assert IsTop(s, c);
  }

  lemma GiveKeepsInv(s: State, x: MutexId, next: TaskId)
    requires Inv(s) && Enabled(s, Give(x, next))
    ensures Inv(Apply(s, Give(x, next)))
  {
    hide ListOk, MutexOk, TaskOk, IsTop, Disinherit;
    GivenLists(s, x);
    GivenMutexes(s, x);
    GivenTasks(s, x);
    if GiveSwitches(s, x) {
      SwitchKeeps(Given(s, x), next);
    } else {
      GiverStaysOnTop(s, x);
      SwitchKeeps(Given(s, x), s.current);
    }
  }

  lemma StepKeepsInv(s: State, step: Step)
    requires Inv(s) && Enabled(s, step)
    ensures Inv(Apply(s, step))
  {
    hide Inv, Apply, Enabled;
    match step
    case Take(x) => TakeKeepsInv(s, x);
    case Block(x, next) => BlockKeepsInv(s, x, next);
    case Give(x, next) => GiveKeepsInv(s, x, next);
    case Sleep(next) => SleepKeepsInv(s, next);
    case Wake(t) => WakeKeepsInv(s, t);
    case Yield(next) => YieldKeepsInv(s, next);
  }

  /** The side conditions of blocking and giving always hold: only the state of the mutex decides
      which of the steps a task can take. */
  lemma StepsAreDefined(s: State, x: MutexId)
    requires Inv(s) && x in s.holder
    ensures Tries(s, x) && s.holder[x].Task? ==>
            s.holder[x].id in s.tcb && CanInsert(s, x) && s.tcb[s.current].priority < s.maxPriorities
    ensures s.holder[x] == Task(s.current) ==> Gives(s, x) && s.status[s.current].Ready?
  {
    assert MutexOk(s, x) && ListOk(s, x);
    assert TaskOk(s, s.current);
    if s.holder[x] == Task(s.current) {
      assert s.waiters[x] != [] ==> s.waiters[x][0] in s.waiters[x];
    }
  }

  // ---------- What each step does ----------

  /** Which steps the running task can take. */
  lemma EnabledExact(s: State, x: MutexId, next: TaskId)
    requires Inv(s) && x in s.holder
    ensures var c := s.current;
            && (Tries(s, x) <==> s.tcb[c].mutexesHeld == 0 && s.status[c] in {Ready, Woken(x)})
            && (Enabled(s, Take(x)) <==> Tries(s, x) && s.holder[x] == Nobody)
            && (Enabled(s, Block(x, next)) <==> Tries(s, x) && s.holder[x].Task? && IsTop(Blocked(s, x), next))
            && (Enabled(s, Give(x, next)) <==>
                  s.holder[x] == Task(c) && (GiveSwitches(s, x) ==> IsTop(Given(s, x), next)))
            && (Enabled(s, Wake(next)) <==> next in s.status && s.status[next].Asleep?)
            && (Enabled(s, Sleep(next)) <==>
                  s.status[c].Ready? && IsTop(s.(status := s.status[c := Asleep]), next))
            && (Enabled(s, Yield(next)) <==> IsTop(s, next))
  {
    hide ListOk, Exact, Sorted, NoDup, InsertPosition;
    StepsAreDefined(s, x);
    assert Runnable(s, s.current);
  }

  /** The running task holds the mutex and one mutex; nothing else changes. */
  lemma TakeExact(s: State, x: MutexId)
    requires Inv(s) && Enabled(s, Take(x))
    ensures var r, c := Apply(s, Take(x)), s.current;
            && s.holder[x] == Nobody && r.holder == s.holder[x := Task(c)]
            && r.tcb == s.tcb[c := s.tcb[c].(mutexesHeld := 1)]
            && r.status == s.status[c := Ready] && r.waiters == s.waiters && r.current == c
            && r.maxPriorities == s.maxPriorities
  {
  }

  /** The holder is raised to the priority of the running task if that is higher.  The running task joins
      the waiters, behind everybody at least as important and in front of everybody less important. */
  lemma BlockExact(s: State, x: MutexId, next: TaskId)
    requires Inv(s) && Enabled(s, Block(x, next))
    ensures var (r, c, h, q) := (Apply(s, Block(x, next)), s.current, s.holder[x].id, s.waiters[x]);
            && r.holder == s.holder && r.current == next && r.status == s.status[c := Waiting(x)]
            && r.maxPriorities == s.maxPriorities && c != h && h in s.tcb && r.tcb == s.tcb[h := r.tcb[h]]
            && r.tcb[h].priority == Max(s.tcb[h].priority, s.tcb[c].priority)
            && r.tcb[h].basePriority == s.tcb[h].basePriority && r.tcb[h].mutexesHeld == s.tcb[h].mutexesHeld
            && exists i :: 0 <= i <= |q| && r.waiters == s.waiters[x := InsertAt(q, i, c)]
                 && (forall j :: 0 <= j < i ==> q[j] in s.tcb && s.tcb[c].priority <= s.tcb[q[j]].priority)
                 && (forall j :: i <= j < |q| ==> q[j] in s.tcb && s.tcb[q[j]].priority < s.tcb[c].priority)
  {
    hide ListOk, MutexOk, IsTop, Exact, NoDup, Inherit, TaskOk;
    var c, h, q := s.current, s.holder[x].id, s.waiters[x];
    HolderOf(s, x);
    NotTheHolder(s, x);
    AccountOk(s, h);
    InheritExact(s.maxPriorities, s.tcb[h], s.tcb[c].priority);
    PlaceAmongWaiters(s, x);
  }

  lemma AccountOk(s: State, t: TaskId)
    requires Inv(s) && t in s.tcb && (s.tcb[t].mutexesHeld != 0 ==> s.tcb[t].basePriority <= s.tcb[t].priority)
    ensures Accounted(s.tcb[t])
  {
    assert TaskOk(s, t);
  }

  lemma PlaceAmongWaiters(s: State, x: MutexId)
    requires Inv(s) && Tries(s, x) && CanInsert(s, x)
    ensures var c, q := s.current, s.waiters[x];
            var i := InsertPosition(Keys(s.tcb, q), s.tcb[c].eventValue);
            && i <= |q|
            && (forall j :: 0 <= j < i ==> s.tcb[c].priority <= s.tcb[q[j]].priority)
            && (forall j :: i <= j < |q| ==> s.tcb[q[j]].priority < s.tcb[c].priority)
  {
    hide MutexOk, IsTop;
    var c, q := s.current, s.waiters[x];
    var keys, v := Keys(s.tcb, q), s.tcb[c].eventValue;
    assert ListOk(s, x);
    SortedInsertStable(keys, v);
    assert TaskOk(s, c);
    forall j | 0 <= j < |q|
      ensures if j < InsertPosition(keys, v) then s.tcb[c].priority <= s.tcb[q[j]].priority
              else s.tcb[q[j]].priority < s.tcb[c].priority
    {
      assert TaskOk(s, q[j]);
      assert keys[j] == s.tcb[q[j]].eventValue;
    }
  }

  /** The mutex is free and the giver is back at its base priority.  The first waiter, and nobody else, is
      woken.  There is a context switch iff the woken task is more important than the giver now is, or, when
      nobody waits, iff the giver has lost priority. */
  lemma GiveExact(s: State, x: MutexId, next: TaskId)
    requires Inv(s) && Enabled(s, Give(x, next))
    ensures var (r, c, q) := (Apply(s, Give(x, next)), s.current, s.waiters[x]);
            && s.holder[x] == Task(c) && r.holder == s.holder[x := Nobody] && r.maxPriorities == s.maxPriorities
            && r.tcb == s.tcb[c := r.tcb[c]] && r.tcb[c].mutexesHeld == 0
            && r.tcb[c].priority == r.tcb[c].basePriority == s.tcb[c].basePriority
            && (q == [] ==> r.waiters == s.waiters && r.status == s.status)
            && (q == [] ==> r.current == if s.tcb[c].basePriority < s.tcb[c].priority then next else c)
            && (q != [] ==>
                  && r.waiters == s.waiters[x := q[1..]] && r.status == s.status[q[0] := Woken(x)]
                  && q[0] in s.tcb
                  && r.current == if s.tcb[c].basePriority < s.tcb[q[0]].priority then next else c)
  {
    hide ListOk, IsTop, Exact, Disinherit, TaskOk;
    var c, q := s.current, s.waiters[x];
    HolderOf(s, x);
    HolderBase(s, c, x);
    AccountOk(s, c);
    DisinheritExact(s.maxPriorities, s.tcb[c]);
    if q != [] {
      FrontWaits(s, x);
    }
  }

  lemma HolderBase(s: State, h: TaskId, x: MutexId)
    requires Exact(s, h, x)
    ensures s.tcb[h].basePriority <= s.tcb[h].priority
  {
  }

  lemma FrontWaits(s: State, x: MutexId)
    requires Inv(s) && x in s.waiters && s.waiters[x] != []
    ensures WaitsFor(s, s.waiters[x][0], x)
  {
    assert ListOk(s, x);
    assert s.waiters[x][0] in s.waiters[x];
  }

  /** Falling asleep, being woken by an interrupt and yielding change no priority and no mutex.  An
      interrupt switches to the task that it has woken iff that is more important than the running one. */
  lemma RestExact(s: State, t: TaskId, next: TaskId)
    requires Inv(s)
    ensures Enabled(s, Sleep(next)) ==>
            Apply(s, Sleep(next)) == s.(status := s.status[s.current := Asleep], current := next)
    ensures Enabled(s, Yield(next)) ==> Apply(s, Yield(next)) == s.(current := next)
    ensures Enabled(s, Wake(t)) ==>
            var r := Apply(s, Wake(t));
            && r.tcb == s.tcb && r.holder == s.holder && r.waiters == s.waiters && r.maxPriorities == s.maxPriorities
            && r.status == s.status[t := Ready]
            && (r.current == t <==> s.tcb[s.current].priority < s.tcb[t].priority)
            && (r.current == t || r.current == s.current)
  {
  }

  // ---------- Whole runs ----------

  /** Every task is ready at its base priority and holds nothing; every mutex is free. */
  ghost predicate IsInit(s: State) {
    && s.tcb.Keys == s.status.Keys && s.holder.Keys == s.waiters.Keys && IsTop(s, s.current)
    && (forall t :: t in s.tcb ==>
          var v := s.tcb[t];
          && s.status[t].Ready? && v.mutexesHeld == 0 && v.priority == v.basePriority < s.maxPriorities
          && !v.eventInUse && v.eventValue == s.maxPriorities - v.priority)
    && (forall x :: x in s.holder ==> s.holder[x] == Nobody && s.waiters[x] == [])
  }

  ghost predicate IsRun(states: seq<State>, steps: seq<Step>) {
    && |states| == |steps| + 1 && IsInit(states[0])
    && forall i :: 0 <= i < |steps| ==> Enabled(states[i], steps[i]) && states[i+1] == Apply(states[i], steps[i])
  }

  lemma {:induction false} RunInv(states: seq<State>, steps: seq<Step>, k: nat)
    requires IsRun(states, steps) && k < |states|
    ensures Inv(states[k])
  {
    if k != 0 {
      RunInv(states, steps, k - 1);
      StepKeepsInv(states[k-1], steps[k-1]);
    }
  }

  /** At every step boundary the holder of a mutex runs at exactly the maximum of its base priority
      and the priorities of the tasks waiting for the mutex; a task that holds none runs at its base
      priority; a free mutex that is waited for has a woken ready task at least as important as every
      waiter; and the running task is a most important ready task. */
  lemma InheritanceIsExact(states: seq<State>, steps: seq<Step>, k: nat)
    requires IsRun(states, steps) && k < |states|
    ensures var s := states[k];
            && (forall x :: x in s.holder && s.holder[x].Task? ==> Exact(s, s.holder[x].id, x))
            && (forall t :: t in s.tcb && s.tcb[t].mutexesHeld == 0 ==> s.tcb[t].priority == s.tcb[t].basePriority)
            && (forall x, t :: x in s.holder && s.holder[x] == Nobody && WaitsFor(s, t, x) ==>
                  exists w :: Leads(s, w, x) && Runnable(s, w))
            && IsTop(s, s.current)
  {
    RunInv(states, steps, k);
    var s := states[k];
    forall x | x in s.holder && s.holder[x].Task? ensures Exact(s, s.holder[x].id, x) {
      assert MutexOk(s, x);
    }
    forall t | t in s.tcb && s.tcb[t].mutexesHeld == 0 ensures s.tcb[t].priority == s.tcb[t].basePriority {
      assert TaskOk(s, t);
    }
    forall x, t | x in s.holder && s.holder[x] == Nobody && WaitsFor(s, t, x)
      ensures exists w :: Leads(s, w, x) && Runnable(s, w)
    {
      assert MutexOk(s, x);
      var w :| Leads(s, w, x);
      assert Runnable(s, w);
    }
  }

  /** No priority inversion: while a task waits for a mutex that is free, or whose holder is ready, whoever
      runs is at least as important as the waiting task; and a running task that holds no mutex is so at its
      base priority. */
  lemma NoInversion(states: seq<State>, steps: seq<Step>, k: nat, t: TaskId, x: MutexId)
    requires IsRun(states, steps) && k < |states| && WaitsFor(states[k], t, x) && x in states[k].holder
    requires var s := states[k];
             s.holder[x].Task? ==> s.holder[x].id in s.status && s.status[s.holder[x].id].Ready?
    ensures var s := states[k];
            && s.current in s.tcb && s.tcb[t].priority <= s.tcb[s.current].priority
            && (s.tcb[s.current].mutexesHeld == 0 ==> s.tcb[t].priority <= s.tcb[s.current].basePriority)
  {
    hide IsRun;
    var s := states[k];
    RunInv(states, steps, k);
    InheritanceIsExact(states, steps, k);
    if s.holder[x].Task? {
      assert Exact(s, s.holder[x].id, x);
      assert Runnable(s, s.holder[x].id);
    } else {
      var w :| Leads(s, w, x) && Runnable(s, w);
    }
  }
}
