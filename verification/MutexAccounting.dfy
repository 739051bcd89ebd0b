/**
 Mutexes in general (queue.c, tasks.c): any number of mutexes, waits that time out, priorities set at
 any moment, recursive mutexes.  The accounts of every task stay right: it holds as many mutexes as
 name it, never runs below its base priority, and above it only while it holds one.
 */
module MutexAccounting {
  import opened Priorities
  import opened TaskLists

  type MutexId = nat

  /** `recursions` is uxRecursiveCallCount; it stays 0 for a mutex that is not recursive. */
  datatype Mutex = Mutex(holder: Holder, recursive: bool, recursions: nat)

  datatype State = State(maxPriorities: nat, tasks: map<TaskId, Tcb>, mutexes: map<MutexId, Mutex>)

  /** `t` is the running task in every step.  `highest` is what prvGetHighestPriorityOfWaitToReceiveList
      yields: the priority that the first waiter's event item records, or 0. */
  datatype Step =
    | Take(t: TaskId, x: MutexId)
    | Give(t: TaskId, x: MutexId)
    | TakeRecursive(t: TaskId, x: MutexId)
    | GiveRecursive(t: TaskId, x: MutexId)
    | Wait(t: TaskId, x: MutexId)
    | TimeOut(t: TaskId, x: MutexId, inheritanceOccurred: bool, highest: nat)
    | SetPriority(t: TaskId, priority: nat)

  /** What the callers see to. */
  predicate Callable(s: State, step: Step) {
    && step.t in s.tasks
    && (!step.SetPriority? ==> step.x in s.mutexes)
    && match step
       case Take(_, x) => !s.mutexes[x].recursive && s.mutexes[x].holder == Nobody
       case Give(t, x) => !s.mutexes[x].recursive && s.mutexes[x].holder == Task(t)
       case TakeRecursive(t, x) => s.mutexes[x].recursive && s.mutexes[x].holder in {Nobody, Task(t)}
       case GiveRecursive(_, x) => s.mutexes[x].recursive
       case Wait(_, x) => s.mutexes[x].holder != Nobody
       case TimeOut(_, _, _, highest) => highest < s.maxPriorities
       case SetPriority(_, priority) => priority < s.maxPriorities
  }

  /** The holder whose fields a step updates holds a mutex (the assertions on uxMutexesHeld and on the
      recursion count), and priorities are in range. */
  predicate Sound(s: State, step: Step)
    requires Callable(s, step)
  {
    if step.SetPriority? then true
    else
      var h := s.mutexes[step.x].holder;
      && s.tasks[step.t].priority < s.maxPriorities
      && (h.Task? ==> h.id in s.tasks && 0 < s.tasks[h.id].mutexesHeld && s.tasks[h.id].basePriority < s.maxPriorities)
      && (step.GiveRecursive? && h == Task(step.t) ==> 0 < s.mutexes[step.x].recursions)
  }

  /** The assertion in vTaskPriorityDisinheritAfterTimeout: when the holder's priority is about to drop, the
      holder is not the running task. */
  predicate HolderIsNotRunning(s: State, step: Step)
    requires Callable(s, step) && Sound(s, step)
  {
    step.TimeOut? && step.inheritanceOccurred && s.mutexes[step.x].holder.Task? ==>
      var h := s.mutexes[step.x].holder.id;
      DisinheritAfterTimeout(s.maxPriorities, s.tasks[h], step.highest) != s.tasks[h] ==> h != step.t
  }

  /** All assertions on the way hold. */
  predicate Asserted(s: State, step: Step)
    requires Callable(s, step)
  {
    Sound(s, step) && HolderIsNotRunning(s, step)
  }

  predicate Enabled(s: State, step: Step) {
    Callable(s, step) && Asserted(s, step)
  }

  /** The caller times out on a mutex that it holds itself, the only one it holds, and runs at a priority
      that neither its base priority nor a remaining waiter accounts for. */
  predicate SelfTimeOut(s: State, step: Step)
    requires Callable(s, step)
  {
    && step.TimeOut? && step.inheritanceOccurred && s.mutexes[step.x].holder == Task(step.t)
    && s.tasks[step.t].mutexesHeld == 1
    && s.tasks[step.t].priority != Max(s.tasks[step.t].basePriority, step.highest)
  }

  ghost function HeldBy(mutexes: map<MutexId, Mutex>, t: TaskId): set<MutexId> {
    set x | x in mutexes && mutexes[x].holder == Task(t)
  }

  ghost predicate TaskOk(s: State, t: TaskId)
    requires t in s.tasks
  {
    && Accounted(s.tasks[t]) && s.tasks[t].priority < s.maxPriorities
    && s.tasks[t].mutexesHeld == |HeldBy(s.mutexes, t)|
  }

  ghost predicate MutexOk(s: State, x: MutexId)
    requires x in s.mutexes
  {
    var m := s.mutexes[x];
    && (m.holder.Task? ==> m.holder.id in s.tasks)
    && (if m.recursive then m.holder == Nobody <==> m.recursions == 0 else m.recursions == 0)
  }

  ghost predicate Inv(s: State) {
    (forall t :: t in s.tasks ==> TaskOk(s, t)) && forall x :: x in s.mutexes ==> MutexOk(s, x)
  }

  /** The holder named by a mutex holds at least one: the assertions on uxMutexesHeld hold. */
  lemma HolderHolds(s: State, x: MutexId)
    requires Inv(s) && x in s.mutexes && s.mutexes[x].holder.Task?
    ensures var h := s.mutexes[x].holder.id;
            h in s.tasks && 0 < s.tasks[h].mutexesHeld && s.tasks[h].basePriority < s.maxPriorities
  {
    var h := s.mutexes[x].holder.id;
    assert MutexOk(s, x) && TaskOk(s, h);
    assert x in HeldBy(s.mutexes, h);
  }

  /** The part of xQueueSemaphoreTake that records the holder. */
  function Taken(s: State, t: TaskId, x: MutexId): State
    requires t in s.tasks && x in s.mutexes
  {
    s.(tasks := s.tasks[t := s.tasks[t].(mutexesHeld := s.tasks[t].mutexesHeld + 1)],
       mutexes := s.mutexes[x := s.mutexes[x].(holder := Task(t))])
  }

  /** The mutex branch of prvCopyDataToQueue. */
  function Given(s: State, t: TaskId, x: MutexId): State
    requires t in s.tasks && x in s.mutexes && 0 < s.tasks[t].mutexesHeld && s.tasks[t].basePriority < s.maxPriorities
  {
    s.(tasks := s.tasks[t := Disinherit(s.maxPriorities, s.tasks[t]).0],
       mutexes := s.mutexes[x := s.mutexes[x].(holder := Nobody)])
  }

  function WithRecursions(s: State, x: MutexId, n: nat): State
    requires x in s.mutexes
  {
    s.(mutexes := s.mutexes[x := s.mutexes[x].(recursions := n)])
  }

  function Apply(s: State, step: Step): State
    requires Callable(s, step) && Sound(s, step)
  {
    match step
    case Take(t, x) => Taken(s, t, x)
    case Give(t, x) => Given(s, t, x)
    case TakeRecursive(t, x) =>
      if s.mutexes[x].holder == Task(t) then WithRecursions(s, x, s.mutexes[x].recursions + 1)
      else WithRecursions(Taken(s, t, x), x, s.mutexes[x].recursions + 1)
    case GiveRecursive(t, x) =>
      if s.mutexes[x].holder != Task(t) then s
      else
        var r := WithRecursions(s, x, s.mutexes[x].recursions - 1);
        if r.mutexes[x].recursions == 0 then Given(r, t, x) else r
    case Wait(t, x) =>
      var h := s.mutexes[x].holder.id;
      s.(tasks := s.tasks[h := Inherit(s.maxPriorities, s.tasks[h], s.tasks[t].priority).0])
    case TimeOut(t, x, inheritanceOccurred, highest) =>
      if inheritanceOccurred && s.mutexes[x].holder.Task? then
        var h := s.mutexes[x].holder.id;
        s.(tasks := s.tasks[h := DisinheritAfterTimeout(s.maxPriorities, s.tasks[h], highest)])
      else s
    case SetPriority(t, priority) => s.(tasks := s.tasks[t := SetBase(s.maxPriorities, s.tasks[t], priority)])
  }

  // ---------- What each step does to priorities ----------

  /** Only task `h` changes, and it keeps its base priority and its wake value. */
  ghost predicate OnlyTask(s: State, r: State, h: TaskId) {
    && r.maxPriorities == s.maxPriorities && h in s.tasks && r.tasks.Keys == s.tasks.Keys
    && (forall u :: u in s.tasks && u != h ==> r.tasks[u] == s.tasks[u])
    && r.tasks[h].basePriority == s.tasks[h].basePriority && r.tasks[h].wake == s.tasks[h].wake
  }

  ghost predicate OnlyMutex(s: State, r: State, x: MutexId) {
    && x in s.mutexes && r.mutexes.Keys == s.mutexes.Keys && r.mutexes[x].recursive == s.mutexes[x].recursive
    && forall y :: y in s.mutexes && y != x ==> r.mutexes[y] == s.mutexes[y]
  }

  /** A task that waits hands the priority that it runs at, inherited or not, to the holder: the holder then
      runs at the maximum of its own and the waiter's, and nothing else changes. */
  lemma WaitExact(s: State, t: TaskId, x: MutexId)
    requires Enabled(s, Wait(t, x)) && Inv(s)
    ensures var r, h := Apply(s, Wait(t, x)), s.mutexes[x].holder.id;
            && OnlyTask(s, r, h) && r.mutexes == s.mutexes
            && r.tasks[h].priority == Max(s.tasks[h].priority, s.tasks[t].priority)
            && r.tasks[h].mutexesHeld == s.tasks[h].mutexesHeld
  {
    var h := s.mutexes[x].holder.id;
    HolderHolds(s, x);
    assert TaskOk(s, h) && TaskOk(s, t);
    InheritExact(s.maxPriorities, s.tasks[h], s.tasks[t].priority);
  }

  /** Taking a free mutex changes nobody's priority. */
  lemma TakeExact(s: State, step: Step)
    requires Enabled(s, step) && (step.Take? || step.TakeRecursive?)
    ensures var r, t, x, first := Apply(s, step), step.t, step.x, s.mutexes[step.x].holder == Nobody;
            && OnlyTask(s, r, t) && OnlyMutex(s, r, x)
            && r.tasks[t].priority == s.tasks[t].priority
            && r.tasks[t].mutexesHeld == s.tasks[t].mutexesHeld + (if first then 1 else 0)
            && r.mutexes[x].holder == Task(t)
            && r.mutexes[x].recursions == s.mutexes[x].recursions + if step.TakeRecursive? then 1 else 0
  {
  }

  /** The give that lets go of a mutex returns the giver to its base priority iff it was its last one; any
      other give leaves every priority alone. */
  lemma GiveExact(s: State, step: Step)
    requires Enabled(s, step) && Inv(s)
    requires step.Give? || (step.GiveRecursive? && s.mutexes[step.x].holder == Task(step.t))
    ensures var r, t, x := Apply(s, step), step.t, step.x;
            var last := step.Give? || s.mutexes[x].recursions == 1;
            && OnlyTask(s, r, t) && OnlyMutex(s, r, x)
            && r.tasks[t].priority ==
               (if last && s.tasks[t].mutexesHeld == 1 then s.tasks[t].basePriority else s.tasks[t].priority)
            && r.tasks[t].mutexesHeld == s.tasks[t].mutexesHeld - (if last then 1 else 0)
            && r.mutexes[x].holder == (if last then Nobody else Task(t))
            && r.mutexes[x].recursions == if step.GiveRecursive? then s.mutexes[x].recursions - 1 else 0
  {
    assert TaskOk(s, step.t) && MutexOk(s, step.x);
    DisinheritExact(s.maxPriorities, s.tasks[step.t]);
  }

  /** A recursive give by a task that is not the holder changes nothing. */
  lemma StrangersGiveExact(s: State, t: TaskId, x: MutexId)
    requires Enabled(s, GiveRecursive(t, x)) && s.mutexes[x].holder != Task(t)
    ensures Apply(s, GiveRecursive(t, x)) == s
  {
  }

  /** A timeout after an inheritance lowers the holder of the mutex to what its base priority and the
      remaining waiters account for iff that mutex is the only one it holds; any other timeout changes
      nothing. */
  lemma TimeOutExact(s: State, t: TaskId, x: MutexId, inheritanceOccurred: bool, highest: nat)
    requires Inv(s) && Callable(s, TimeOut(t, x, inheritanceOccurred, highest))
    requires Sound(s, TimeOut(t, x, inheritanceOccurred, highest))
    ensures var r, holder := Apply(s, TimeOut(t, x, inheritanceOccurred, highest)), s.mutexes[x].holder;
            if inheritanceOccurred && holder.Task? then
              && OnlyTask(s, r, holder.id) && r.mutexes == s.mutexes
              && r.tasks[holder.id].mutexesHeld == s.tasks[holder.id].mutexesHeld
              && r.tasks[holder.id].priority ==
                 if s.tasks[holder.id].mutexesHeld == 1 then Max(s.tasks[holder.id].basePriority, highest)
                 else s.tasks[holder.id].priority
            else r == s
  {
    if inheritanceOccurred && s.mutexes[x].holder.Task? {
      HolderHolds(s, x);
      assert TaskOk(s, s.mutexes[x].holder.id);
      DisinheritAfterTimeoutExact(s.maxPriorities, s.tasks[s.mutexes[x].holder.id], highest);
    }
  }

  /** A new base priority takes effect at once on a task that has inherited nothing, and otherwise only when
      it exceeds what was inherited. */
  lemma SetPriorityExact(s: State, t: TaskId, priority: nat)
    requires Inv(s) && Enabled(s, SetPriority(t, priority))
    ensures var r := Apply(s, SetPriority(t, priority));
            && r.mutexes == s.mutexes && r.tasks.Keys == s.tasks.Keys && r.maxPriorities == s.maxPriorities
            && (forall u :: u in s.tasks && u != t ==> r.tasks[u] == s.tasks[u])
            && r.tasks[t].basePriority == priority && r.tasks[t].mutexesHeld == s.tasks[t].mutexesHeld
            && r.tasks[t].priority == if s.tasks[t].priority == s.tasks[t].basePriority then priority
                                      else Max(s.tasks[t].priority, priority)
  {
    assert TaskOk(s, t);
    SetBaseExact(s.maxPriorities, s.tasks[t], priority);
  }

  /** The steps after which task `h` may be less important than before: giving back its last mutex, a timeout
      on the only mutex it holds, and a lower priority set for it. */
  predicate MayLower(s: State, step: Step, h: TaskId)
    requires Callable(s, step) && h in s.tasks
  {
    match step
    case Give(t, x) => t == h && s.tasks[h].mutexesHeld == 1
    case GiveRecursive(t, x) => t == h && s.tasks[h].mutexesHeld == 1 && s.mutexes[x].holder == Task(h)
                                && s.mutexes[x].recursions == 1
    case TimeOut(_, x, inheritanceOccurred, _) =>
      inheritanceOccurred && s.mutexes[x].holder == Task(h) && s.tasks[h].mutexesHeld == 1
    case SetPriority(t, priority) => t == h && priority < s.tasks[h].basePriority
    case _ => false
  }

  lemma NobodyElseLowered(s: State, step: Step, h: TaskId)
    requires Inv(s) && Callable(s, step) && Sound(s, step) && h in s.tasks && !MayLower(s, step, h)
    ensures var r := Apply(s, step);
            h in r.tasks && s.tasks[h].priority <= r.tasks[h].priority
  {
    hide Inv, Apply, Sound, Inherit, Disinherit, SetBase, DisinheritAfterTimeout;
    AssertionsExact(s, step);
    AccountedTask(s, h);
    match step
    case Take(_, _) => TakeExact(s, step);
    case TakeRecursive(_, _) => TakeExact(s, step);
    case Give(_, _) => GiveExact(s, step);
    case GiveRecursive(t, x) =>
      if s.mutexes[x].holder == Task(t) {
        GiveExact(s, step);
      } else {
        StrangersGiveExact(s, t, x);
      }
    case Wait(t, x) => WaitExact(s, t, x);
    case TimeOut(t, x, inheritanceOccurred, highest) => TimeOutExact(s, t, x, inheritanceOccurred, highest);
    case SetPriority(t, priority) => SetPriorityExact(s, t, priority);
  }

  lemma AccountedTask(s: State, h: TaskId)
    requires Inv(s) && h in s.tasks
    ensures Accounted(s.tasks[h])
  {
    assert TaskOk(s, h);
  }

  // ---------- The accounts stay right ----------

  /** A change to one task that keeps its account and its number of mutexes. */
  lemma RetunedOk(s: State, t: TaskId, v: Tcb)
    requires Inv(s) && t in s.tasks && Accounted(v) && v.priority < s.maxPriorities
    requires v.mutexesHeld == s.tasks[t].mutexesHeld
    ensures Inv(s.(tasks := s.tasks[t := v]))
  {
    var r := s.(tasks := s.tasks[t := v]);
    forall u | u in r.tasks ensures TaskOk(r, u) {
      assert TaskOk(s, u);
    }
    forall x | x in r.mutexes ensures MutexOk(r, x) {
      assert MutexOk(s, x);
    }
  }

  lemma HeldAfter(mutexes: map<MutexId, Mutex>, x: MutexId, m: Mutex, t: TaskId)
    requires x in mutexes
    ensures var before, after := HeldBy(mutexes, t), HeldBy(mutexes[x := m], t);
            |after| == |before| + (if m.holder == Task(t) && x !in before then 1 else 0)
                                - (if m.holder != Task(t) && x in before then 1 else 0)
  {
    var before, after := HeldBy(mutexes, t), HeldBy(mutexes[x := m], t);
    if m.holder == Task(t) {
      assert after == before + {x};
    } else {
      assert after == before - {x};
    }
  }

  lemma TakenOk(s: State, t: TaskId, x: MutexId, n: nat)
    requires Inv(s) && t in s.tasks && x in s.mutexes && s.mutexes[x].holder == Nobody
    requires n == if s.mutexes[x].recursive then 1 else 0
    ensures Inv(WithRecursions(Taken(s, t, x), x, n))
  {
    var r := WithRecursions(Taken(s, t, x), x, n);
    forall u | u in r.tasks ensures TaskOk(r, u) {
      assert TaskOk(s, u);
      HeldAfter(s.mutexes, x, s.mutexes[x].(holder := Task(t)), u);
      HeldAfter(Taken(s, t, x).mutexes, x, r.mutexes[x], u);
    }
    forall y | y in r.mutexes ensures MutexOk(r, y) {
      assert MutexOk(s, y);
    }
  }

  lemma GivenOk(s: State, t: TaskId, x: MutexId)
    requires Inv(s) && t in s.tasks && x in s.mutexes && s.mutexes[x].holder == Task(t)
    requires 0 < s.tasks[t].mutexesHeld && s.tasks[t].basePriority < s.maxPriorities
    ensures Inv(WithRecursions(Given(s, t, x), x, 0))
  {
    var r := WithRecursions(Given(s, t, x), x, 0);
    forall u | u in r.tasks ensures TaskOk(r, u) {
      assert TaskOk(s, u);
      HeldAfter(s.mutexes, x, s.mutexes[x].(holder := Nobody), u);
      HeldAfter(Given(s, t, x).mutexes, x, r.mutexes[x], u);
      DisinheritExact(s.maxPriorities, s.tasks[t]);
    }
    forall y | y in r.mutexes ensures MutexOk(r, y) {
      assert MutexOk(s, y);
    }
  }

  lemma CountedOk(s: State, x: MutexId, n: nat)
    requires Inv(s) && x in s.mutexes && s.mutexes[x].recursive && s.mutexes[x].holder.Task? && 0 < n
    ensures Inv(WithRecursions(s, x, n))
  {
    var r := WithRecursions(s, x, n);
    forall u | u in r.tasks ensures TaskOk(r, u) {
      assert TaskOk(s, u);
      HeldAfter(s.mutexes, x, r.mutexes[x], u);
    }
    forall y | y in r.mutexes ensures MutexOk(r, y) {
      assert MutexOk(s, y);
    }
  }

  /** With the accounts right, the assertions hold except in one case, and in that case one fails. */
  lemma AssertionsExact(s: State, step: Step)
    requires Inv(s) && Callable(s, step)
    ensures Sound(s, step)
    ensures Enabled(s, step) <==> !SelfTimeOut(s, step)
  {
    assert TaskOk(s, step.t);
    if !step.SetPriority? {
      assert MutexOk(s, step.x);
      if s.mutexes[step.x].holder.Task? {
        HolderHolds(s, step.x);
      }
    }
  }

  lemma GiveRecursiveOk(s: State, t: TaskId, x: MutexId)
    requires Inv(s) && t in s.tasks && x in s.mutexes && s.mutexes[x].holder == Task(t) && s.mutexes[x].recursive
    ensures Callable(s, GiveRecursive(t, x)) && Sound(s, GiveRecursive(t, x))
    ensures Inv(Apply(s, GiveRecursive(t, x)))
  {
    hide Inv, Disinherit;
    AssertionsExact(s, GiveRecursive(t, x));
    HolderHolds(s, x);
    if s.mutexes[x].recursions == 1 {
      GivenOk(s, t, x);
      assert WithRecursions(Given(s, t, x), x, 0) == Given(WithRecursions(s, x, 0), t, x);
    } else {
      CountedOk(s, x, s.mutexes[x].recursions - 1);
    }
  }

  lemma WaitOk(s: State, t: TaskId, x: MutexId)
    requires Inv(s) && t in s.tasks && x in s.mutexes && s.mutexes[x].holder.Task?
    ensures Callable(s, Wait(t, x)) && Sound(s, Wait(t, x)) && Inv(Apply(s, Wait(t, x)))
  {
    hide Inherit;
    AssertionsExact(s, Wait(t, x));
    var h := s.mutexes[x].holder.id;
    HolderHolds(s, x);
    assert TaskOk(s, h) && TaskOk(s, t);
    hide Inv;
    InheritExact(s.maxPriorities, s.tasks[h], s.tasks[t].priority);
    RetunedOk(s, h, Inherit(s.maxPriorities, s.tasks[h], s.tasks[t].priority).0);
  }

  lemma TimeOutOk(s: State, t: TaskId, x: MutexId, highest: nat)
    requires Inv(s) && t in s.tasks && x in s.mutexes && s.mutexes[x].holder.Task? && highest < s.maxPriorities
    ensures Callable(s, TimeOut(t, x, true, highest)) && Sound(s, TimeOut(t, x, true, highest))
    ensures Inv(Apply(s, TimeOut(t, x, true, highest)))
  {
    hide DisinheritAfterTimeout;
    AssertionsExact(s, TimeOut(t, x, true, highest));
    var h := s.mutexes[x].holder.id;
    HolderHolds(s, x);
    assert TaskOk(s, h);
    hide Inv;
    DisinheritAfterTimeoutExact(s.maxPriorities, s.tasks[h], highest);
    RetunedOk(s, h, DisinheritAfterTimeout(s.maxPriorities, s.tasks[h], highest));
  }

  lemma SetPriorityOk(s: State, t: TaskId, priority: nat)
    requires Inv(s) && t in s.tasks && priority < s.maxPriorities
    ensures Inv(Apply(s, SetPriority(t, priority)))
  {
    assert TaskOk(s, t);
    SetBaseExact(s.maxPriorities, s.tasks[t], priority);
    RetunedOk(s, t, SetBase(s.maxPriorities, s.tasks[t], priority));
  }

  lemma FreeIsUncounted(s: State, x: MutexId)
    requires Inv(s) && x in s.mutexes
    ensures !s.mutexes[x].recursive || s.mutexes[x].holder == Nobody ==> s.mutexes[x].recursions == 0
  {
    assert MutexOk(s, x);
  }

  /** Every take, give, wait, timeout and priority change keeps the accounts right, whether or not the
      assertion on the holder fails. */
  lemma StepKeepsInv(s: State, step: Step)
    requires Inv(s) && Callable(s, step) && Sound(s, step)
    ensures Inv(Apply(s, step))
  {
    hide Inv, Sound, Inherit, Disinherit, SetBase;
    if !step.SetPriority? {
      FreeIsUncounted(s, step.x);
    }
    match step
    case Take(t, x) =>
      TakenOk(s, t, x, 0);
      assert WithRecursions(Taken(s, t, x), x, 0) == Taken(s, t, x);
    case Give(t, x) =>
      HolderHolds(s, x);
      GivenOk(s, t, x);
      assert WithRecursions(Given(s, t, x), x, 0) == Given(s, t, x);
    case TakeRecursive(t, x) =>
      if s.mutexes[x].holder == Task(t) {
        CountedOk(s, x, s.mutexes[x].recursions + 1);
      } else {
        TakenOk(s, t, x, 1);
      }
    case GiveRecursive(t, x) =>
      if s.mutexes[x].holder == Task(t) {
        GiveRecursiveOk(s, t, x);
      }
    case Wait(t, x) => WaitOk(s, t, x);
    case TimeOut(t, x, inheritanceOccurred, highest) =>
      if inheritanceOccurred && s.mutexes[x].holder.Task? {
        TimeOutOk(s, t, x, highest);
      }
    case SetPriority(t, priority) => SetPriorityOk(s, t, priority);
  }

  // ---------- Whole runs ----------

  /** No mutex is held and every task runs at its base priority. */
  ghost predicate IsInit(s: State) {
    && (forall t :: t in s.tasks ==>
          s.tasks[t].mutexesHeld == 0 && s.tasks[t].priority == s.tasks[t].basePriority < s.maxPriorities)
    && (forall x :: x in s.mutexes ==> s.mutexes[x].holder == Nobody && s.mutexes[x].recursions == 0)
  }

  lemma InitInv(s: State)
    requires IsInit(s)
    ensures Inv(s)
  {
    forall t | t in s.tasks ensures TaskOk(s, t) {
      assert HeldBy(s.mutexes, t) == {};
    }
  }

  /** An assertion that fails may or may not stop the system; here it goes on, so that a run with working
      assertions is a run up to the first one that fails. */
  ghost predicate IsRun(states: seq<State>, steps: seq<Step>) {
    && |states| == |steps| + 1 && IsInit(states[0])
    && forall i :: 0 <= i < |steps| ==> Follows(states[i], steps[i], states[i+1])
  }

  ghost predicate Follows(s: State, step: Step, s': State) {
    Callable(s, step) && (Sound(s, step) ==> s' == Apply(s, step))
  }

  /** In every state of every run: a task holds as many mutexes as name it, it does not run below its base
      priority, and it runs at its base priority whenever it holds none; a recursive mutex is held exactly
      while its calls are not balanced.  An assertion fails only when a task times out on its own mutex at
      an inherited priority, and then it does. */
  lemma {:induction false} AccountsStayRight(states: seq<State>, steps: seq<Step>, k: nat)
    requires IsRun(states, steps) && k < |states|
    ensures Inv(states[k])
    ensures k < |steps| ==>
              Callable(states[k], steps[k]) && (Enabled(states[k], steps[k]) <==> !SelfTimeOut(states[k], steps[k]))
    ensures forall t :: t in states[k].tasks ==>
              var v := states[k].tasks[t];
              && v.mutexesHeld == |HeldBy(states[k].mutexes, t)|
              && v.basePriority <= v.priority < states[k].maxPriorities
              && (HeldBy(states[k].mutexes, t) == {} ==> v.priority == v.basePriority)
    ensures forall x :: x in states[k].mutexes && states[k].mutexes[x].recursive ==>
              (states[k].mutexes[x].holder == Nobody <==> states[k].mutexes[x].recursions == 0)
  {
    hide Apply, Sound;
    if k == 0 {
      InitInv(states[0]);
    } else {
      AccountsStayRight(states, steps, k - 1);
      assert Follows(states[k-1], steps[k-1], states[k]);
      AssertionsExact(states[k-1], steps[k-1]);
      StepKeepsInv(states[k-1], steps[k-1]);
    }
    if k < |steps| {
      assert Follows(states[k], steps[k], states[k+1]);
      AssertionsExact(states[k], steps[k]);
    }
    forall t | t in states[k].tasks ensures TaskOk(states[k], t) {
    }
    forall x | x in states[k].mutexes ensures MutexOk(states[k], x) {
    }
  }

  /** Inheritance over runs, with any number of mutexes: from the moment a task waits for a mutex, its holder
      is at least as important as the waiter was, until the holder gives back its last mutex, a waiter for
      its only mutex times out, or its own priority is set lower. */
  lemma {:induction false} HolderStaysImportant(states: seq<State>, steps: seq<Step>, i: nat, k: nat, t: TaskId,
      x: MutexId, h: TaskId)
    requires IsRun(states, steps) && i < k < |states| && steps[i] == Wait(t, x)
    requires x in states[i].mutexes && states[i].mutexes[x].holder == Task(h) && t in states[i].tasks
    requires forall j :: i < j < k ==>
               h in states[j].tasks && Callable(states[j], steps[j]) ==> !MayLower(states[j], steps[j], h)
    ensures h in states[k].tasks && states[i].tasks[t].priority <= states[k].tasks[h].priority
    decreases k
  {
    hide Inv, Apply, Sound, MayLower, Callable;
    AccountsStayRight(states, steps, k - 1);
    assert Follows(states[k-1], steps[k-1], states[k]);
    AssertionsExact(states[k-1], steps[k-1]);
    if k == i + 1 {
      WaitIsEnabled(states[i], t, x);
      WaitExact(states[i], t, x);
    } else {
      HolderStaysImportant(states, steps, i, k - 1, t, x, h);
      NobodyElseLowered(states[k-1], steps[k-1], h);
    }
  }

  lemma WaitIsEnabled(s: State, t: TaskId, x: MutexId)
    requires Inv(s) && Callable(s, Wait(t, x))
    ensures Enabled(s, Wait(t, x))
  {
    AssertionsExact(s, Wait(t, x));
  }

  // ---------- The run in which an assertion fails ----------

  /** Task `a`, the less important one, holds mutex `x` and runs at priority `priority`. */
  function Contended(a: TaskId, b: TaskId, x: MutexId, held: nat, priority: nat, eventValue: nat,
      holder: Holder): State
  {
    State(3, map[a := Tcb(priority, 1, held, 0, eventValue, false), b := Tcb(2, 2, 0, 0, 1, false)],
          map[x := Mutex(holder, false, 0)])
  }

  /** A task holds a mutex, a more important one waits for it, and then the holder, at the inherited
      priority, waits for its own mutex.  The more important task times out first; the holder itself is
      still in the list with the inherited priority, which therefore stays.  When the holder times out,
      nobody is left to account for its priority, and the assertion fails. */
  lemma HolderTimesOutOnItself(a: TaskId, b: TaskId, x: MutexId)
    requires a != b
    ensures var steps := [Take(a, x), Wait(b, x), Wait(a, x), TimeOut(b, x, true, 2), TimeOut(a, x, true, 0)];
            var s0 := Contended(a, b, x, 0, 1, 2, Nobody);
            var s1 := Contended(a, b, x, 1, 1, 2, Task(a));
            var s2 := Contended(a, b, x, 1, 2, 1, Task(a));
            && IsRun([s0, s1, s2, s2, s2, s1], steps)
            && Inherit(3, s1.tasks[a], s1.tasks[b].priority).1 && Inherit(3, s2.tasks[a], s2.tasks[a].priority).1
            && s2.tasks[a].eventValue + 2 == 3
            && SelfTimeOut(s2, steps[4]) && !Enabled(s2, steps[4])
  {
    hide Follows;
    FirstTwoSteps(a, b, x);
    LastThreeSteps(a, b, x);
  }

  lemma FirstTwoSteps(a: TaskId, b: TaskId, x: MutexId)
    requires a != b
    ensures Follows(Contended(a, b, x, 0, 1, 2, Nobody), Take(a, x), Contended(a, b, x, 1, 1, 2, Task(a)))
    ensures Follows(Contended(a, b, x, 1, 1, 2, Task(a)), Wait(b, x), Contended(a, b, x, 1, 2, 1, Task(a)))
  {
  }

  lemma LastThreeSteps(a: TaskId, b: TaskId, x: MutexId)
    requires a != b
    ensures var s := Contended(a, b, x, 1, 2, 1, Task(a));
            && Follows(s, Wait(a, x), s) && Follows(s, TimeOut(b, x, true, 2), s)
            && Follows(s, TimeOut(a, x, true, 0), Contended(a, b, x, 1, 1, 2, Task(a)))
  {
  }

  // ---------- Recursive mutexes ----------

  /** `n` calls of xQueueTakeMutexRecursive, or of xQueueGiveMutexRecursive, by the same task. */
  function Repeated(s: State, step: Step, n: nat): State
    decreases n
  {
    if n == 0 || !Enabled(s, step) then s else Repeated(Apply(s, step), step, n - 1)
  }

  /** One give of a recursive mutex that the task holds: only the last one lets go of it. */
  lemma OneGive(s: State, t: TaskId, x: MutexId)
    requires Inv(s) && t in s.tasks && x in s.mutexes && s.mutexes[x].recursive && s.mutexes[x].holder == Task(t)
    ensures var step := GiveRecursive(t, x);
            && Enabled(s, step) && 0 < s.mutexes[x].recursions && 0 < s.tasks[t].mutexesHeld
            && var r := Apply(s, step);
            && Inv(r) && t in r.tasks && x in r.mutexes && r.mutexes[x].recursive
            && r.mutexes[x].recursions == s.mutexes[x].recursions - 1
            && r.mutexes[x].holder == (if s.mutexes[x].recursions == 1 then Nobody else Task(t))
            && r.tasks[t].mutexesHeld == s.tasks[t].mutexesHeld - (if s.mutexes[x].recursions == 1 then 1 else 0)
            && r.tasks[t].basePriority == s.tasks[t].basePriority
  {
    hide Inv;
    AssertionsExact(s, GiveRecursive(t, x));
    HolderHolds(s, x);
    StepKeepsInv(s, GiveRecursive(t, x));
  }

  /** Nested takes need as many gives: the mutex stays with the task through all but the last, and
      only the first take and the last give count as holding it. */
  lemma {:induction false} GivesUnwindTakes(s: State, t: TaskId, x: MutexId, n: nat)
    requires Inv(s) && t in s.tasks && x in s.mutexes && s.mutexes[x].recursive
    requires s.mutexes[x].holder == Task(t) && n <= s.mutexes[x].recursions
    ensures var r := Repeated(s, GiveRecursive(t, x), n);
            && Inv(r) && x in r.mutexes && t in r.tasks && r.mutexes[x].recursive
            && r.mutexes[x].recursions == s.mutexes[x].recursions - n
            && r.mutexes[x].holder == (if n == s.mutexes[x].recursions then Nobody else Task(t))
            && r.tasks[t].mutexesHeld == s.tasks[t].mutexesHeld - (if n == s.mutexes[x].recursions then 1 else 0)
            && r.tasks[t].basePriority == s.tasks[t].basePriority
    decreases n
  {
    hide Inv, Callable, Sound, Apply;
    if n == 0 {
      OneGive(s, t, x);
    } else {
      OneGive(s, t, x);
      if n > 1 {
        GivesUnwindTakes(Apply(s, GiveRecursive(t, x)), t, x, n - 1);
      }
    }
  }

  lemma OneNestedTake(s: State, t: TaskId, x: MutexId)
    requires Inv(s) && t in s.tasks && x in s.mutexes && s.mutexes[x].recursive && s.mutexes[x].holder == Task(t)
    ensures Enabled(s, TakeRecursive(t, x))
    ensures Apply(s, TakeRecursive(t, x)) == WithRecursions(s, x, s.mutexes[x].recursions + 1)
    ensures Inv(Apply(s, TakeRecursive(t, x)))
  {
    hide Inv;
    AssertionsExact(s, TakeRecursive(t, x));
    StepKeepsInv(s, TakeRecursive(t, x));
  }

  lemma {:induction false} TakesNest(s: State, t: TaskId, x: MutexId, n: nat)
    requires Inv(s) && t in s.tasks && x in s.mutexes && s.mutexes[x].recursive && s.mutexes[x].holder == Task(t)
    ensures var r := Repeated(s, TakeRecursive(t, x), n);
            && Inv(r) && r.tasks == s.tasks
            && r.mutexes == s.mutexes[x := s.mutexes[x].(recursions := s.mutexes[x].recursions + n)]
    decreases n
  {
    hide Inv, Callable, Sound, Apply;
    if n != 0 {
      OneNestedTake(s, t, x);
      TakesNest(Apply(s, TakeRecursive(t, x)), t, x, n - 1);
    }
  }

  /** The first take of a free recursive mutex. */
  lemma FirstTake(s: State, t: TaskId, x: MutexId)
    requires Inv(s) && t in s.tasks && x in s.mutexes && s.mutexes[x].recursive && s.mutexes[x].holder == Nobody
    ensures s.mutexes[x].recursions == 0 && Enabled(s, TakeRecursive(t, x))
    ensures var r := Apply(s, TakeRecursive(t, x));
            && Inv(r) && r.mutexes == s.mutexes[x := Mutex(Task(t), true, 1)] && t in r.tasks
            && r.tasks[t].mutexesHeld == s.tasks[t].mutexesHeld + 1
            && r.tasks[t].basePriority == s.tasks[t].basePriority
  {
    hide Inv;
    FreeIsUncounted(s, x);
    AssertionsExact(s, TakeRecursive(t, x));
    StepKeepsInv(s, TakeRecursive(t, x));
  }

  /** Taking a free recursive mutex n times and giving it n times leaves it free, and the task with
      the mutexes and the base priority it had. */
  lemma RecursiveRoundTrip(s: State, t: TaskId, x: MutexId, n: nat)
    requires Inv(s) && t in s.tasks && x in s.mutexes && s.mutexes[x].recursive
    requires s.mutexes[x].holder == Nobody && 0 < n
    ensures var r := Repeated(Repeated(s, TakeRecursive(t, x), n), GiveRecursive(t, x), n);
            && Inv(r) && t in r.tasks && x in r.mutexes
            && r.mutexes[x] == s.mutexes[x]
            && r.tasks[t].mutexesHeld == s.tasks[t].mutexesHeld
            && r.tasks[t].basePriority == s.tasks[t].basePriority
  {
    hide Inv, Callable, Sound, Apply;
    FirstTake(s, t, x);
    TakesNest(Apply(s, TakeRecursive(t, x)), t, x, n - 1);
    GivesUnwindTakes(Repeated(s, TakeRecursive(t, x), n), t, x, n);
  }
}
