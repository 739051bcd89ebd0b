/**
 The priority fields of a task and what the mutex operations of tasks.c do to them.

 `maxPriorities` is configMAX_PRIORITIES: event lists are sorted by `maxPriorities - priority`.
 */
module Priorities {

  /** `wake` is the state list item value.  `eventValue` is the event list item value;
      `eventInUse` is its top bit, set while an event group uses the value for something else. */
  datatype Tcb = Tcb(priority: nat, basePriority: nat, mutexesHeld: nat, wake: nat, eventValue: nat, eventInUse: bool)

  function Max(a: nat, b: nat): (r: nat)
    ensures a <= r && b <= r && (r == a || r == b)
  {
    if a < b then b else a
  }

  /** A task never runs below its base priority, and above it only while it holds a mutex. */
  predicate Accounted(t: Tcb) {
    t.basePriority <= t.priority && (t.mutexesHeld == 0 ==> t.priority == t.basePriority)
  }

  /** The event item value follows a change of priority, unless it is in use for something else. */
  ghost predicate EventFollows(maxPriorities: nat, before: Tcb, after: Tcb) {
    && after.eventInUse == before.eventInUse
    && if before.eventInUse || after.priority == before.priority then after.eventValue == before.eventValue
       else after.eventValue + after.priority == maxPriorities
  }

  function WithEventPriority(maxPriorities: nat, t: Tcb, priority: nat): Tcb
    requires priority < maxPriorities
  {
    if t.eventInUse then t else t.(eventValue := maxPriorities - priority)
  }

  /** xTaskPriorityInherit, on behalf of a task of priority `priority`. */
  function Inherit(maxPriorities: nat, holder: Tcb, priority: nat): (Tcb, bool)
    requires priority < maxPriorities
  {
    if holder.priority < priority then
      (WithEventPriority(maxPriorities, holder, priority).(priority := priority), true)
    else
      (holder, holder.basePriority < priority)
  }

  /** The holder ends up at least as important as the waiter, is never lowered, and the result
      tells whether it runs, or has to run, at an inherited priority on the waiter's account. */
  lemma InheritExact(maxPriorities: nat, holder: Tcb, priority: nat)
    requires Accounted(holder) && 0 < holder.mutexesHeld && priority < maxPriorities
    ensures var (r, inherited) := Inherit(maxPriorities, holder, priority);
            && r.priority == Max(holder.priority, priority)
            && r.basePriority == holder.basePriority && r.mutexesHeld == holder.mutexesHeld && r.wake == holder.wake
            && Accounted(r)
            && EventFollows(maxPriorities, holder, r)
            && (inherited <==> holder.basePriority < priority)
            && (inherited <==> Max(r.basePriority, priority) != r.basePriority)
  {
  }

  /** xTaskPriorityDisinherit, by the task that gives a mutex back; the result asks for a context
      switch. */
  function Disinherit(maxPriorities: nat, t: Tcb): (Tcb, bool)
    requires 0 < t.mutexesHeld && t.basePriority < maxPriorities
  {
    var given := t.(mutexesHeld := t.mutexesHeld - 1);
    if t.priority != t.basePriority && given.mutexesHeld == 0 then
      (given.(priority := t.basePriority, eventValue := maxPriorities - t.basePriority), true)
    else
      (given, false)
  }

  /** An inherited priority is kept until the last mutex is given back. */
  lemma DisinheritExact(maxPriorities: nat, t: Tcb)
    requires Accounted(t) && 0 < t.mutexesHeld && t.basePriority < maxPriorities
    ensures var (r, switches) := Disinherit(maxPriorities, t);
            && r.mutexesHeld == t.mutexesHeld - 1 && r.basePriority == t.basePriority && r.wake == t.wake
            && r.priority == (if t.mutexesHeld == 1 then t.basePriority else t.priority)
            && (r.priority != t.priority ==> r.eventValue + r.priority == maxPriorities)
            && (r.priority == t.priority ==> r.eventValue == t.eventValue)
            && (switches <==> r.priority < t.priority)
            && Accounted(r)
  {
  }

  /** vTaskPriorityDisinheritAfterTimeout: `highest` is the priority of the most important task
      still waiting for the mutex. */
  function DisinheritAfterTimeout(maxPriorities: nat, t: Tcb, highest: nat): Tcb
    requires 0 < t.mutexesHeld && t.basePriority < maxPriorities && highest < maxPriorities
  {
    var toUse := if t.basePriority < highest then highest else t.basePriority;
    if t.priority != toUse && t.mutexesHeld == 1 then
      WithEventPriority(maxPriorities, t, toUse).(priority := toUse)
    else
      t
  }

  lemma DisinheritAfterTimeoutExact(maxPriorities: nat, t: Tcb, highest: nat)
    requires Accounted(t) && 0 < t.mutexesHeld && t.basePriority < maxPriorities && highest < maxPriorities
    ensures var r := DisinheritAfterTimeout(maxPriorities, t, highest);
            && r.priority == (if t.mutexesHeld == 1 then Max(t.basePriority, highest) else t.priority)
            && r.basePriority == t.basePriority && r.mutexesHeld == t.mutexesHeld && r.wake == t.wake
            && EventFollows(maxPriorities, t, r)
            && Accounted(r)
  {
  }

  /** The fields written by vTaskPrioritySet. */
  function SetBase(maxPriorities: nat, t: Tcb, priority: nat): Tcb
    requires priority < maxPriorities
  {
    if t.basePriority == priority then t
    else
      var p := if t.basePriority == t.priority || priority > t.priority then priority else t.priority;
      WithEventPriority(maxPriorities, t.(priority := p, basePriority := priority), priority)
  }

  /** The base priority is set in any case; an inherited priority survives unless it is exceeded.  The
      event item records the new base priority even when an inherited one stays in force. */
  lemma SetBaseExact(maxPriorities: nat, t: Tcb, priority: nat)
    requires Accounted(t) && priority < maxPriorities
    ensures var r := SetBase(maxPriorities, t, priority);
            && r.basePriority == priority
            && r.priority == (if t.priority == t.basePriority then priority else Max(t.priority, priority))
            && r.mutexesHeld == t.mutexesHeld && r.wake == t.wake
            && (t.basePriority != priority && !t.eventInUse ==> r.eventValue + r.basePriority == maxPriorities)
            && (t.basePriority == priority || t.eventInUse ==> r.eventValue == t.eventValue)
            && Accounted(r)
  {
  }

  /** After vTaskPrioritySet has changed the base priority of a task, its event item stands for the priority
      that the task runs at exactly if no inherited priority above the new one stayed in force.  Otherwise
      the event item understates it, and event lists are sorted by a priority that is not the task's. */
  lemma SetBaseEventExact(maxPriorities: nat, t: Tcb, priority: nat)
    requires Accounted(t) && priority < maxPriorities && !t.eventInUse && t.basePriority != priority
    ensures var r := SetBase(maxPriorities, t, priority);
            && (r.eventValue + r.priority == maxPriorities <==> t.priority == t.basePriority || priority >= t.priority)
            && maxPriorities <= r.eventValue + r.priority
  {
  }

  /** A task with base priority 1 runs at priority 3, which it inherited; its base priority is set to 2.  It
      goes on at 3, and from then on waits for events like a task of priority 2. */
  lemma SetBaseHidesInheritance()
    ensures var t := Inherit(4, Tcb(1, 1, 1, 0, 3, false), 3).0;
            var r := SetBase(4, t, 2);
            && Accounted(t) && t.priority == 3 && t.eventValue + t.priority == 4
            && r.priority == 3 && r.eventValue + 2 == 4
  {
  }
}
