/**
 Runs of the kernel: any sequence of tick interrupts and kernel calls.  A task that delays until
 some instant sleeps until the tick count gets there and is readied by the very call that takes it
 there: by the tick itself, or by the xTaskResumeAll that counts the tick.  A ready task is not
 overtaken by another one of its priority that comes after it, whatever the kernel does meanwhile.
 */
module KernelRuns {
  import opened ListSpec
  import opened Priorities
  import ReadyOrder
  import opened Scheduler
  import opened TaskLists

  datatype Call =
    | TickInterrupt
    | SuspendAll
    | ResumeAll
    | SwitchContext
    | BlockOn(event: nat, ticks: nat)
    | WakeFirst(event: nat)
    | DelayFor(ticks: nat)
    | SetPriority(task: TaskId, priority: nat)
    | Inherit(holder: TaskId)
    | Disinherit
    | DisinheritAfterTimeout(holder: TaskId, highest: nat)

  /** A wait may begin: it fits the tick type, and a wait of 0 ticks does not begin at the last tick of
      an epoch. */
  predicate CanWait(k: Kernel, ticks: nat)
    reads k
  {
    k.IsReady(k.current) && ticks < k.m && (ticks == 0 ==> k.tickCount + 1 < k.m)
  }

  /** Task `t` holds a mutex and its priority fields are in order. */
  predicate Holds(k: Kernel, t: TaskId)
    reads k
  {
    && t in k.tcb && Accounted(k.tcb[t]) && 0 < k.tcb[t].mutexesHeld && k.tcb[t].basePriority < k.maxPriorities
  }

  /** What the source demands of the caller. */
  predicate Callable(k: Kernel, call: Call)
    reads k
  {
    match call
    case TickInterrupt => true
    case SuspendAll => true
    case ResumeAll => k.suspended > 0
    case SwitchContext => exists t :: t in k.tcb && k.IsReady(t)
    case BlockOn(e, ticks) => k.suspended > 0 && EventList(e) in k.event.lists && CanWait(k, ticks)
    case WakeFirst(e) => EventList(e) in k.event.lists && k.event.lists[EventList(e)].items != []
    case DelayFor(ticks) => CanWait(k, ticks) && 0 < ticks
    case SetPriority(t, priority) => t in k.tcb && Accounted(k.tcb[t]) && priority < k.maxPriorities
    case Inherit(holder) => Holds(k, holder)
    case Disinherit => Holds(k, k.current)
    case DisinheritAfterTimeout(holder, highest) => Holds(k, holder) && highest < k.maxPriorities
  }

  // ---------- A sleeping task ----------

  /** Task `t` is delayed until instant `until` and waits for nothing else. */
  ghost predicate Asleep(places: map<TaskId, Place>, waits: map<TaskId, EventPlace>, wakeAt: map<TaskId, nat>,
      t: TaskId, until: nat)
  {
    && t in places && places[t] in {DelayedList1, DelayedList2} && t !in waits
    && t in wakeAt && wakeAt[t] == until
  }

  ghost predicate Sleeps(k: Kernel, t: TaskId, until: nat)
    reads k
  {
    Asleep(k.state.container, k.event.container, k.wakeAt, t, until)
  }

  /** Readying the tasks due at instant `n`, and some that wait for events, readies a sleeping task iff
      its time has come. */
  lemma SleeperDue(a: map<TaskId, Place>, b: map<TaskId, Place>, ea: map<TaskId, EventPlace>,
      eb: map<TaskId, EventPlace>, tcb: Tasks, wakeAt: map<TaskId, nat>, w: set<TaskId>, n: nat, t: TaskId, until: nat)
    requires Asleep(a, ea, wakeAt, t, until) && Moved(a, b, ea, eb, tcb, w)
    requires t in w <==> t in Due(a, wakeAt, n)
    ensures n < until ==> Asleep(b, eb, wakeAt, t, until)
    ensures until <= n ==> t in b && b[t].ReadyList?
  {
  }

  lemma NotPending(a: map<TaskId, Place>, ea: map<TaskId, EventPlace>, wakeAt: map<TaskId, nat>, t: TaskId, until: nat)
    requires Asleep(a, ea, wakeAt, t, until)
    ensures t !in Pending(ea)
  {
  }

  lemma IsDue(a: map<TaskId, Place>, ea: map<TaskId, EventPlace>, wakeAt: map<TaskId, nat>, n: nat, t: TaskId,
      until: nat)
    requires Asleep(a, ea, wakeAt, t, until)
    ensures t in Due(a, wakeAt, n) <==> until <= n
  {
  }

  lemma OthersWait(before: Tasks, wakesBefore: map<TaskId, nat>, after: Tasks, wakes: map<TaskId, nat>, u: TaskId,
      t: TaskId)
    requires OnlyWaits(before, wakesBefore, after, wakes, u) && t != u
    ensures t in wakesBefore ==> t in wakes && wakes[t] == wakesBefore[t]
  {
  }

  /** What happens to another task's lists and fields does not concern a sleeping task. */
  lemma SleepsOn(a: map<TaskId, Place>, b: map<TaskId, Place>, ea: map<TaskId, EventPlace>, eb: map<TaskId, EventPlace>,
      wakes: map<TaskId, nat>, wakes': map<TaskId, nat>, t: TaskId, until: nat)
    requires Asleep(a, ea, wakes, t, until)
    requires t in a ==> t in b && b[t] == a[t]
    requires t in eb <==> t in ea
    requires t in wakes ==> t in wakes' && wakes'[t] == wakes[t]
    ensures Asleep(b, eb, wakes', t, until)
  {
  }

  lemma SleeperIsNotReady(k: Kernel, t: TaskId, until: nat)
    requires Sleeps(k, t, until)
    ensures !k.IsReady(t) && t !in k.event.container
  {
  }

  // ---------- The calls ----------

  /** What an observer sees of the kernel between two calls. */
  datatype Moment = Moment(now: nat, raised: nat, suspended: nat, ready: set<TaskId>, state: Store<Place>,
      current: TaskId)

  ghost function At(k: Kernel): Moment
    reads k
  {
    Moment(k.now, k.raised, k.suspended, (set u | u in k.state.container && k.IsReady(u)), k.state, k.current)
  }

  /** The clock moves on with the tick or catches up when the scheduler is resumed. */
  ghost predicate ClockMoves(call: Call, before: Moment, after: Moment) {
    && after.raised == before.raised + (if call.TickInterrupt? then 1 else 0)
    && before.now <= after.now
    && (after.now != before.now ==> call.ResumeAll? || (call.TickInterrupt? && after.now == before.now + 1))
    && (after.suspended == 0 ==> after.now == after.raised)
  }

  /** The call is about task `t`: it blocks or gives back as the running task, or changes its priority. */
  predicate Names(call: Call, current: TaskId, t: TaskId) {
    match call
    case BlockOn(_, _) => t == current
    case DelayFor(_) => t == current
    case Disinherit => t == current
    case SetPriority(u, _) => t == u
    case Inherit(holder) => t == holder
    case DisinheritAfterTimeout(holder, _) => t == holder
    case _ => false
  }

  predicate Readies(call: Call) { call.TickInterrupt? || call.ResumeAll? || call.WakeFirst? }

  predicate OnReadyList(s: Store<Place>, t: TaskId) { t in s.container && s.container[t].ReadyList? }

  /** Tasks outside `w` keep their turns; those in `w` are not ready or are named by the call; and tasks that
      a call readies come behind the others. */
  ghost predicate LosesNoTurn(call: Call, before: Moment, after: Moment, w: set<TaskId>) {
    && OrderKept(before.state, after.state, w)
    && (forall t :: t in w && OnReadyList(before.state, t) ==> Names(call, before.current, t))
    && (Readies(call) ==> BehindOthers(before.state, after.state, w))
  }

  /** The call makes `t` the running task: it was the next one of its ready list. */
  ghost predicate Chosen(call: Call, before: Moment, after: Moment, t: TaskId) {
    call.SwitchContext? && after.current == t && exists p :: Selects(before.state, after.state, p, t)
  }

  ghost predicate TurnStep(call: Call, before: Moment, after: Moment) {
    && StoreOk(before.state) && StoreOk(after.state)
    && (Chosen(call, before, after, after.current)
        || (after.current == before.current && exists w :: LosesNoTurn(call, before, after, w)))
  }

  lemma Turned(call: Call, before: Moment, after: Moment, w: set<TaskId>)
    requires StoreOk(before.state) && StoreOk(after.state) && after.current == before.current
    requires LosesNoTurn(call, before, after, w)
    ensures TurnStep(call, before, after)
  {
  }

  lemma OneTurned(call: Call, before: Moment, after: Moment, t: TaskId)
    requires StoreOk(before.state) && StoreOk(after.state) && after.current == before.current
    requires OrderKept(before.state, after.state, {t})
    requires OnReadyList(before.state, t) ==> Names(call, before.current, t)
    requires Readies(call) ==> BehindOthers(before.state, after.state, {t})
    ensures TurnStep(call, before, after)
  {
    hide StoreOk, OrderKept, BehindOthers;
    assert LosesNoTurn(call, before, after, {t});
  }

  lemma NothingTurned(call: Call, before: Moment, after: Moment, tcb: Tasks)
    requires StoreOk(before.state) && after.state == before.state && after.current == before.current
    requires before.state.container.Keys == tcb.Keys
    ensures TurnStep(call, before, after)
  {
    hide StoreOk, OrderKept, BehindOthers, Readied;
    NothingReadied(before.state, map[], tcb);
    ReadiedDomain(before.state, after.state, map[], map[], tcb, {});
    assert LosesNoTurn(call, before, after, {});
  }

  lemma InOrder(k: Kernel)
    requires k.Inv()
    ensures StoreOk(k.state) && k.state.container.Keys == k.tcb.Keys
  {
    hide StoreOk;
    k.StoresOk();
  }

  /** Tasks that wait for an event, or are on a delayed list, are not ready. */
  lemma WokenWereNotReady(k: Kernel, n: nat)
    requires k.Inv()
    ensures forall t :: t in Pending(k.event.container) || t in Due(k.state.container, k.wakeAt, n) ==>
              !OnReadyList(k.state, t)
  {
    forall t | t in Pending(k.event.container) && t in k.state.container ensures !OnReadyList(k.state, t) {
      assert TaskOk(k.View(), t);
    }
  }

  /** A task that slept before the call sleeps on, or its time has come and it is ready. */
  ghost predicate SleepsOrReady(k: Kernel, t: TaskId, until: nat)
    reads k
  {
    if k.now < until then Sleeps(k, t, until) else k.IsReady(t)
  }

  lemma RunningWaitsForNothing(k: Kernel)
    requires k.Inv() && k.IsReady(k.current)
    ensures k.current !in k.event.container
  {
    hide Kernel.Lists;
    k.ReadyWaitsForNothing(k.current);
  }

  lemma WaiterWaits(k: Kernel, e: nat)
    requires k.Inv() && EventList(e) in k.event.lists && k.event.lists[EventList(e)].items != []
    ensures k.event.lists[EventList(e)].items[0] in k.event.container
    ensures !OnReadyList(k.state, k.event.lists[EventList(e)].items[0])
  {
    hide Kernel.Lists;
    k.EventHeadIsBlocked(EventList(e));
  }

  lemma CaughtUp(k: Kernel)
    requires k.Inv()
    ensures k.now <= k.raised && (k.suspended == 0 ==> k.now == k.raised)
  {
    hide Kernel.Ticking;
  }

  method Tick(k: Kernel, ghost t: TaskId, ghost until: nat)
    requires k.Inv()
    modifies k
    ensures k.Inv() && ClockMoves(TickInterrupt, old(At(k)), At(k)) && TurnStep(TickInterrupt, old(At(k)), At(k))
    ensures old(k.now) < until && old(Sleeps(k, t, until)) ==> SleepsOrReady(k, t, until)
  {
    hide Kernel.Inv, Moved, Due, Asleep, Readied, StoreOk, OrderKept, BehindOthers, TurnStep, OnReadyList;
    CaughtUp(k);
    InOrder(k);
    WokenWereNotReady(k, k.now + 1);
    var switchRequired := k.IncrementTick();
    CaughtUp(k);
    InOrder(k);
    if old(k.suspended) == 0 {
      ghost var woken := Due(old(k.state.container), k.wakeAt, k.now);
      ReadiedDomain(old(k.state), k.state, old(k.event.container), k.event.container, k.tcb, woken);
      assert LosesNoTurn(TickInterrupt, old(At(k)), At(k), woken);
      Turned(TickInterrupt, old(At(k)), At(k), woken);
    } else {
      NothingTurned(TickInterrupt, old(At(k)), At(k), k.tcb);
    }
    if old(k.now) < until && old(Sleeps(k, t, until)) && old(k.suspended) == 0 {
      SleeperDue(old(k.state.container), k.state.container, old(k.event.container), k.event.container, k.tcb, k.wakeAt,
                 Due(old(k.state.container), k.wakeAt, k.now), k.now, t, until);
    }
  }

  method Resume(k: Kernel, ghost t: TaskId, ghost until: nat)
    requires k.Inv() && k.suspended > 0
    modifies k
    ensures k.Inv() && ClockMoves(ResumeAll, old(At(k)), At(k)) && TurnStep(ResumeAll, old(At(k)), At(k))
    ensures old(k.now) < until && old(Sleeps(k, t, until)) ==> SleepsOrReady(k, t, until)
  {
    hide Kernel.Inv, Moved, Due, Pending, Asleep, Readied, StoreOk, OrderKept, BehindOthers, TurnStep, OnReadyList;
    CaughtUp(k);
    InOrder(k);
    ghost var target := k.raised;
    WokenWereNotReady(k, target);
    ghost var woken;
    var alreadyYielded;
    alreadyYielded, woken := k.ResumeAll();
    CaughtUp(k);
    InOrder(k);
    if k.suspended == 0 {
      ReadiedDomain(old(k.state), k.state, old(k.event.container), k.event.container, k.tcb, woken);
      assert LosesNoTurn(ResumeAll, old(At(k)), At(k), woken);
      Turned(ResumeAll, old(At(k)), At(k), woken);
    } else {
      NothingTurned(ResumeAll, old(At(k)), At(k), k.tcb);
    }
    if old(k.now) < until && old(Sleeps(k, t, until)) && k.suspended == 0 {
      NotPending(old(k.state.container), old(k.event.container), k.wakeAt, t, until);
      IsDue(old(k.state.container), old(k.event.container), k.wakeAt, k.now, t, until);
      SleeperDue(old(k.state.container), k.state.container, old(k.event.container), k.event.container, k.tcb, k.wakeAt,
                 woken, k.now, t, until);
    }
  }

  /** The running task blocks on an event list. */
  method Block(k: Kernel, e: nat, ticks: nat, ghost t: TaskId, ghost until: nat)
    requires k.Inv() && Callable(k, BlockOn(e, ticks))
    modifies k
    ensures k.Inv() && ClockMoves(BlockOn(e, ticks), old(At(k)), At(k))
    ensures TurnStep(BlockOn(e, ticks), old(At(k)), At(k))
    ensures old(k.now) < until && old(Sleeps(k, t, until)) ==> SleepsOrReady(k, t, until)
  {
    hide Kernel.Inv, OnlyWaits, StoreOk, OrderKept, BehindOthers, TurnStep;
    CaughtUp(k);
    InOrder(k);
    k.PlaceOnEventList(e, ticks);
    InOrder(k);
    OneTurned(BlockOn(e, ticks), old(At(k)), At(k), k.current);
    if old(Sleeps(k, t, until)) {
      OthersWait(old(k.tcb), old(k.wakeAt), k.tcb, k.wakeAt, k.current, t);
      SleepsOn(old(k.state.container), k.state.container, old(k.event.container), k.event.container, old(k.wakeAt),
               k.wakeAt, t, until);
    }
  }

  method DelayCurrent(k: Kernel, ticks: nat, ghost t: TaskId, ghost until: nat)
    requires k.Inv() && Callable(k, DelayFor(ticks))
    modifies k
    ensures k.Inv() && ClockMoves(DelayFor(ticks), old(At(k)), At(k))
    ensures TurnStep(DelayFor(ticks), old(At(k)), At(k))
    ensures old(k.now) < until && old(Sleeps(k, t, until)) ==> SleepsOrReady(k, t, until)
    ensures Sleeps(k, k.current, k.now + ticks) && k.now == old(k.now) && k.current == old(k.current)
  {
    hide Kernel.Inv, OnlyWaits, StoreOk, OrderKept, BehindOthers, TurnStep;
    CaughtUp(k);
    InOrder(k);
    RunningWaitsForNothing(k);
    k.Delay(ticks);
    InOrder(k);
    OneTurned(DelayFor(ticks), old(At(k)), At(k), k.current);
    if old(Sleeps(k, t, until)) {
      OthersWait(old(k.tcb), old(k.wakeAt), k.tcb, k.wakeAt, k.current, t);
      SleepsOn(old(k.state.container), k.state.container, old(k.event.container), k.event.container, old(k.wakeAt),
               k.wakeAt, t, until);
    }
  }

  method Wake(k: Kernel, e: nat, ghost t: TaskId, ghost until: nat)
    requires k.Inv() && Callable(k, WakeFirst(e))
    modifies k
    ensures k.Inv() && ClockMoves(WakeFirst(e), old(At(k)), At(k))
    ensures TurnStep(WakeFirst(e), old(At(k)), At(k))
    ensures old(k.now) < until && old(Sleeps(k, t, until)) ==> SleepsOrReady(k, t, until)
  {
    hide Kernel.Inv, StoreOk, OrderKept, BehindOthers, TurnStep;
    CaughtUp(k);
    InOrder(k);
    WaiterWaits(k, e);
    var waiter, switchRequired := k.RemoveFromEventList(e);
    InOrder(k);
    OneTurned(WakeFirst(e), old(At(k)), At(k), waiter);
    if old(Sleeps(k, t, until)) {
      SleepsOn(old(k.state.container), k.state.container, old(k.event.container), k.event.container, old(k.wakeAt),
               k.wakeAt, t, until);
    }
  }

  /** The calls that change priorities: a task that is not ready stays where it is. */
  method SetPriorityOf(k: Kernel, task: TaskId, priority: nat, ghost t: TaskId, ghost until: nat)
    requires k.Inv() && Callable(k, SetPriority(task, priority))
    modifies k
    ensures k.Inv() && ClockMoves(SetPriority(task, priority), old(At(k)), At(k))
    ensures TurnStep(SetPriority(task, priority), old(At(k)), At(k))
    ensures old(k.now) < until && old(Sleeps(k, t, until)) ==> SleepsOrReady(k, t, until)
  {
    hide Kernel.Inv, StoreOk, OrderKept, BehindOthers, TurnStep;
    CaughtUp(k);
    InOrder(k);
    OrderKeptAlready(k.state, {task});
    var yieldRequired := k.PrioritySet(task, priority);
    InOrder(k);
    OneTurned(SetPriority(task, priority), old(At(k)), At(k), task);
    if old(Sleeps(k, t, until)) {
      SleepsOn(old(k.state.container), k.state.container, old(k.event.container), k.event.container, old(k.wakeAt),
               k.wakeAt, t, until);
    }
  }

  method Reprioritise(k: Kernel, call: Call, ghost t: TaskId, ghost until: nat)
    requires k.Inv() && Callable(k, call) && (call.Inherit? || call.Disinherit? || call.DisinheritAfterTimeout?)
    modifies k
    ensures k.Inv() && ClockMoves(call, old(At(k)), At(k)) && TurnStep(call, old(At(k)), At(k))
    ensures old(k.now) < until && old(Sleeps(k, t, until)) ==> SleepsOrReady(k, t, until)
  {
    hide Kernel.Inv, StoreOk, OrderKept, BehindOthers, TurnStep;
    CaughtUp(k);
    InOrder(k);
    ghost var named := if call.Disinherit? then k.current else call.holder;
    OrderKeptAlready(k.state, {named});
    match call {
      case Inherit(holder) =>
        var inherited := k.PriorityInherit(holder);
      case Disinherit =>
        var switchRequired := k.PriorityDisinherit();
      case DisinheritAfterTimeout(holder, highest) =>
        var asserted := k.PriorityDisinheritAfterTimeout(holder, highest);
    }
    InOrder(k);
    OneTurned(call, old(At(k)), At(k), named);
    if old(Sleeps(k, t, until)) {
      SleepsOn(old(k.state.container), k.state.container, old(k.event.container), k.event.container, old(k.wakeAt),
               k.wakeAt, t, until);
    }
  }

  method Suspend(k: Kernel)
    requires k.Inv()
    modifies k
    ensures k.Inv() && ClockMoves(SuspendAll, old(At(k)), At(k)) && TurnStep(SuspendAll, old(At(k)), At(k))
    ensures k.now == old(k.now) && k.state == old(k.state) && k.event == old(k.event) && k.wakeAt == old(k.wakeAt)
  {
    hide Kernel.Inv, StoreOk, TurnStep;
    CaughtUp(k);
    InOrder(k);
    k.SuspendAll();
    NothingTurned(SuspendAll, old(At(k)), At(k), k.tcb);
  }

  method Switch(k: Kernel)
    requires k.Inv() && Callable(k, SwitchContext)
    modifies k
    ensures k.Inv() && ClockMoves(SwitchContext, old(At(k)), At(k)) && TurnStep(SwitchContext, old(At(k)), At(k))
    ensures k.now == old(k.now) && k.state.container == old(k.state.container)
    ensures k.event == old(k.event) && k.wakeAt == old(k.wakeAt)
  {
    hide Kernel.Inv, StoreOk, Selects;
    CaughtUp(k);
    InOrder(k);
    k.SwitchContext();
    InOrder(k);
    if k.suspended != 0 {
      NothingTurned(SwitchContext, old(At(k)), At(k), k.tcb);
    } else {
      assert Selects(old(k.state), k.state, k.tcb[k.current].priority, k.current);
    }
  }

  /** One call; `Tick` and the others say what each of them does. */
  method Perform(k: Kernel, call: Call, ghost t: TaskId, ghost until: nat)
    requires k.Inv() && Callable(k, call)
    modifies k
    ensures k.Inv() && ClockMoves(call, old(At(k)), At(k)) && TurnStep(call, old(At(k)), At(k))
    ensures old(k.now) < until && old(Sleeps(k, t, until)) ==> SleepsOrReady(k, t, until)
  {
    hide Kernel.Inv, TurnStep;
    match call
    case TickInterrupt => Tick(k, t, until);
    case SuspendAll => Suspend(k);
    case ResumeAll => Resume(k, t, until);
    case SwitchContext => Switch(k);
    case BlockOn(e, ticks) => Block(k, e, ticks, t, until);
    case WakeFirst(e) => Wake(k, e, t, until);
    case DelayFor(ticks) => DelayCurrent(k, ticks, t, until);
    case SetPriority(task, priority) => SetPriorityOf(k, task, priority, t, until);
    case Inherit(_) => Reprioritise(k, call, t, until);
    case Disinherit => Reprioritise(k, call, t, until);
    case DisinheritAfterTimeout(_, _) => Reprioritise(k, call, t, until);
  }

  // ---------- Runs ----------

  /** Until its time has come task `t` is not ready; the call that takes the clock there readies it. */
  ghost predicate Observed(call: Call, before: Moment, after: Moment, t: TaskId, until: nat) {
    && ClockMoves(call, before, after)
    && (before.now < until ==> t !in before.ready && (until <= after.now ==> t in after.ready))
  }

  /** A call in whatever state the kernel is in; one that its caller may not make then is passed over. */
  method Step(k: Kernel, call: Call, ghost t: TaskId, ghost until: nat)
    requires k.Inv() && (k.now < until ==> Sleeps(k, t, until))
    modifies k
    ensures k.Inv() && (k.now < until ==> Sleeps(k, t, until))
    ensures Observed(call, old(At(k)), At(k), t, until) && TurnStep(call, old(At(k)), At(k))
  {
    hide Kernel.Inv, Asleep, TurnStep, StoreOk;
    CaughtUp(k);
    InOrder(k);
    if k.now < until {
      SleeperIsNotReady(k, t, until);
    }
    if Callable(k, call) {
      Perform(k, call, t, until);
    } else {
      NothingTurned(call, At(k), At(k), k.tcb);
    }
  }

  /** Any sequence of calls; `seen` is what is seen before, between and after them. */
  method Run(k: Kernel, calls: seq<Call>, ghost t: TaskId, ghost until: nat) returns (ghost seen: seq<Moment>)
    requires k.Inv() && (k.now < until ==> Sleeps(k, t, until))
    modifies k
    ensures k.Inv() && (k.now < until ==> Sleeps(k, t, until))
    ensures |seen| == |calls| + 1 && seen[0] == old(At(k)) && seen[|calls|] == At(k)
    ensures forall i :: 0 <= i < |calls| ==> Observed(calls[i], seen[i], seen[i+1], t, until)
    ensures forall i :: 0 <= i < |calls| ==> TurnStep(calls[i], seen[i], seen[i+1])
  {
    hide Kernel.Inv, Sleeps, At, Observed, TurnStep;
    seen := [At(k)];
    var i := 0;
    while i < |calls|
      invariant i <= |calls| && k.Inv() && (k.now < until ==> Sleeps(k, t, until))
      invariant |seen| == i + 1 && seen[0] == old(At(k)) && seen[i] == At(k)
      invariant forall j :: 0 <= j < i ==> Observed(calls[j], seen[j], seen[j+1], t, until)
      invariant forall j :: 0 <= j < i ==> TurnStep(calls[j], seen[j], seen[j+1])
    {
      Step(k, calls[i], t, until);
      seen := seen + [At(k)];
      i := i + 1;
    }
  }

  /** Call `j` readies task `t`, which was not ready at any time before, at the very tick `until`; only a
      resumption of the scheduler can take the clock beyond it. */
  ghost predicate ReadiedBy(calls: seq<Call>, seen: seq<Moment>, t: TaskId, until: nat, j: nat)
    requires |seen| == |calls| + 1 && j < |calls|
  {
    && seen[j].now < until <= seen[j+1].now && t in seen[j+1].ready
    && (forall i :: 0 <= i <= j ==> t !in seen[i].ready)
    && if calls[j].TickInterrupt? then seen[j+1].now == until else calls[j].ResumeAll?
  }

  ghost predicate ReadiedBefore(calls: seq<Call>, seen: seq<Moment>, t: TaskId, until: nat, n: nat)
    requires |seen| == |calls| + 1 && n <= |calls|
  {
    exists j :: 0 <= j < n && ReadiedBy(calls, seen, t, until, j)
  }

  /** As soon as the scheduler runs and the ticks raised have reached `until`, the task has been readied,
      and by the right call. */
  lemma {:induction false} ReadiedInTime(calls: seq<Call>, seen: seq<Moment>, t: TaskId, until: nat, n: nat)
    requires |seen| == |calls| + 1 && 0 < n <= |calls|
    requires forall i :: 0 <= i < n ==> Observed(calls[i], seen[i], seen[i+1], t, until)
    requires seen[0].now < until && seen[n].suspended == 0 && until <= seen[n].raised
    ensures ReadiedBefore(calls, seen, t, until, n)
  {
    assert Observed(calls[n-1], seen[n-1], seen[n], t, until);
    var j := LastBefore(calls, seen, t, until, n);
    assert Observed(calls[j], seen[j], seen[j+1], t, until);
    assert ReadiedBy(calls, seen, t, until, j);
  }

  /** The last call before which the time had not come. */
  lemma {:induction false} LastBefore(calls: seq<Call>, seen: seq<Moment>, t: TaskId, until: nat, n: nat)
    returns (j: nat)
    requires |seen| == |calls| + 1 && n <= |calls|
    requires forall i :: 0 <= i < n ==> Observed(calls[i], seen[i], seen[i+1], t, until)
    requires seen[0].now < until <= seen[n].now
    ensures j < n && seen[j].now < until <= seen[j+1].now && forall i :: 0 <= i <= j ==> t !in seen[i].ready
  {
    assert Observed(calls[n-1], seen[n-1], seen[n], t, until);
    if seen[n-1].now < until {
      j := n - 1;
      forall i | 0 <= i <= j ensures t !in seen[i].ready {
        StillBefore(calls, seen, t, until, i, j);
        assert Observed(calls[i], seen[i], seen[i+1], t, until);
      }
    } else {
      j := LastBefore(calls, seen, t, until, n - 1);
    }
  }

  lemma {:induction false} StillBefore(calls: seq<Call>, seen: seq<Moment>, t: TaskId, until: nat, i: nat, j: nat)
    requires |seen| == |calls| + 1 && i <= j <= |calls|
    requires forall k :: 0 <= k < j ==> Observed(calls[k], seen[k], seen[k+1], t, until)
    ensures seen[i].now <= seen[j].now
    decreases j - i
  {
    if i < j {
      assert Observed(calls[i], seen[i], seen[i+1], t, until);
      StillBefore(calls, seen, t, until, i + 1, j);
    }
  }

  /** A task that delays at instant T for d ticks sleeps through any sequence of kernel calls until instant
      T + d, and is readied by the call that takes the clock there: whatever other tasks and interrupts do,
      and however long the scheduler is suspended meanwhile. */
  method DelayIsKept(k: Kernel, ticks: nat, calls: seq<Call>) returns (ghost seen: seq<Moment>)
    requires k.Inv() && Callable(k, DelayFor(ticks))
    modifies k
    ensures k.Inv() && |seen| == |calls| + 1 && seen[|calls|] == At(k)
    ensures seen[0].now == old(k.now)
    ensures forall i :: 0 <= i < |calls| ==> Observed(calls[i], seen[i], seen[i+1], old(k.current), old(k.now) + ticks)
    ensures forall n :: 0 < n <= |calls| && seen[n].suspended == 0 && old(k.now) + ticks <= seen[n].raised ==>
              ReadiedBefore(calls, seen, old(k.current), old(k.now) + ticks, n)
  {
    hide Kernel.Inv, Sleeps, Observed, ReadiedBefore, TurnStep;
    ghost var t, until := k.current, k.now + ticks;
    DelayCurrent(k, ticks, t, until);
    seen := Run(k, calls, t, until);
    forall n | 0 < n <= |calls| && seen[n].suspended == 0 && until <= seen[n].raised
      ensures ReadiedBefore(calls, seen, t, until, n)
    {
      ReadiedInTime(calls, seen, t, until, n);
    }
  }

  // ---------- Turns ----------

  /** Task `x` comes before `t` in the turns of the ready list of priority `p`. */
  ghost predicate Ahead(s: Store<Place>, p: nat, x: TaskId, t: TaskId) {
    ReadyList(p) in s.lists && s.lists[ReadyList(p)].pos <= |s.lists[ReadyList(p)].items|
    && Before(Turns(s.lists[ReadyList(p)]), x, t)
  }

  lemma AheadAreReady(s: Store<Place>, p: nat, x: TaskId, t: TaskId)
    requires StoreOk(s) && Ahead(s, p, x, t)
    ensures ListOk(s.lists[ReadyList(p)]) && s.lists[ReadyList(p)].items != []
    ensures On(s, x, ReadyList(p)) && On(s, t, ReadyList(p))
  {
    var l := s.lists[ReadyList(p)];
    assert HoldsItsTasks(s, ReadyList(p));
    TurnsMembers(l);
    var i, j :| 0 <= i < j < |Turns(l)| && Turns(l)[i] == x && Turns(l)[j] == t;
    assert Turns(l)[i] in Turns(l) && Turns(l)[j] in Turns(l);
  }

  /** The selection from a ready list, at priority `q`. */
  lemma SelectionKeepsAhead(a: Store<Place>, b: Store<Place>, p: nat, q: nat, x: TaskId, t: TaskId, u: TaskId)
    requires StoreOk(a) && StoreOk(b) && Ahead(a, p, x, t) && Selects(a, b, q, u) && u != x
    ensures u != t && Ahead(b, p, x, t)
  {
    hide StoreOk, Upcoming, Before, NoDup;
    AheadAreReady(a, p, x, t);
    SelectedIsOn(a, b, q, u);
    if p == q {
      TurnsMembers(a.lists[ReadyList(p)]);
      ReadyOrder.BeforeInRotated(Turns(a.lists[ReadyList(p)]), x, t);
    }
  }

  lemma SelectedIsOn(a: Store<Place>, b: Store<Place>, q: nat, u: TaskId)
    requires StoreOk(a) && Selects(a, b, q, u)
    ensures On(a, u, ReadyList(q))
  {
    var l := a.lists[ReadyList(q)];
    assert HoldsItsTasks(a, ReadyList(q));
    TurnsMembers(l);
    assert Turns(l)[0] in Turns(l);
  }

  lemma QuietKeepsAhead(call: Call, a: Moment, b: Moment, w: set<TaskId>, p: nat, x: TaskId, t: TaskId)
    requires StoreOk(a.state) && Ahead(a.state, p, x, t) && LosesNoTurn(call, a, b, w)
    requires !Names(call, a.current, x) && !Names(call, a.current, t)
    ensures Ahead(b.state, p, x, t)
  {
    hide StoreOk, Turns, Before, TurnsKept, BehindOthers, Names;
    AheadAreReady(a.state, p, x, t);
    assert OnReadyList(a.state, x) && OnReadyList(a.state, t);
    var l, r := a.state.lists[ReadyList(p)], b.state.lists[ReadyList(p)];
    assert TurnsKept(l, r, w);
    KeptInPlace(l, r, w);
    OrderOfOthers(l, r, w, x, t);
  }

  lemma KeptInPlace(l: TaskList, r: TaskList, w: set<TaskId>)
    requires TurnsKept(l, r, w)
    ensures r.pos <= |r.items|
  {
  }

  /** One call: a task that comes before another stays there until it is chosen to run. */
  lemma AheadKept(call: Call, a: Moment, b: Moment, p: nat, x: TaskId, t: TaskId)
    requires TurnStep(call, a, b) && Ahead(a.state, p, x, t)
    requires !Names(call, a.current, x) && !Names(call, a.current, t) && !Chosen(call, a, b, x)
    ensures Ahead(b.state, p, x, t) && !Chosen(call, a, b, t)
  {
    hide StoreOk, Ahead, Selects, LosesNoTurn, Names;
    if Chosen(call, a, b, b.current) {
      var q :| Selects(a.state, b.state, q, b.current);
      SelectionKeepsAhead(a.state, b.state, p, q, x, t, b.current);
    } else {
      var w :| LosesNoTurn(call, a, b, w);
      QuietKeepsAhead(call, a, b, w, p, x, t);
    }
  }

  ghost predicate Unnamed(calls: seq<Call>, seen: seq<Moment>, i: nat, k: nat, t: TaskId)
    requires |seen| == |calls| + 1 && k <= |calls|
  {
    forall j :: i <= j < k ==> !Names(calls[j], seen[j].current, t)
  }

  /** Nobody is overtaken.  In every run, a ready task that comes before another one of its priority is chosen
      before it, unless one of the two blocks or changes priority first: whatever wakes up, blocks, preempts
      or is selected elsewhere meanwhile. */
  lemma {:induction false} NobodyIsOvertaken(calls: seq<Call>, seen: seq<Moment>, i: nat, k: nat, p: nat, x: TaskId,
      t: TaskId)
    requires |seen| == |calls| + 1 && i <= k < |calls|
    requires forall j :: 0 <= j < |calls| ==> TurnStep(calls[j], seen[j], seen[j+1])
    requires Ahead(seen[i].state, p, x, t) && Chosen(calls[k], seen[k], seen[k+1], t)
    requires Unnamed(calls, seen, i, k, x) && Unnamed(calls, seen, i, k, t)
    ensures exists j :: i <= j < k && Chosen(calls[j], seen[j], seen[j+1], x)
    decreases k - i
  {
    hide TurnStep, Ahead;
    assert TurnStep(calls[i], seen[i], seen[i+1]);
    if i == k {
      ChosenIsFirst(calls[i], seen[i], seen[i+1], p, x, t);
    } else if !Chosen(calls[i], seen[i], seen[i+1], x) {
      AheadKept(calls[i], seen[i], seen[i+1], p, x, t);
      NobodyIsOvertaken(calls, seen, i + 1, k, p, x, t);
    }
  }

  lemma ChosenIsFirst(call: Call, a: Moment, b: Moment, p: nat, x: TaskId, t: TaskId)
    requires TurnStep(call, a, b) && Ahead(a.state, p, x, t)
    ensures !Chosen(call, a, b, t)
  {
    hide StoreOk, Selects, Before, Turns;
    if Chosen(call, a, b, t) {
      var q :| Selects(a.state, b.state, q, t);
      NotBehindItself(a.state, p, x, t);
      SelectionKeepsAhead(a.state, b.state, p, q, x, t, t);
      assert false;
    }
  }

  lemma NotBehindItself(s: Store<Place>, p: nat, x: TaskId, t: TaskId)
    requires StoreOk(s) && Ahead(s, p, x, t)
    ensures x != t
  {
    AheadAreReady(s, p, x, t);
    TurnsMembers(s.lists[ReadyList(p)]);
  }

  /** A call that readies a task puts it behind all others of its priority but the one that the index is on. */
  lemma ReadiedBehind(call: Call, a: Moment, b: Moment, p: nat, x: TaskId, t: TaskId)
    requires TurnStep(call, a, b) && Readies(call) && !OnReadyList(a.state, t) && On(b.state, t, ReadyList(p))
    requires On(a.state, x, ReadyList(p)) && ReadyList(p) in a.state.lists && !IndexOn(a.state.lists[ReadyList(p)], x)
    ensures Ahead(b.state, p, x, t)
  {
    hide Turns, Before, TurnsKept;
    var w :| LosesNoTurn(call, a, b, w);
    assert HoldsItsTasks(a.state, ReadyList(p)) && HoldsItsTasks(b.state, ReadyList(p));
    var l, r := a.state.lists[ReadyList(p)], b.state.lists[ReadyList(p)];
    assert TurnsKept(l, r, w) && JoinsBehind(l, r, w);
    assert !On(a.state, t, ReadyList(p));
    assert OnReadyList(a.state, x);
    if t !in w {
      MembersKept(l, r, w, t);
    }
  }

  /** A task that a tick, a resumption or an event readies is chosen only after every other task that was
      ready at its priority has been chosen, or has blocked or changed priority: but for the one that
      the index is on. */
  lemma ReadiedWaitsItsTurn(calls: seq<Call>, seen: seq<Moment>, i: nat, k: nat, p: nat, x: TaskId, t: TaskId)
    requires |seen| == |calls| + 1 && i < k < |calls|
    requires forall j :: 0 <= j < |calls| ==> TurnStep(calls[j], seen[j], seen[j+1])
    requires Readies(calls[i]) && !OnReadyList(seen[i].state, t) && On(seen[i+1].state, t, ReadyList(p))
    requires On(seen[i].state, x, ReadyList(p)) && ReadyList(p) in seen[i].state.lists
    requires !IndexOn(seen[i].state.lists[ReadyList(p)], x)
    requires Chosen(calls[k], seen[k], seen[k+1], t)
    requires Unnamed(calls, seen, i + 1, k, x) && Unnamed(calls, seen, i + 1, k, t)
    ensures exists j :: i < j < k && Chosen(calls[j], seen[j], seen[j+1], x)
  {
    hide TurnStep, Ahead, Chosen;
    assert TurnStep(calls[i], seen[i], seen[i+1]);
    ReadiedBehind(calls[i], seen[i], seen[i+1], p, x, t);
    NobodyIsOvertaken(calls, seen, i + 1, k, p, x, t);
  }
}
