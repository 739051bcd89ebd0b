/**
 Blocking on a queue (queue.c): a task that is about to block locks the queue, interrupts that find it
 locked move data but only count what they did, and the unlock replays the wakeups.

 A queue has two sides.  On the receiving side tasks wait for messages and `lock` is cTxLock, which
 counts the messages posted while the queue was locked; on the sending side tasks wait for free
 slots and `lock` is cRxLock.  What a side offers is its messages or its free slots.
 */
module QueueLocks {
  import opened ListSpec
  import opened TaskLists

  const UNLOCKED := -1

  /** `claims` are the tasks woken from this side that have not yet tried again. */
  datatype Side = Side(wait: seq<TaskId>, lock: int, claims: set<TaskId>)

  // ---------- One side ----------

  function WakeFirst(s: Side): Side {
    if s.wait == [] then s else s.(wait := s.wait[1..], claims := s.claims + {s.wait[0]})
  }

  /** An interrupt posts: prvIncrementQueueTxLock, prvIncrementQueueRxLock, or a direct wakeup.
      `n` is the number of tasks in the system, at which the count is capped. */
  function PostFromIsr(s: Side, n: nat): Side {
    if s.lock == UNLOCKED then WakeFirst(s)
    else if s.lock < n then s.(lock := s.lock + 1) else s
  }

  function Lock(s: Side): Side {
    if s.lock == UNLOCKED then s.(lock := 0) else s
  }

  /** The loop of prvUnlockQueue: one wakeup for each post counted, as long as somebody waits. */
  function Replay(s: Side): (r: Side)
    ensures r.lock <= 0 || r.wait == []
    ensures r.lock <= s.lock
    decreases |s.wait|
  {
    if 0 < s.lock && s.wait != [] then Replay(WakeFirst(s).(lock := s.lock - 1)) else s
  }

  function Unlock(s: Side): Side {
    Replay(s).(lock := UNLOCKED)
  }

  function Retried(s: Side, t: TaskId): Side {
    s.(claims := s.claims - {t})
  }

  function Count(lock: int): nat { if lock < 0 then 0 else lock }

  ghost predicate SideOk(s: Side, tasks: set<TaskId>) {
    && UNLOCKED <= s.lock <= |tasks|
    && NoDup(s.wait) && (forall t :: t in s.wait ==> t in tasks && t !in s.claims) && s.claims <= tasks
  }

  /** The promise of a side that offers `offered` messages or slots: if a task waits, or has decided
      to, then each of them is spoken for, by a woken task that has yet to try again or by a wakeup
      still to be replayed. */
  ghost predicate Spoken(s: Side, tasks: set<TaskId>, offered: int, deciding: bool) {
    && (deciding ==> 0 <= s.lock)
    && (s.wait != [] || deciding ==> offered <= |s.claims| + Count(s.lock) || |tasks| <= s.lock)
  }

  lemma WaitersAreTasks(s: Side, tasks: set<TaskId>)
    requires SideOk(s, tasks)
    ensures |s.wait| <= |tasks|
  {
    DistinctInSet(s.wait, tasks);
  }

  lemma {:induction false} DistinctInSet(q: seq<TaskId>, all: set<TaskId>)
    requires NoDup(q) && forall t :: t in q ==> t in all
    ensures |q| <= |all|
  {
    if q != [] {
      assert q[0] in all;
      forall t | t in q[1..] ensures t in all - {q[0]} {
        var i :| 0 <= i < |q[1..]| && q[1..][i] == t;
        assert q[i+1] == t;
      }
      DistinctInSet(q[1..], all - {q[0]});
    }
  }

  lemma WakeFirstKeeps(s: Side, tasks: set<TaskId>)
    requires SideOk(s, tasks)
    ensures SideOk(WakeFirst(s), tasks)
    ensures s.wait != [] ==> |WakeFirst(s).claims| == |s.claims| + 1
  {
    if s.wait != [] {
      assert s.wait[0] in s.wait;
      assert forall i :: 0 <= i < |s.wait[1..]| ==> s.wait[1..][i] == s.wait[i+1];
      assert forall t :: t in s.wait[1..] ==> t in s.wait && t != s.wait[0];
    }
  }

  /** One more is offered and one waiter, if any, is told. */
  lemma PostKeeps(s: Side, tasks: set<TaskId>, offered: int, deciding: bool)
    requires SideOk(s, tasks) && Spoken(s, tasks, offered, deciding)
    ensures var r := PostFromIsr(s, |tasks|);
            SideOk(r, tasks) && Spoken(r, tasks, offered + 1, deciding)
  {
    WakeFirstKeeps(s, tasks);
  }

  /** A wakeup without a new offer (an overwritten message, or a message that was only read). */
  lemma RepeatKeeps(s: Side, tasks: set<TaskId>, offered: int, deciding: bool)
    requires SideOk(s, tasks) && Spoken(s, tasks, offered, deciding)
    ensures var r := PostFromIsr(s, |tasks|);
            SideOk(r, tasks) && Spoken(r, tasks, offered, deciding)
  {
    PostKeeps(s, tasks, offered, deciding);
  }

  /** A task tries again and takes what is offered, or finds nothing. */
  lemma RetryKeeps(s: Side, tasks: set<TaskId>, offered: int, deciding: bool, t: TaskId, rest: int)
    requires SideOk(s, tasks) && Spoken(s, tasks, offered, deciding)
    requires rest == offered - 1 || offered <= 0 == rest
    ensures SideOk(Retried(s, t), tasks) && Spoken(Retried(s, t), tasks, rest, deciding)
    ensures |Retried(s, t).claims| >= |s.claims| - 1
  {
  }

  /** A task that only reads gives up its claim and passes its wakeup on to the next waiter. */
  lemma PassOnKeeps(s: Side, tasks: set<TaskId>, offered: int, t: TaskId)
    requires SideOk(s, tasks) && s.lock == UNLOCKED && Spoken(s, tasks, offered, false)
    ensures var r := WakeFirst(Retried(s, t));
            SideOk(r, tasks) && Spoken(r, tasks, offered, false)
  {
    RetryKeeps(s, tasks, offered, false, t, offered - 1);
    WakeFirstKeeps(Retried(s, t), tasks);
  }

  lemma LockKeeps(s: Side, tasks: set<TaskId>, offered: int)
    requires SideOk(s, tasks) && Spoken(s, tasks, offered, false)
    ensures SideOk(Lock(s), tasks) && Spoken(Lock(s), tasks, offered, false)
  {
  }

  /** A side on which nothing is offered lets a task decide to wait. */
  lemma DecideKeeps(s: Side, tasks: set<TaskId>)
    requires SideOk(s, tasks) && 0 <= s.lock
    ensures Spoken(s, tasks, 0, true)
  {
  }

  /** The decision becomes a place in the list, at any position. */
  lemma PlaceKeeps(s: Side, tasks: set<TaskId>, offered: int, t: TaskId, i: nat)
    requires SideOk(s, tasks) && Spoken(s, tasks, offered, true)
    requires t in tasks && t !in s.wait && t !in s.claims && i <= |s.wait|
    ensures var r := s.(wait := InsertAt(s.wait, i, t));
            SideOk(r, tasks) && Spoken(r, tasks, offered, false)
  {
    NoDupInsert(s.wait, i, t);
  }

  lemma RemoveKeeps(s: Side, tasks: set<TaskId>, offered: int, deciding: bool, t: TaskId)
    requires SideOk(s, tasks) && Spoken(s, tasks, offered, deciding)
    ensures var r := s.(wait := Without(s.wait, t));
            SideOk(r, tasks) && Spoken(r, tasks, offered, deciding)
  {
    NoDupWithout(s.wait, t);
    WithoutMembers(s.wait, t);
  }

  /** The replay ends with every waiter woken or with nothing left to replay. */
  lemma {:induction false} ReplayKeeps(s: Side, tasks: set<TaskId>, offered: int)
    requires SideOk(s, tasks) && 0 <= s.lock
    requires s.wait != [] ==> offered <= |s.claims| + s.lock || |s.wait| <= s.lock
    ensures var r := Replay(s);
            SideOk(r, tasks) && 0 <= r.lock && (r.wait != [] ==> offered <= |r.claims|)
    decreases |s.wait|
  {
    if 0 < s.lock && s.wait != [] {
      WakeFirstKeeps(s, tasks);
      ReplayKeeps(WakeFirst(s).(lock := s.lock - 1), tasks, offered);
    }
  }

  lemma UnlockKeeps(s: Side, tasks: set<TaskId>, offered: int)
    requires SideOk(s, tasks) && Spoken(s, tasks, offered, false) && 0 <= s.lock
    ensures SideOk(Unlock(s), tasks) && Spoken(Unlock(s), tasks, offered, false)
  {
    WaitersAreTasks(s, tasks);
    ReplayKeeps(s, tasks, offered);
  }

  // ---------- Tasks and interrupts as steps ----------

  datatype Op = Send | Overwrite | Receive | Peek

  predicate Takes(op: Op) { op.Receive? || op.Peek? }

  /** The side on which a call may wait; an overwriting send never does. */
  predicate WaitsOn(op: Op, takes: bool) { if takes then Takes(op) else op.Send? }

  /** What a task does after unlocking: sleep in the list, loop back, or return with a timeout. */
  datatype Next = Sleep | Again | GiveUp

  /** Where a task is inside xQueueGenericSend, xQueueReceive, xQueuePeek or xQueueSemaphoreTake.
      Between two places only one critical section, or nothing shared, is executed. */
  datatype Pc =
    | Idle
    | Trying(op: Op)
    | Failed(op: Op)
    | Suspended(op: Op)
    | Locked(op: Op)
    | NotExpired(op: Op)
    | MustWait(op: Op)
    | UnlockTx(op: Op, next: Next)
    | UnlockRx(op: Op, next: Next)
    | Resuming(op: Op, next: Next)
    | Blocked(op: Op)
    | Recheck(op: Op)

  /** `receivers.lock` is cTxLock and `senders.lock` is cRxLock.  `holder` is the task that has
      suspended the scheduler. */
  datatype State = State(length: nat, msgs: nat, receivers: Side, senders: Side, holder: Holder, pc: map<TaskId, Pc>)

  datatype Step =
    | Begin(t: TaskId, op: Op)
    | Try(t: TaskId, mayBlock: bool)
    | SuspendAll(t: TaskId)
    | LockQueue(t: TaskId)
    | CheckTime(t: TaskId, expired: bool)
    | CheckAgain(t: TaskId)
    | PlaceOnList(t: TaskId, at: nat)
    | ReplayTx(t: TaskId)
    | ReplayRx(t: TaskId)
    | ResumeAll(t: TaskId)
    | Run(t: TaskId)
    | TimedOut(t: TaskId)
    | CheckEmpty(t: TaskId)
    | IsrSend(overwrite: bool)
    | IsrReceive

  predicate Section(p: Pc) {
    match p
    case Idle | Trying(_) | Failed(_) | Blocked(_) | Recheck(_) => false
    case _ => true
  }

  predicate Listed(s: State, t: TaskId) { t in s.receivers.wait || t in s.senders.wait }

  /** While the scheduler is suspended only its holder and interrupts take steps. */
  predicate MayRun(s: State, t: TaskId) {
    t in s.pc && (if Section(s.pc[t]) then s.holder == Task(t) else s.holder == Nobody)
  }

  predicate Enabled(s: State, step: Step) {
    match step
    case Begin(t, op) => MayRun(s, t) && s.pc[t].Idle? && (op.Overwrite? ==> s.length == 1)
    case Try(t, _) => MayRun(s, t) && s.pc[t].Trying?
    case SuspendAll(t) => MayRun(s, t) && s.pc[t].Failed?
    case LockQueue(t) => MayRun(s, t) && s.pc[t].Suspended?
    case CheckTime(t, _) => MayRun(s, t) && s.pc[t].Locked?
    case CheckAgain(t) => MayRun(s, t) && s.pc[t].NotExpired?
    case PlaceOnList(t, at) =>
      && MayRun(s, t) && s.pc[t].MustWait?
      && at <= |if Takes(s.pc[t].op) then s.receivers.wait else s.senders.wait|
    case ReplayTx(t) => MayRun(s, t) && s.pc[t].UnlockTx?
    case ReplayRx(t) => MayRun(s, t) && s.pc[t].UnlockRx?
    case ResumeAll(t) => MayRun(s, t) && s.pc[t].Resuming?
    case Run(t) => MayRun(s, t) && s.pc[t].Blocked? && !Listed(s, t)
    case TimedOut(t) => MayRun(s, t) && s.pc[t].Blocked? && Listed(s, t)
    case CheckEmpty(t) => MayRun(s, t) && s.pc[t].Recheck?
    case IsrSend(overwrite) => overwrite ==> s.length == 1
    case IsrReceive => true
  }

  function Goto(s: State, t: TaskId, p: Pc): State {
    s.(pc := s.pc[t := p])
  }

  /** prvCopyDataToQueue's effect on the number of messages.  Overwriting is for a queue whose items have a
      size; what it does to a semaphore is in QueueStorage. */
  function Stored(s: State, overwrite: bool): nat {
    if overwrite && 0 < s.msgs then s.msgs else s.msgs + 1
  }

  /** The critical section at the top of the retry loop. */
  function TryOnce(s: State, t: TaskId, op: Op, mayBlock: bool): State {
    var failed := if mayBlock then Failed(op) else Idle;
    match op
    case Send =>
      if s.msgs < s.length then
        Goto(s.(msgs := s.msgs + 1, senders := Retried(s.senders, t), receivers := WakeFirst(s.receivers)), t, Idle)
      else Goto(s.(senders := Retried(s.senders, t)), t, failed)
    case Overwrite =>
      Goto(s.(msgs := Stored(s, true), receivers := WakeFirst(s.receivers)), t, Idle)
    case Receive =>
      if 0 < s.msgs then
        Goto(s.(msgs := s.msgs - 1, receivers := Retried(s.receivers, t), senders := WakeFirst(s.senders)), t, Idle)
      else Goto(s.(receivers := Retried(s.receivers, t)), t, failed)
    case Peek =>
      if 0 < s.msgs then Goto(s.(receivers := WakeFirst(Retried(s.receivers, t))), t, Idle)
      else Goto(s.(receivers := Retried(s.receivers, t)), t, failed)
  }

  /** prvIsQueueEmpty or prvIsQueueFull. */
  predicate NothingOffered(s: State, op: Op) {
    if Takes(op) then s.msgs == 0 else s.msgs == s.length
  }

  function Placed(s: State, t: TaskId, op: Op, at: nat): State
    requires at <= |if Takes(op) then s.receivers.wait else s.senders.wait|
  {
    if Takes(op) then s.(receivers := s.receivers.(wait := InsertAt(s.receivers.wait, at, t)))
    else s.(senders := s.senders.(wait := InsertAt(s.senders.wait, at, t)))
  }

  function Apply(s: State, step: Step): State
    requires Enabled(s, step)
  {
    match step
    case Begin(t, op) => Goto(s, t, Trying(op))
    case Try(t, mayBlock) => TryOnce(s, t, s.pc[t].op, mayBlock)
    case SuspendAll(t) => Goto(s, t, Suspended(s.pc[t].op)).(holder := Task(t))
    case LockQueue(t) => Goto(s.(receivers := Lock(s.receivers), senders := Lock(s.senders)), t, Locked(s.pc[t].op))
    case CheckTime(t, expired) =>
      Goto(s, t, if expired then UnlockTx(s.pc[t].op, GiveUp) else NotExpired(s.pc[t].op))
    case CheckAgain(t) =>
      Goto(s, t, if NothingOffered(s, s.pc[t].op) then MustWait(s.pc[t].op) else UnlockTx(s.pc[t].op, Again))
    case PlaceOnList(t, at) => Goto(Placed(s, t, s.pc[t].op, at), t, UnlockTx(s.pc[t].op, Sleep))
    case ReplayTx(t) => Goto(s.(receivers := Unlock(s.receivers)), t, UnlockRx(s.pc[t].op, s.pc[t].next))
    case ReplayRx(t) => Goto(s.(senders := Unlock(s.senders)), t, Resuming(s.pc[t].op, s.pc[t].next))
    case ResumeAll(t) =>
      var op := s.pc[t].op;
      Goto(s, t, match s.pc[t].next
                 case Sleep => Blocked(op)
                 case Again => Trying(op)
                 case GiveUp => if Takes(op) then Recheck(op) else Idle).(holder := Nobody)
    case Run(t) => Goto(s, t, Trying(s.pc[t].op))
    case TimedOut(t) =>
      s.(receivers := s.receivers.(wait := Without(s.receivers.wait, t)),
         senders := s.senders.(wait := Without(s.senders.wait, t)))
    case CheckEmpty(t) => Goto(s, t, if s.msgs == 0 then Idle else Trying(s.pc[t].op))
    case IsrSend(overwrite) =>
      if s.msgs < s.length || overwrite then
        s.(msgs := Stored(s, overwrite), receivers := PostFromIsr(s.receivers, |s.pc.Keys|))
      else s
    case IsrReceive =>
      if 0 < s.msgs then s.(msgs := s.msgs - 1, senders := PostFromIsr(s.senders, |s.pc.Keys|)) else s
  }

  // ---------- What each step does ----------

  /** The first waiter of a side, if there is one, has been woken. */
  ghost predicate FirstWoken(before: Side, after: Side) {
    && after.lock == before.lock
    && after.wait == (if before.wait == [] then [] else before.wait[1..])
    && forall t :: t in after.claims <==> t in before.claims || (before.wait != [] && t == before.wait[0])
  }

  /** Task `t` has tried again: nothing about the side has changed but its claim. */
  ghost predicate ClaimGiven(before: Side, after: Side, t: TaskId) {
    && after.lock == before.lock && after.wait == before.wait
    && forall u :: u in after.claims <==> u in before.claims && u != t
  }

  /** An interrupt has told a side: it woke the first waiter, or counted one more, up to the number of tasks,
      while the queue is locked. */
  ghost predicate Told(before: Side, after: Side, n: nat) {
    if before.lock == UNLOCKED then FirstWoken(before, after)
    else
      && after.wait == before.wait && after.claims == before.claims
      && after.lock == if before.lock < n then before.lock + 1 else before.lock
  }

  ghost predicate OnlyTaskMoves(s: State, r: State, t: TaskId) {
    && r.length == s.length && t in s.pc && r.pc.Keys == s.pc.Keys
    && forall u :: u in s.pc && u != t ==> r.pc[u] == s.pc[u]
  }

  lemma WakeFirstExact(s: Side)
    ensures FirstWoken(s, WakeFirst(s))
  {
  }

  lemma PostExact(s: Side, n: nat)
    ensures Told(s, PostFromIsr(s, n), n)
  {
    WakeFirstExact(s);
  }

  /** A send succeeds iff there is room; it then adds exactly one message and wakes the first task that waits
      to receive.  Otherwise it moves no message, wakes nobody, and goes on to block iff it may. */
  lemma SendExact(s: State, t: TaskId, mayBlock: bool)
    requires Enabled(s, Try(t, mayBlock)) && s.pc[t].op.Send?
    ensures var r := Apply(s, Try(t, mayBlock));
            && OnlyTaskMoves(s, r, t) && r.holder == s.holder && ClaimGiven(s.senders, r.senders, t)
            && if s.msgs < s.length then
                 r.msgs == s.msgs + 1 && r.pc[t] == Idle && FirstWoken(s.receivers, r.receivers)
               else
                 && r.msgs == s.msgs && r.receivers == s.receivers
                 && r.pc[t] == if mayBlock then Failed(Send) else Idle
  {
  }

  /** An overwriting send always succeeds: it adds a message iff there is none, and wakes the first task that
      waits to receive. */
  lemma OverwriteExact(s: State, t: TaskId, mayBlock: bool)
    requires Enabled(s, Try(t, mayBlock)) && s.pc[t].op.Overwrite?
    ensures var r := Apply(s, Try(t, mayBlock));
            && OnlyTaskMoves(s, r, t) && r.holder == s.holder && r.senders == s.senders && r.pc[t] == Idle
            && r.msgs == (if s.msgs == 0 then 1 else s.msgs) && FirstWoken(s.receivers, r.receivers)
  {
  }

  /** A receive succeeds iff there is a message; it then takes exactly one and wakes the first task that waits
      to send.  Otherwise it moves no message, wakes nobody, and goes on to block iff it may. */
  lemma ReceiveExact(s: State, t: TaskId, mayBlock: bool)
    requires Enabled(s, Try(t, mayBlock)) && s.pc[t].op.Receive?
    ensures var r := Apply(s, Try(t, mayBlock));
            && OnlyTaskMoves(s, r, t) && r.holder == s.holder && ClaimGiven(s.receivers, r.receivers, t)
            && if 0 < s.msgs then
                 r.msgs == s.msgs - 1 && r.pc[t] == Idle && FirstWoken(s.senders, r.senders)
               else
                 && r.msgs == s.msgs && r.senders == s.senders
                 && r.pc[t] == if mayBlock then Failed(Receive) else Idle
  {
  }

  /** A peek succeeds iff there is a message, which it leaves; it then wakes the next task that waits to
      receive.  Otherwise it wakes nobody and goes on to block iff it may. */
  lemma PeekExact(s: State, t: TaskId, mayBlock: bool)
    requires Enabled(s, Try(t, mayBlock)) && s.pc[t].op.Peek?
    ensures var r := Apply(s, Try(t, mayBlock));
            && OnlyTaskMoves(s, r, t) && r.holder == s.holder && r.senders == s.senders && r.msgs == s.msgs
            && if 0 < s.msgs then
                 && r.pc[t] == Idle
                 && FirstWoken(s.receivers.(claims := s.receivers.claims - {t}), r.receivers)
               else
                 && ClaimGiven(s.receivers, r.receivers, t)
                 && r.pc[t] == if mayBlock then Failed(Peek) else Idle
  {
  }

  /** An interrupt that sends, or that receives, succeeds on the same terms, and tells the other side. */
  lemma IsrExact(s: State, overwrite: bool)
    requires Enabled(s, IsrSend(overwrite))
    ensures var r, sent := Apply(s, IsrSend(overwrite)), s.msgs < s.length || overwrite;
            && r == s.(msgs := r.msgs, receivers := r.receivers)
            && r.msgs == s.msgs + (if sent && !(overwrite && 0 < s.msgs) then 1 else 0)
            && if sent then Told(s.receivers, r.receivers, |s.pc.Keys|) else r.receivers == s.receivers
    ensures var r := Apply(s, IsrReceive);
            && r == s.(msgs := r.msgs, senders := r.senders)
            && r.msgs == (if 0 < s.msgs then s.msgs - 1 else 0)
            && if 0 < s.msgs then Told(s.senders, r.senders, |s.pc.Keys|) else r.senders == s.senders
  {
    PostExact(s.receivers, |s.pc.Keys|);
    PostExact(s.senders, |s.pc.Keys|);
  }

  /** The unlock wakes as many of the first waiters as were counted, or all of them, and no other. */
  lemma {:induction false} ReplayExact(s: Side)
    ensures var r := Replay(s);
            var n := if s.lock < 0 then 0 else if s.lock < |s.wait| then s.lock else |s.wait|;
            && r.wait == s.wait[n..] && (forall t :: t in r.claims <==> t in s.claims || t in s.wait[..n])
    decreases |s.wait|
  {
    if 0 < s.lock && s.wait != [] {
      var n := if s.lock < |s.wait| then s.lock else |s.wait|;
      ReplayExact(WakeFirst(s).(lock := s.lock - 1));
      assert s.wait[1..][n-1..] == s.wait[n..];
      assert s.wait[..n] == [s.wait[0]] + s.wait[1..][..n-1];
    }
  }

  lemma UnlockExact(s: Side)
    ensures var r := Unlock(s);
            var n := if s.lock < 0 then 0 else if s.lock < |s.wait| then s.lock else |s.wait|;
            && r.lock == UNLOCKED && r.wait == s.wait[n..]
            && (forall t :: t in r.claims <==> t in s.claims || t in s.wait[..n])
  {
    ReplayExact(s);
  }

  /** The other steps move no message.  A call goes through them in the order of the source: it suspends the
      scheduler, locks the queue, looks at the time, looks at the queue again, takes a place in the list iff
      nothing is offered then, unlocks both sides, resumes, and sleeps, tries again or gives up. */
  lemma OtherStepsExact(s: State, step: Step)
    requires Enabled(s, step) && !step.Try? && !step.IsrSend? && !step.IsrReceive?
    ensures var r, t := Apply(s, step), step.t;
            && OnlyTaskMoves(s, r, t) && r.msgs == s.msgs
            && r.holder == (if step.SuspendAll? then Task(t) else if step.ResumeAll? then Nobody else s.holder)
            && match step
               case Begin(_, op) => r.pc[t] == Trying(op)
               case SuspendAll(_) => r.pc[t] == Suspended(s.pc[t].op)
               case LockQueue(_) => r.pc[t] == Locked(s.pc[t].op)
               case CheckTime(_, expired) =>
                 r.pc[t] == if expired then UnlockTx(s.pc[t].op, GiveUp) else NotExpired(s.pc[t].op)
               case CheckAgain(_) =>
                 var offered := if Takes(s.pc[t].op) then s.msgs != 0 else s.msgs != s.length;
                 r.pc[t] == if offered then UnlockTx(s.pc[t].op, Again) else MustWait(s.pc[t].op)
               case PlaceOnList(_, _) => r.pc[t] == UnlockTx(s.pc[t].op, Sleep)
               case ReplayTx(_) => r.pc[t] == UnlockRx(s.pc[t].op, s.pc[t].next)
               case ReplayRx(_) => r.pc[t] == Resuming(s.pc[t].op, s.pc[t].next)
               case ResumeAll(_) =>
                 && (s.pc[t].next == Sleep ==> r.pc[t] == Blocked(s.pc[t].op))
                 && (s.pc[t].next == Again ==> r.pc[t] == Trying(s.pc[t].op))
                 && (s.pc[t].next == GiveUp ==>
                       r.pc[t] == if Takes(s.pc[t].op) then Recheck(s.pc[t].op) else Idle)
               case Run(_) => r.pc[t] == Trying(s.pc[t].op)
               case TimedOut(_) => r.pc[t] == s.pc[t]
               case CheckEmpty(_) => r.pc[t] == if s.msgs == 0 then Idle else Trying(s.pc[t].op)
  {
  }

  /** What they do to the two sides: locking sets the locks that are not set, a place in the list is a place on
      the caller's own side, each unlock replays its own side, a timeout takes the task off, and nothing else
      touches a side. */
  lemma SidesExact(s: State, step: Step)
    requires Enabled(s, step) && !step.Try? && !step.IsrSend? && !step.IsrReceive?
    ensures var r, t := Apply(s, step), step.t;
            match step
            case LockQueue(_) => Relocked(s.receivers, r.receivers) && Relocked(s.senders, r.senders)
            case PlaceOnList(_, at) =>
              if Takes(s.pc[t].op) then Joined(s.receivers, r.receivers, t, at) && r.senders == s.senders
              else Joined(s.senders, r.senders, t, at) && r.receivers == s.receivers
            case ReplayTx(_) => r.receivers == Unlock(s.receivers) && r.senders == s.senders
            case ReplayRx(_) => r.senders == Unlock(s.senders) && r.receivers == s.receivers
            case TimedOut(_) => Left(s.receivers, r.receivers, t) && Left(s.senders, r.senders, t)
            case _ => r.receivers == s.receivers && r.senders == s.senders
  {
    if step.TimedOut? {
      WithoutMembers(s.receivers.wait, step.t);
      WithoutMembers(s.senders.wait, step.t);
    }
  }

  ghost predicate Relocked(before: Side, after: Side) {
    && after.wait == before.wait && after.claims == before.claims
    && after.lock == if before.lock == UNLOCKED then 0 else before.lock
  }

  ghost predicate Joined(before: Side, after: Side, t: TaskId, at: nat) {
    && at <= |before.wait| && after.wait == before.wait[..at] + [t] + before.wait[at..]
    && after.lock == before.lock && after.claims == before.claims
  }

  ghost predicate Left(before: Side, after: Side, t: TaskId) {
    && after.wait == Without(before.wait, t) && (forall u :: u in after.wait <==> u in before.wait && u != t)
    && after.lock == before.lock && after.claims == before.claims
  }

  // ---------- The invariant ----------

  /** Places of a task that is in a list or has been woken and has not yet run. */
  predicate Asleep(p: Pc, takes: bool) {
    match p
    case Blocked(op) => WaitsOn(op, takes)
    case UnlockTx(op, next) => next.Sleep? && WaitsOn(op, takes)
    case UnlockRx(op, next) => next.Sleep? && WaitsOn(op, takes)
    case Resuming(op, next) => next.Sleep? && WaitsOn(op, takes)
    case _ => false
  }

  predicate Deciding(s: State, takes: bool) {
    && s.holder.Task? && s.holder.id in s.pc
    && s.pc[s.holder.id].MustWait? && WaitsOn(s.pc[s.holder.id].op, takes)
  }

  /** Everybody in a list is asleep, and everybody woken is asleep or about to try again. */
  ghost predicate PlacesOk(side: Side, pc: map<TaskId, Pc>, takes: bool) {
    && (forall t :: t in side.wait ==> t in pc && Asleep(pc[t], takes))
    && (forall t :: t in side.claims ==>
          t in pc && (Asleep(pc[t], takes) || (pc[t].Trying? && WaitsOn(pc[t].op, takes))))
  }

  ghost predicate LocksOk(s: State, p: Pc) {
    && (s.receivers.lock == UNLOCKED <==> !(p.Locked? || p.NotExpired? || p.MustWait? || p.UnlockTx?))
    && (s.senders.lock == UNLOCKED <==> !(p.Locked? || p.NotExpired? || p.MustWait? || p.UnlockTx? || p.UnlockRx?))
  }

  /** Who has suspended the scheduler, and how far it has locked the queue. */
  ghost predicate SectionOk(s: State) {
    && (forall t :: t in s.pc ==> (Section(s.pc[t]) <==> s.holder == Task(t)))
    && (s.holder.Task? ==> s.holder.id in s.pc)
    && LocksOk(s, if s.holder.Task? then s.pc[s.holder.id] else Idle)
  }

  ghost predicate OpsOk(s: State) {
    forall t :: t in s.pc && !s.pc[t].Idle? && s.pc[t].op.Overwrite? ==> s.length == 1 && s.pc[t].Trying?
  }

  ghost predicate Inv(s: State) {
    && s.msgs <= s.length
    && SideOk(s.receivers, s.pc.Keys) && Spoken(s.receivers, s.pc.Keys, s.msgs, Deciding(s, true))
    && SideOk(s.senders, s.pc.Keys) && Spoken(s.senders, s.pc.Keys, s.length - s.msgs, Deciding(s, false))
    && PlacesOk(s.receivers, s.pc, true) && PlacesOk(s.senders, s.pc, false)
    && SectionOk(s) && OpsOk(s)
  }

  /** A task moves without touching a side. */
  lemma MovePlaces(side: Side, pc: map<TaskId, Pc>, takes: bool, t: TaskId, p: Pc)
    requires PlacesOk(side, pc, takes) && t in pc
    requires Asleep(p, takes) || (p.Trying? && WaitsOn(p.op, takes) && t !in side.wait)
             || (t !in side.wait && t !in side.claims)
    ensures PlacesOk(side, pc[t := p], takes) && pc[t := p].Keys == pc.Keys
  {
  }

  lemma WakePlaces(side: Side, pc: map<TaskId, Pc>, takes: bool)
    requires PlacesOk(side, pc, takes)
    ensures PlacesOk(WakeFirst(side), pc, takes)
  {
    assert forall t :: side.wait != [] && t in side.wait[1..] ==> t in side.wait;
    assert side.wait != [] ==> side.wait[0] in side.wait;
  }

  lemma {:induction false} ReplayPlaces(side: Side, pc: map<TaskId, Pc>, takes: bool)
    requires PlacesOk(side, pc, takes)
    ensures PlacesOk(Unlock(side), pc, takes)
    decreases |side.wait|
  {
    if 0 < side.lock && side.wait != [] {
      WakePlaces(side, pc, takes);
      ReplayPlaces(WakeFirst(side).(lock := side.lock - 1), pc, takes);
    }
  }

  /** A task that is neither asleep nor trying is in no list and holds no claim. */
  lemma AwakeIsNowhere(s: State, t: TaskId)
    requires Inv(s) && t in s.pc
    ensures !Asleep(s.pc[t], true) ==> t !in s.receivers.wait
    ensures !Asleep(s.pc[t], false) ==> t !in s.senders.wait
    ensures !Asleep(s.pc[t], true) && !(s.pc[t].Trying? && WaitsOn(s.pc[t].op, true)) ==> t !in s.receivers.claims
    ensures !Asleep(s.pc[t], false) && !(s.pc[t].Trying? && WaitsOn(s.pc[t].op, false)) ==> t !in s.senders.claims
  {
  }

  lemma NobodySuspends(s: State)
    requires Inv(s) && s.holder == Nobody
    ensures s.receivers.lock == s.senders.lock == UNLOCKED && !Deciding(s, true) && !Deciding(s, false)
    ensures forall t :: t in s.pc && !s.pc[t].Idle? && s.pc[t].op.Overwrite? ==> s.length == 1
  {
  }

  /** A step between two places outside the suspended section. */
  lemma StayOutside(s: State, r: State, t: TaskId, p: Pc)
    requires SectionOk(s) && OpsOk(s) && t in s.pc && s.holder == r.holder == Nobody && !Section(p)
    requires r.length == s.length && r.pc == s.pc[t := p] && r.receivers.lock == r.senders.lock == UNLOCKED
    requires !p.Idle? && p.op.Overwrite? ==> p.Trying? && s.length == 1
    ensures SectionOk(r) && OpsOk(r) && r.pc.Keys == s.pc.Keys && !Deciding(r, true) && !Deciding(r, false)
  {
  }

  /** A task that has tried is no claimant any more. */
  lemma TriedPlaces(side: Side, pc: map<TaskId, Pc>, takes: bool, t: TaskId, p: Pc)
    requires PlacesOk(side, pc, takes) && t in pc && t !in side.wait
    ensures PlacesOk(Retried(side, t), pc[t := p], takes)
    ensures PlacesOk(WakeFirst(Retried(side, t)), pc[t := p], takes)
  {
    WakePlaces(Retried(side, t), pc[t := p], takes);
  }

  lemma TrySendKeepsInv(s: State, t: TaskId, mayBlock: bool)
    requires Inv(s) && Enabled(s, Try(t, mayBlock)) && s.pc[t].op.Send?
    ensures Inv(Apply(s, Try(t, mayBlock)))
  {
    hide Spoken, SideOk, SectionOk, OpsOk, PlacesOk;
    var r := Apply(s, Try(t, mayBlock));
    AwakeIsNowhere(s, t);
    NobodySuspends(s);
    StayOutside(s, r, t, r.pc[t]);
    SendKeeps(s, t);
    TriedPlaces(s.senders, s.pc, false, t, r.pc[t]);
    MovePlaces(s.receivers, s.pc, true, t, r.pc[t]);
    WakePlaces(s.receivers, r.pc, true);
  }

  lemma TryOverwriteKeepsInv(s: State, t: TaskId, mayBlock: bool)
    requires Inv(s) && Enabled(s, Try(t, mayBlock)) && s.pc[t].op.Overwrite?
    ensures Inv(Apply(s, Try(t, mayBlock)))
  {
    hide Spoken, SideOk, SectionOk, OpsOk, PlacesOk;
    var r := Apply(s, Try(t, mayBlock));
    AwakeIsNowhere(s, t);
    NobodySuspends(s);
    StayOutside(s, r, t, r.pc[t]);
    OverwriteKeeps(s);
    MovePlaces(s.senders, s.pc, false, t, r.pc[t]);
    MovePlaces(s.receivers, s.pc, true, t, r.pc[t]);
    WakePlaces(s.receivers, r.pc, true);
  }

  lemma TryReceiveKeepsInv(s: State, t: TaskId, mayBlock: bool)
    requires Inv(s) && Enabled(s, Try(t, mayBlock)) && s.pc[t].op.Receive?
    ensures Inv(Apply(s, Try(t, mayBlock)))
  {
    hide Spoken, SideOk, SectionOk, OpsOk, PlacesOk;
    var r := Apply(s, Try(t, mayBlock));
    AwakeIsNowhere(s, t);
    NobodySuspends(s);
    StayOutside(s, r, t, r.pc[t]);
    ReceiveKeeps(s, t);
    TriedPlaces(s.receivers, s.pc, true, t, r.pc[t]);
    MovePlaces(s.senders, s.pc, false, t, r.pc[t]);
    WakePlaces(s.senders, r.pc, false);
  }

  lemma TryPeekKeepsInv(s: State, t: TaskId, mayBlock: bool)
    requires Inv(s) && Enabled(s, Try(t, mayBlock)) && s.pc[t].op.Peek?
    ensures Inv(Apply(s, Try(t, mayBlock)))
  {
    hide Spoken, SideOk, SectionOk, OpsOk, PlacesOk;
    var r := Apply(s, Try(t, mayBlock));
    AwakeIsNowhere(s, t);
    NobodySuspends(s);
    StayOutside(s, r, t, r.pc[t]);
    PeekKeeps(s, t);
    TriedPlaces(s.receivers, s.pc, true, t, r.pc[t]);
    MovePlaces(s.senders, s.pc, false, t, r.pc[t]);
  }

  lemma SendKeeps(s: State, t: TaskId)
    requires Inv(s) && s.holder == Nobody
    ensures var free := s.length - s.msgs;
            var senders, receivers := Retried(s.senders, t), WakeFirst(s.receivers);
            && SideOk(senders, s.pc.Keys) && Spoken(senders, s.pc.Keys, if 0 < free then free - 1 else 0, false)
            && SideOk(receivers, s.pc.Keys) && Spoken(receivers, s.pc.Keys, s.msgs + 1, false)
  {
    var free := s.length - s.msgs;
    RetryKeeps(s.senders, s.pc.Keys, free, false, t, if 0 < free then free - 1 else 0);
    PostKeeps(s.receivers, s.pc.Keys, s.msgs, false);
  }

  lemma OverwriteKeeps(s: State)
    requires Inv(s) && s.holder == Nobody
    ensures var receivers := WakeFirst(s.receivers);
            SideOk(receivers, s.pc.Keys) && Spoken(receivers, s.pc.Keys, Stored(s, true), false)
    ensures Spoken(s.senders, s.pc.Keys, s.length - Stored(s, true), false)
  {
    PostKeeps(s.receivers, s.pc.Keys, s.msgs, false);
    RepeatKeeps(s.receivers, s.pc.Keys, s.msgs, false);
  }

  lemma ReceiveKeeps(s: State, t: TaskId)
    requires Inv(s) && s.holder == Nobody
    ensures var receivers, senders := Retried(s.receivers, t), WakeFirst(s.senders);
            && SideOk(receivers, s.pc.Keys) && Spoken(receivers, s.pc.Keys, if 0 < s.msgs then s.msgs - 1 else 0, false)
            && SideOk(senders, s.pc.Keys) && Spoken(senders, s.pc.Keys, s.length - s.msgs + 1, false)
  {
    RetryKeeps(s.receivers, s.pc.Keys, s.msgs, false, t, if 0 < s.msgs then s.msgs - 1 else 0);
    PostKeeps(s.senders, s.pc.Keys, s.length - s.msgs, false);
  }

  lemma PeekKeeps(s: State, t: TaskId)
    requires Inv(s) && s.holder == Nobody
    ensures var told := WakeFirst(Retried(s.receivers, t));
            SideOk(told, s.pc.Keys) && Spoken(told, s.pc.Keys, s.msgs, false)
    ensures s.msgs == 0 ==>
            SideOk(Retried(s.receivers, t), s.pc.Keys) && Spoken(Retried(s.receivers, t), s.pc.Keys, 0, false)
  {
    PassOnKeeps(s.receivers, s.pc.Keys, s.msgs, t);
    if s.msgs == 0 {
      RetryKeeps(s.receivers, s.pc.Keys, 0, false, t, 0);
    }
  }

  /** Steps of a running task that touch nothing shared. */
  lemma StrollKeepsInv(s: State, step: Step)
    requires Inv(s) && Enabled(s, step) && (step.Begin? || step.Run? || step.CheckEmpty?)
    ensures Inv(Apply(s, step))
  {
    hide Spoken, SideOk, SectionOk, OpsOk, PlacesOk;
    var r, t := Apply(s, step), step.t;
    AwakeIsNowhere(s, t);
    NobodySuspends(s);
    StayOutside(s, r, t, r.pc[t]);
    MovePlaces(s.senders, s.pc, false, t, r.pc[t]);
    MovePlaces(s.receivers, s.pc, true, t, r.pc[t]);
  }

  /** A step of the task that suspends, or has suspended, the scheduler. */
  lemma StayInside(s: State, r: State, t: TaskId, p: Pc)
    requires SectionOk(s) && OpsOk(s) && t in s.pc && MayRun(s, t) && !s.pc[t].Idle? && !s.pc[t].Trying?
    requires Section(p) && p.op == s.pc[t].op && r.length == s.length && r.holder == Task(t) && r.pc == s.pc[t := p]
    requires LocksOk(r, p)
    ensures SectionOk(r) && OpsOk(r) && r.pc.Keys == s.pc.Keys
    ensures Deciding(r, true) <==> p.MustWait? && WaitsOn(p.op, true)
    ensures Deciding(r, false) <==> p.MustWait? && WaitsOn(p.op, false)
  {
  }

  lemma HolderLocks(s: State, t: TaskId)
    requires Inv(s) && MayRun(s, t)
    ensures LocksOk(s, s.pc[t])
    ensures Deciding(s, true) <==> s.pc[t].MustWait? && WaitsOn(s.pc[t].op, true)
    ensures Deciding(s, false) <==> s.pc[t].MustWait? && WaitsOn(s.pc[t].op, false)
    ensures UNLOCKED <= s.receivers.lock && UNLOCKED <= s.senders.lock
    ensures !s.pc[t].Idle? && !s.pc[t].Trying? ==> !s.pc[t].op.Overwrite?
  {
  }

  lemma LockStepsKeepInv(s: State, step: Step)
    requires Inv(s) && Enabled(s, step) && (step.SuspendAll? || step.LockQueue?)
    ensures Inv(Apply(s, step))
  {
    hide Spoken, SideOk, SectionOk, OpsOk, PlacesOk;
    var r, t := Apply(s, step), step.t;
    AwakeIsNowhere(s, t);
    HolderLocks(s, t);
    StayInside(s, r, t, r.pc[t]);
    MovePlaces(s.senders, s.pc, false, t, r.pc[t]);
    MovePlaces(s.receivers, s.pc, true, t, r.pc[t]);
    LockKeeps(s.receivers, s.pc.Keys, s.msgs);
    LockKeeps(s.senders, s.pc.Keys, s.length - s.msgs);
    LockPlaces(s.receivers, r.pc, true);
    LockPlaces(s.senders, r.pc, false);
  }

  lemma LockPlaces(side: Side, pc: map<TaskId, Pc>, takes: bool)
    requires PlacesOk(side, pc, takes)
    ensures PlacesOk(Lock(side), pc, takes)
  {
  }

  /** The checks made under the lock: the decision to wait is taken only when nothing is offered. */
  lemma ChecksKeepInv(s: State, step: Step)
    requires Inv(s) && Enabled(s, step) && (step.CheckTime? || step.CheckAgain?)
    ensures Inv(Apply(s, step))
  {
    hide Spoken, SideOk, SectionOk, OpsOk, PlacesOk;
    var r, t := Apply(s, step), step.t;
    AwakeIsNowhere(s, t);
    HolderLocks(s, t);
    StayInside(s, r, t, r.pc[t]);
    MovePlaces(s.senders, s.pc, false, t, r.pc[t]);
    MovePlaces(s.receivers, s.pc, true, t, r.pc[t]);
    DecideKeeps(s.receivers, s.pc.Keys);
    DecideKeeps(s.senders, s.pc.Keys);
  }

  lemma PlaceKeepsInv(s: State, t: TaskId, at: nat)
    requires Inv(s) && Enabled(s, PlaceOnList(t, at))
    ensures Inv(Apply(s, PlaceOnList(t, at)))
  {
    hide Spoken, SideOk, SectionOk, OpsOk, PlacesOk;
    var r, op := Apply(s, PlaceOnList(t, at)), s.pc[t].op;
    AwakeIsNowhere(s, t);
    HolderLocks(s, t);
    StayInside(s, r, t, r.pc[t]);
    MovePlaces(s.senders, s.pc, false, t, r.pc[t]);
    MovePlaces(s.receivers, s.pc, true, t, r.pc[t]);
    if Takes(op) {
      PlaceKeeps(s.receivers, s.pc.Keys, s.msgs, t, at);
      PlacedPlaces(s.receivers, r.pc, true, t, at);
    } else {
      PlaceKeeps(s.senders, s.pc.Keys, s.length - s.msgs, t, at);
      PlacedPlaces(s.senders, r.pc, false, t, at);
    }
  }

  lemma PlacedPlaces(side: Side, pc: map<TaskId, Pc>, takes: bool, t: TaskId, at: nat)
    requires PlacesOk(side, pc, takes) && t in pc && Asleep(pc[t], takes) && at <= |side.wait|
    ensures PlacesOk(side.(wait := InsertAt(side.wait, at, t)), pc, takes)
  {
    var w := InsertAt(side.wait, at, t);
    forall u | u in w ensures u in pc && Asleep(pc[u], takes) {
      var i :| 0 <= i < |w| && w[i] == u;
      assert i != at ==> u in side.wait;
    }
  }

  lemma ReplaysKeepInv(s: State, step: Step)
    requires Inv(s) && Enabled(s, step) && (step.ReplayTx? || step.ReplayRx?)
    ensures Inv(Apply(s, step))
  {
    hide Spoken, SideOk, SectionOk, OpsOk, PlacesOk;
    var r, t := Apply(s, step), step.t;
    AwakeIsNowhere(s, t);
    HolderLocks(s, t);
    StayInside(s, r, t, r.pc[t]);
    KeepAsleep(s.senders, s.pc, false, t, r.pc[t]);
    KeepAsleep(s.receivers, s.pc, true, t, r.pc[t]);
    if step.ReplayTx? {
      UnlockKeeps(s.receivers, s.pc.Keys, s.msgs);
      ReplayPlaces(s.receivers, r.pc, true);
    } else {
      UnlockKeeps(s.senders, s.pc.Keys, s.length - s.msgs);
      ReplayPlaces(s.senders, r.pc, false);
    }
  }

  /** A task that stays asleep on a side, or is on neither, keeps the lists in order. */
  lemma KeepAsleep(side: Side, pc: map<TaskId, Pc>, takes: bool, t: TaskId, p: Pc)
    requires PlacesOk(side, pc, takes) && t in pc && !pc[t].Trying?
    requires Asleep(pc[t], takes) ==> Asleep(p, takes)
    ensures PlacesOk(side, pc[t := p], takes)
  {
  }

  /** The scheduler runs again. */
  lemma ResumeKeepsInv(s: State, t: TaskId)
    requires Inv(s) && Enabled(s, ResumeAll(t))
    ensures Inv(Apply(s, ResumeAll(t)))
  {
    hide Spoken, SideOk, SectionOk, OpsOk, PlacesOk;
    var r := Apply(s, ResumeAll(t));
    HolderLocks(s, t);
    LeaveSection(s, r, t, r.pc[t]);
    KeepAsleep(s.senders, s.pc, false, t, r.pc[t]);
    KeepAsleep(s.receivers, s.pc, true, t, r.pc[t]);
  }

  lemma LeaveSection(s: State, r: State, t: TaskId, p: Pc)
    requires SectionOk(s) && OpsOk(s) && t in s.pc && s.holder == Task(t) && s.pc[t].Resuming? && !Section(p)
    requires r.length == s.length && r.pc == s.pc[t := p] && r.holder == Nobody && LocksOk(r, Idle)
    requires p.Idle? || p.op == s.pc[t].op
    ensures SectionOk(r) && OpsOk(r) && r.pc.Keys == s.pc.Keys && !Deciding(r, true) && !Deciding(r, false)
  {
  }

  /** A step in which no task moves. */
  lemma NobodyMoves(s: State, r: State)
    requires SectionOk(s) && OpsOk(s) && r.pc == s.pc && r.holder == s.holder && r.length == s.length
    requires (r.receivers.lock == UNLOCKED <==> s.receivers.lock == UNLOCKED)
    requires (r.senders.lock == UNLOCKED <==> s.senders.lock == UNLOCKED)
    ensures SectionOk(r) && OpsOk(r)
    ensures Deciding(r, true) == Deciding(s, true) && Deciding(r, false) == Deciding(s, false)
  {
  }

  lemma TimedOutKeepsInv(s: State, t: TaskId)
    requires Inv(s) && Enabled(s, TimedOut(t))
    ensures Inv(Apply(s, TimedOut(t)))
  {
    hide Spoken, SideOk, SectionOk, OpsOk, Deciding, PlacesOk, MayRun, Listed, Without;
    NobodyMoves(s, Apply(s, TimedOut(t)));
    RemoveKeeps(s.receivers, s.pc.Keys, s.msgs, Deciding(s, true), t);
    RemoveKeeps(s.senders, s.pc.Keys, s.length - s.msgs, Deciding(s, false), t);
    RemovePlaces(s.receivers, s.pc, true, t);
    RemovePlaces(s.senders, s.pc, false, t);
  }

  lemma RemovePlaces(side: Side, pc: map<TaskId, Pc>, takes: bool, t: TaskId)
    requires PlacesOk(side, pc, takes)
    ensures PlacesOk(side.(wait := Without(side.wait, t)), pc, takes)
  {
    WithoutMembers(side.wait, t);
  }

  lemma PostPlaces(side: Side, pc: map<TaskId, Pc>, takes: bool, n: nat)
    requires PlacesOk(side, pc, takes) && UNLOCKED <= side.lock
    ensures PlacesOk(PostFromIsr(side, n), pc, takes)
    ensures PostFromIsr(side, n).lock == UNLOCKED <==> side.lock == UNLOCKED
  {
    WakePlaces(side, pc, takes);
  }

  /** Interrupts may come between any two steps, in particular between the decision to wait and the
      insertion into the list. */
  lemma IsrSendKeepsInv(s: State, overwrite: bool)
    requires Inv(s) && Enabled(s, IsrSend(overwrite))
    ensures Inv(Apply(s, IsrSend(overwrite)))
  {
    LockBounds(s);
    hide Spoken, SideOk, SectionOk, OpsOk, PlacesOk, Deciding, PostFromIsr;
    PostPlaces(s.receivers, s.pc, true, |s.pc.Keys|);
    NobodyMoves(s, Apply(s, IsrSend(overwrite)));
    PostKeeps(s.receivers, s.pc.Keys, s.msgs, Deciding(s, true));
    RepeatKeeps(s.receivers, s.pc.Keys, s.msgs, Deciding(s, true));
    FewerOffered(s.senders, s.pc.Keys, s.length - s.msgs, Deciding(s, false));
  }

  lemma IsrReceiveKeepsInv(s: State)
    requires Inv(s)
    ensures Inv(Apply(s, IsrReceive))
  {
    LockBounds(s);
    hide Spoken, SideOk, SectionOk, OpsOk, PlacesOk, Deciding, PostFromIsr;
    PostPlaces(s.senders, s.pc, false, |s.pc.Keys|);
    NobodyMoves(s, Apply(s, IsrReceive));
    PostKeeps(s.senders, s.pc.Keys, s.length - s.msgs, Deciding(s, false));
    FewerOffered(s.receivers, s.pc.Keys, s.msgs, Deciding(s, true));
  }

  lemma LockBounds(s: State)
    requires Inv(s)
    ensures UNLOCKED <= s.receivers.lock <= |s.pc.Keys| && UNLOCKED <= s.senders.lock <= |s.pc.Keys|
  {
  }

  lemma FewerOffered(s: Side, tasks: set<TaskId>, offered: int, deciding: bool)
    requires Spoken(s, tasks, offered, deciding)
    ensures Spoken(s, tasks, offered - 1, deciding)
  {
  }

  /** Every step of every task and interrupt keeps the invariant. */
  lemma StepKeepsInv(s: State, step: Step)
    requires Inv(s) && Enabled(s, step)
    ensures Inv(Apply(s, step))
  {
    hide Inv, Apply, Enabled;
    match step
    case Begin(_, _) => StrollKeepsInv(s, step);
    case Run(_) => StrollKeepsInv(s, step);
    case CheckEmpty(_) => StrollKeepsInv(s, step);
    case Try(t, mayBlock) => TryKeepsInv(s, t, mayBlock);
    case SuspendAll(_) => LockStepsKeepInv(s, step);
    case LockQueue(_) => LockStepsKeepInv(s, step);
    case CheckTime(_, _) => ChecksKeepInv(s, step);
    case CheckAgain(_) => ChecksKeepInv(s, step);
    case PlaceOnList(t, at) => PlaceKeepsInv(s, t, at);
    case ReplayTx(_) => ReplaysKeepInv(s, step);
    case ReplayRx(_) => ReplaysKeepInv(s, step);
    case ResumeAll(t) => ResumeKeepsInv(s, t);
    case TimedOut(t) => TimedOutKeepsInv(s, t);
    case IsrSend(overwrite) => IsrSendKeepsInv(s, overwrite);
    case IsrReceive => IsrReceiveKeepsInv(s);
  }

  lemma TryKeepsInv(s: State, t: TaskId, mayBlock: bool)
    requires Inv(s) && Enabled(s, Try(t, mayBlock))
    ensures Inv(Apply(s, Try(t, mayBlock)))
  {
    hide Inv, Apply;
    match s.pc[t].op
    case Send => TrySendKeepsInv(s, t, mayBlock);
    case Overwrite => TryOverwriteKeepsInv(s, t, mayBlock);
    case Receive => TryReceiveKeepsInv(s, t, mayBlock);
    case Peek => TryPeekKeepsInv(s, t, mayBlock);
  }

  // ---------- Whole runs ----------

  function Init(length: nat, tasks: set<TaskId>): State {
    State(length, 0, Side([], UNLOCKED, {}), Side([], UNLOCKED, {}), Nobody, map t | t in tasks :: Idle)
  }

  /** A run from the empty queue. */
  ghost predicate IsRun(states: seq<State>, steps: seq<Step>, length: nat, tasks: set<TaskId>) {
    && |states| == |steps| + 1 && states[0] == Init(length, tasks)
    && forall i :: 0 <= i < |steps| ==> Enabled(states[i], steps[i]) && states[i+1] == Apply(states[i], steps[i])
  }

  lemma {:induction false} RunInv(states: seq<State>, steps: seq<Step>, length: nat, tasks: set<TaskId>, k: nat)
    requires IsRun(states, steps, length, tasks) && k < |states|
    ensures Inv(states[k])
  {
    if k == 0 {
      assert Init(length, tasks).pc.Keys == tasks;
    } else {
      RunInv(states, steps, length, tasks, k - 1);
      StepKeepsInv(states[k-1], steps[k-1]);
    }
  }

  /** Task `t` has been woken: nothing but the scheduler keeps it from trying again. */
  predicate OnItsWay(s: State, t: TaskId) {
    t in s.pc && !Listed(s, t) && (Asleep(s.pc[t], true) || Asleep(s.pc[t], false) || s.pc[t].Trying?)
  }

  /** No lost wakeup.  In every state of every run in which nobody holds the queue locked, if a task
      sleeps waiting to receive then there are at least as many woken receivers still to try again
      as there are messages, and likewise for tasks waiting to send and free slots. */
  lemma NoLostWakeup(states: seq<State>, steps: seq<Step>, length: nat, tasks: set<TaskId>, k: nat)
    requires IsRun(states, steps, length, tasks) && k < |states| && states[k].holder == Nobody
    ensures var s := states[k];
            && (s.receivers.wait != [] ==> s.msgs <= |s.receivers.claims|)
            && (s.senders.wait != [] ==> s.length - s.msgs <= |s.senders.claims|)
            && (forall t :: t in s.receivers.claims || t in s.senders.claims ==> OnItsWay(s, t))
  {
    RunInv(states, steps, length, tasks, k);
  }

  /** While a task holds the queue locked, wakeups still to be replayed count too, up to the cap at
      the number of tasks. */
  lemma NoLostWakeupWhileLocked(states: seq<State>, steps: seq<Step>, length: nat, tasks: set<TaskId>, k: nat)
    requires IsRun(states, steps, length, tasks) && k < |states|
    ensures var s := states[k];
            && (s.receivers.wait != [] ==>
                  s.msgs <= |s.receivers.claims| + Count(s.receivers.lock) || s.receivers.lock == |tasks|)
            && (s.senders.wait != [] ==>
                  s.length - s.msgs <= |s.senders.claims| + Count(s.senders.lock) || s.senders.lock == |tasks|)
  {
    RunInv(states, steps, length, tasks, k);
    RunTasks(states, steps, length, tasks, k);
  }

  lemma {:induction false} RunTasks(states: seq<State>, steps: seq<Step>, length: nat, tasks: set<TaskId>, k: nat)
    requires IsRun(states, steps, length, tasks) && k < |states|
    ensures states[k].pc.Keys == tasks
  {
    if k == 0 {
      assert Init(length, tasks).pc.Keys == tasks;
    } else {
      RunTasks(states, steps, length, tasks, k - 1);
      StepKeepsTasks(states[k-1], steps[k-1]);
    }
  }

  lemma StepKeepsTasks(s: State, step: Step)
    requires Enabled(s, step)
    ensures Apply(s, step).pc.Keys == s.pc.Keys
  {
  }

  /** In every state of every run the locks count no more wakeups than there are tasks, and neither lock is
      set while nobody has suspended the scheduler. */
  lemma LocksInRange(states: seq<State>, steps: seq<Step>, length: nat, tasks: set<TaskId>, k: nat)
    requires IsRun(states, steps, length, tasks) && k < |states|
    ensures var s := states[k];
            && UNLOCKED <= s.receivers.lock <= |tasks| && UNLOCKED <= s.senders.lock <= |tasks|
            && (s.holder == Nobody ==> s.receivers.lock == s.senders.lock == UNLOCKED)
  {
    hide Inv;
    RunInv(states, steps, length, tasks, k);
    RunTasks(states, steps, length, tasks, k);
    LockBounds(states[k]);
    if states[k].holder == Nobody {
      NobodySuspends(states[k]);
    }
  }

  // ---------- The locks are 8-bit integers ----------

  const INT8_MAX := 127

  /** The assertions of prvIncrementQueueTxLock and prvIncrementQueueRxLock: a lock that is about to be
      incremented is not the largest value of its type. */
  predicate LockFits(s: State, step: Step) {
    match step
    case IsrSend(overwrite) =>
      (s.msgs < s.length || overwrite) && 0 <= s.receivers.lock < |s.pc.Keys| ==> s.receivers.lock != INT8_MAX
    case IsrReceive =>
      0 < s.msgs && 0 <= s.senders.lock < |s.pc.Keys| ==> s.senders.lock != INT8_MAX
    case _ => true
  }

  /** Task `t` waits to receive and has locked the queue; `sent` messages have come since and `received` of
      them have gone again, all in interrupts. */
  function Held(length: nat, tasks: set<TaskId>, t: TaskId, sent: nat, received: nat): State
    requires received <= sent
  {
    State(length, sent - received, Side([], sent, {}), Side([], received, {}), Task(t),
          Init(length, tasks).pc[t := Locked(Receive)])
  }

  /** A task locks the queue, and then `rounds` times an interrupt sends and another one receives. */
  function LockSteps(t: TaskId, rounds: nat): (r: seq<Step>)
    ensures |r| == 4 + rounds + rounds
  {
    if rounds == 0 then [Begin(t, Receive), Try(t, true), SuspendAll(t), LockQueue(t)]
    else LockSteps(t, rounds - 1) + [IsrSend(false), IsrReceive]
  }

  function LockStates(length: nat, tasks: set<TaskId>, t: TaskId, rounds: nat): (r: seq<State>)
    ensures |r| == 5 + rounds + rounds
  {
    if rounds == 0 then
      var s := Init(length, tasks);
      [s, Goto(s, t, Trying(Receive)), Goto(s, t, Failed(Receive)),
       Goto(s, t, Suspended(Receive)).(holder := Task(t)), Held(length, tasks, t, 0, 0)]
    else
      LockStates(length, tasks, t, rounds - 1)
      + [Held(length, tasks, t, rounds, rounds - 1), Held(length, tasks, t, rounds, rounds)]
  }

  /** A run, extended by one step. */
  lemma RunStep(states: seq<State>, steps: seq<Step>, length: nat, tasks: set<TaskId>, step: Step, s: State)
    requires IsRun(states, steps, length, tasks)
    requires Enabled(states[|steps|], step) && s == Apply(states[|steps|], step)
    ensures IsRun(states + [s], steps + [step], length, tasks)
  {
    hide Enabled, Apply;
  }

  lemma GotoTwice(s: State, t: TaskId, p: Pc, q: Pc)
    ensures Goto(Goto(s, t, p), t, q) == Goto(s, t, q)
  {
  }

  lemma FirstTryFails(length: nat, tasks: set<TaskId>, t: TaskId)
    requires t in tasks
    ensures var s := Goto(Init(length, tasks), t, Trying(Receive));
            Enabled(s, Try(t, true)) && Apply(s, Try(t, true)) == Goto(Init(length, tasks), t, Failed(Receive))
  {
    var s := Init(length, tasks);
    assert s.receivers.claims - {t} == {};
    GotoTwice(s, t, Trying(Receive), Failed(Receive));
  }

  lemma ThenItLocks(length: nat, tasks: set<TaskId>, t: TaskId)
    requires t in tasks
    ensures var s := Init(length, tasks);
            var failed, suspended := Goto(s, t, Failed(Receive)), Goto(s, t, Suspended(Receive)).(holder := Task(t));
            && Enabled(failed, SuspendAll(t)) && Apply(failed, SuspendAll(t)) == suspended
            && Enabled(suspended, LockQueue(t)) && Apply(suspended, LockQueue(t)) == Held(length, tasks, t, 0, 0)
  {
    var s := Init(length, tasks);
    GotoTwice(s, t, Failed(Receive), Suspended(Receive));
    GotoTwice(s.(holder := Task(t), receivers := Lock(s.receivers), senders := Lock(s.senders)), t, Suspended(Receive),
              Locked(Receive));
  }

  lemma LockBegins(length: nat, tasks: set<TaskId>, t: TaskId)
    requires t in tasks && 0 < length
    ensures IsRun(LockStates(length, tasks, t, 0), LockSteps(t, 0), length, tasks)
  {
    hide Held;
    FirstTryFails(length, tasks, t);
    ThenItLocks(length, tasks, t);
  }

  lemma SentWhileHeld(length: nat, tasks: set<TaskId>, t: TaskId, sent: nat, received: nat)
    requires t in tasks && received <= sent < |tasks| && sent - received < length
    ensures Apply(Held(length, tasks, t, sent, received), IsrSend(false)) == Held(length, tasks, t, sent + 1, received)
  {
    assert Held(length, tasks, t, sent, received).pc.Keys == tasks;
  }

  lemma ReceivedWhileHeld(length: nat, tasks: set<TaskId>, t: TaskId, sent: nat, received: nat)
    requires t in tasks && received < sent && received < |tasks|
    ensures Apply(Held(length, tasks, t, sent, received), IsrReceive) == Held(length, tasks, t, sent, received + 1)
  {
    assert Held(length, tasks, t, sent, received).pc.Keys == tasks;
  }

  lemma {:induction false} LockRun(length: nat, tasks: set<TaskId>, t: TaskId, rounds: nat)
    requires t in tasks && 0 < length && rounds <= |tasks|
    ensures IsRun(LockStates(length, tasks, t, rounds), LockSteps(t, rounds), length, tasks)
    ensures LockStates(length, tasks, t, rounds)[|LockSteps(t, rounds)|] == Held(length, tasks, t, rounds, rounds)
  {
    hide IsRun, Apply, Held;
    if rounds == 0 {
      LockBegins(length, tasks, t);
    } else {
      LockRun(length, tasks, t, rounds - 1);
      var states, steps := LockStates(length, tasks, t, rounds - 1), LockSteps(t, rounds - 1);
      var half, full := Held(length, tasks, t, rounds, rounds - 1), Held(length, tasks, t, rounds, rounds);
      SentWhileHeld(length, tasks, t, rounds - 1, rounds - 1);
      RunStep(states, steps, length, tasks, IsrSend(false), half);
      ReceivedWhileHeld(length, tasks, t, rounds, rounds - 1);
      RunStep(states + [half], steps + [IsrSend(false)], length, tasks, IsrReceive, full);
      assert states + [half] + [full] == LockStates(length, tasks, t, rounds);
      assert steps + [IsrSend(false)] + [IsrReceive] == LockSteps(t, rounds);
    }
  }

  /** The assertions on the locks hold in all runs if and only if there are at most 127 tasks: with more,
      interrupts that come while the queue is locked can count the lock up to the end of its type. */
  lemma LocksFitExactly(length: nat, tasks: set<TaskId>)
    requires 0 < length
    ensures (forall states: seq<State>, steps: seq<Step>, k: nat ::
               IsRun(states, steps, length, tasks) && k < |steps| ==> LockFits(states[k], steps[k]))
            <==> |tasks| <= INT8_MAX
  {
    if |tasks| <= INT8_MAX {
      forall states: seq<State>, steps: seq<Step>, k: nat | IsRun(states, steps, length, tasks) && k < |steps|
        ensures LockFits(states[k], steps[k])
      {
        RunTasks(states, steps, length, tasks, k);
      }
    } else {
      LockOverflows(length, tasks);
    }
  }

  lemma LockOverflows(length: nat, tasks: set<TaskId>)
    requires 0 < length && INT8_MAX < |tasks|
    ensures exists states: seq<State>, steps: seq<Step>, k: nat ::
              IsRun(states, steps, length, tasks) && k < |steps| && !LockFits(states[k], steps[k])
  {
    hide IsRun, Apply;
    assert tasks != {};
    var t :| t in tasks;
    LockRun(length, tasks, t, INT8_MAX);
    var states, steps := LockStates(length, tasks, t, INT8_MAX), LockSteps(t, INT8_MAX);
    SentWhileHeld(length, tasks, t, INT8_MAX, INT8_MAX);
    RunStep(states, steps, length, tasks, IsrSend(false), Held(length, tasks, t, INT8_MAX + 1, INT8_MAX));
    var states', steps' := states + [Held(length, tasks, t, INT8_MAX + 1, INT8_MAX)], steps + [IsrSend(false)];
    assert Held(length, tasks, t, INT8_MAX, INT8_MAX).pc.Keys == tasks;
    assert IsRun(states', steps', length, tasks) && !LockFits(states'[|steps|], steps'[|steps|]);
  }

  // ---------- The balance of messages ----------

  /** The messages that a step adds: one for a send that finds room, and for an overwriting send that finds no
      message. */
  function Sent(s: State, step: Step): nat {
    match step
    case Try(t, _) =>
      if t !in s.pc || !s.pc[t].Trying? then 0
      else if s.pc[t].op.Send? && s.msgs < s.length then 1
      else if s.pc[t].op.Overwrite? && s.msgs == 0 then 1
      else 0
    case IsrSend(overwrite) => if if overwrite then s.msgs == 0 else s.msgs < s.length then 1 else 0
    case _ => 0
  }

  /** The messages that a step takes: one for a receive that finds a message. */
  function Received(s: State, step: Step): nat {
    match step
    case Try(t, _) => if t in s.pc && s.pc[t].Trying? && s.pc[t].op.Receive? && 0 < s.msgs then 1 else 0
    case IsrReceive => if 0 < s.msgs then 1 else 0
    case _ => 0
  }

  function AllSent(states: seq<State>, steps: seq<Step>, k: nat): nat
    requires k <= |steps| < |states|
  {
    if k == 0 then 0 else AllSent(states, steps, k - 1) + Sent(states[k-1], steps[k-1])
  }

  function AllReceived(states: seq<State>, steps: seq<Step>, k: nat): nat
    requires k <= |steps| < |states|
  {
    if k == 0 then 0 else AllReceived(states, steps, k - 1) + Received(states[k-1], steps[k-1])
  }

  lemma StepBalance(s: State, step: Step)
    requires Inv(s) && Enabled(s, step)
    ensures Apply(s, step).msgs == s.msgs + Sent(s, step) - Received(s, step)
  {
    hide Apply, Inv, WakeFirst, Retried;
    RoomAtMostLength(s);
    if step.Try? {
      match s.pc[step.t].op
      case Send => SendExact(s, step.t, step.mayBlock);
      case Overwrite => OverwriteExact(s, step.t, step.mayBlock);
      case Receive => ReceiveExact(s, step.t, step.mayBlock);
      case Peek => PeekExact(s, step.t, step.mayBlock);
    } else if step.IsrSend? {
      IsrExact(s, step.overwrite);
    } else if step.IsrReceive? {
      IsrExact(s, false);
    } else {
      OtherStepsExact(s, step);
    }
  }

  lemma RoomAtMostLength(s: State)
    requires Inv(s)
    ensures s.msgs <= s.length
  {
  }

  /** In every state of every run the queue holds exactly the messages sent that have not been received:
      whatever tasks and interrupts do in between, none is lost, doubled or taken twice. */
  lemma {:induction false} MessageBalance(states: seq<State>, steps: seq<Step>, length: nat, tasks: set<TaskId>, k: nat)
    requires IsRun(states, steps, length, tasks) && k < |states|
    ensures states[k].msgs + AllReceived(states, steps, k) == AllSent(states, steps, k)
    ensures states[k].msgs <= length
  {
    hide Inv, Apply, Enabled;
    RunInv(states, steps, length, tasks, k);
    RunLength(states, steps, length, tasks, k);
    RoomAtMostLength(states[k]);
    if k != 0 {
      MessageBalance(states, steps, length, tasks, k - 1);
      RunInv(states, steps, length, tasks, k - 1);
      StepBalance(states[k-1], steps[k-1]);
    }
  }

  lemma {:induction false} RunLength(states: seq<State>, steps: seq<Step>, length: nat, tasks: set<TaskId>, k: nat)
    requires IsRun(states, steps, length, tasks) && k < |states|
    ensures states[k].length == length
  {
    hide Enabled;
    if k != 0 {
      RunLength(states, steps, length, tasks, k - 1);
      StepKeepsLength(states[k-1], steps[k-1]);
    }
  }

  lemma StepKeepsLength(s: State, step: Step)
    requires Enabled(s, step)
    ensures Apply(s, step).length == s.length
  {
  }

  /** In particular, when every task is either outside the queue calls or asleep in a list, nobody who
      waits to receive overlooks a message and nobody who waits to send overlooks a free slot. */
  lemma SleepersMissNothing(states: seq<State>, steps: seq<Step>, length: nat, tasks: set<TaskId>, k: nat)
    requires IsRun(states, steps, length, tasks) && k < |states|
    requires forall t :: t in states[k].pc ==>
               states[k].pc[t].Idle? || (states[k].pc[t].Blocked? && Listed(states[k], t))
    ensures states[k].receivers.wait != [] ==> states[k].msgs == 0
    ensures states[k].senders.wait != [] ==> states[k].msgs == states[k].length
  {
    var s := states[k];
    RunInv(states, steps, length, tasks, k);
    assert s.holder == Nobody;
    NoLostWakeup(states, steps, length, tasks, k);
    Unclaimed(s, s.receivers.claims);
    Unclaimed(s, s.senders.claims);
  }

  lemma Unclaimed(s: State, claims: set<TaskId>)
    requires forall t :: t in s.pc ==> s.pc[t].Idle? || (s.pc[t].Blocked? && Listed(s, t))
    requires forall t :: t in claims ==> OnItsWay(s, t)
    ensures |claims| == 0
  {
    forall t ensures t !in claims {
      assert !OnItsWay(s, t);
    }
    assert claims == {};
  }

  // ---------- The queue structure ----------

  /** The fields of Queue_t that the locking protocol uses, updated in place.  Every method is one or
      two critical sections. */
  class Queue {
    const length: nat
    const numberOfTasks: nat
    var messagesWaiting: nat
    var txLock: int
    var rxLock: int
    var waitingToReceive: seq<TaskId>
    var waitingToSend: seq<TaskId>
    ghost var receiveClaims: set<TaskId>
    ghost var sendClaims: set<TaskId>

    constructor (length: nat, numberOfTasks: nat)
      ensures this.length == length && this.numberOfTasks == numberOfTasks && messagesWaiting == 0
      ensures Receivers() == Senders() == Side([], UNLOCKED, {})
    {
      this.length, this.numberOfTasks, messagesWaiting := length, numberOfTasks, 0;
      txLock, rxLock, waitingToReceive, waitingToSend := UNLOCKED, UNLOCKED, [], [];
      receiveClaims, sendClaims := {}, {};
    }

    ghost function Receivers(): Side
      reads this`waitingToReceive, this`txLock, this`receiveClaims
    {
      Side(waitingToReceive, txLock, receiveClaims)
    }

    ghost function Senders(): Side
      reads this`waitingToSend, this`rxLock, this`sendClaims
    {
      Side(waitingToSend, rxLock, sendClaims)
    }

    /** xTaskRemoveFromEventList on xTasksWaitingToReceive. */
    method WakeReceiver()
      requires waitingToReceive != []
      modifies this`waitingToReceive, this`receiveClaims
      ensures Receivers() == WakeFirst(old(Receivers()))
    {
      receiveClaims := receiveClaims + {waitingToReceive[0]};
      waitingToReceive := waitingToReceive[1..];
    }

    method WakeSender()
      requires waitingToSend != []
      modifies this`waitingToSend, this`sendClaims
      ensures Senders() == WakeFirst(old(Senders()))
    {
      sendClaims := sendClaims + {waitingToSend[0]};
      waitingToSend := waitingToSend[1..];
    }

    /** prvLockQueue. */
    method LockQueue()
      modifies this`txLock, this`rxLock
      ensures Receivers() == Lock(old(Receivers())) && Senders() == Lock(old(Senders()))
    {
      if rxLock == UNLOCKED {
        rxLock := 0;
      }
      if txLock == UNLOCKED {
        txLock := 0;
      }
    }

    /** prvUnlockQueue: the receivers are woken and the send lock released in one critical section,
        the senders and the receive lock in a second one. */
    method UnlockQueue()
      modifies this`txLock, this`rxLock, this`waitingToReceive, this`waitingToSend, this`receiveClaims, this`sendClaims
      ensures Receivers() == Unlock(old(Receivers())) && Senders() == Unlock(old(Senders()))
    {
      UnlockTx();
      UnlockRx();
    }

    method UnlockTx()
      modifies this`txLock, this`waitingToReceive, this`receiveClaims
      ensures Receivers() == Unlock(old(Receivers()))
    {
      var count := txLock;
      while 0 < count
        invariant Replay(Receivers().(lock := count)) == Replay(old(Receivers()))
      {
        if waitingToReceive == [] {
          break;
        }
        WakeReceiver();
        count := count - 1;
      }
      txLock := UNLOCKED;
    }

    method UnlockRx()
      modifies this`rxLock, this`waitingToSend, this`sendClaims
      ensures Senders() == Unlock(old(Senders()))
    {
      var count := rxLock;
      while 0 < count
        invariant Replay(Senders().(lock := count)) == Replay(old(Senders()))
      {
        if waitingToSend == [] {
          break;
        }
        WakeSender();
        count := count - 1;
      }
      rxLock := UNLOCKED;
    }

    /** xQueueGenericSendFromISR. */
    method SendFromIsr(overwrite: bool) returns (sent: bool)
      modifies this`messagesWaiting, this`txLock, this`waitingToReceive, this`receiveClaims
      ensures sent <==> old(messagesWaiting) < length || overwrite
      ensures Receivers() == if sent then PostFromIsr(old(Receivers()), numberOfTasks) else old(Receivers())
      ensures messagesWaiting ==
              old(messagesWaiting) + if sent && !(overwrite && 0 < old(messagesWaiting)) then 1 else 0
    {
      sent := messagesWaiting < length || overwrite;
      if sent {
        if !overwrite || messagesWaiting == 0 {
          messagesWaiting := messagesWaiting + 1;
        }
        if txLock == UNLOCKED {
          if waitingToReceive != [] {
            WakeReceiver();
          }
        } else if txLock < numberOfTasks {
          txLock := txLock + 1;
        }
      }
    }

    /** xQueueReceiveFromISR. */
    method ReceiveFromIsr() returns (received: bool)
      modifies this`messagesWaiting, this`rxLock, this`waitingToSend, this`sendClaims
      ensures received <==> 0 < old(messagesWaiting)
      ensures Senders() == if received then PostFromIsr(old(Senders()), numberOfTasks) else old(Senders())
      ensures messagesWaiting == old(messagesWaiting) - if received then 1 else 0
    {
      received := 0 < messagesWaiting;
      if received {
        messagesWaiting := messagesWaiting - 1;
        if rxLock == UNLOCKED {
          if waitingToSend != [] {
            WakeSender();
          }
        } else if rxLock < numberOfTasks {
          rxLock := rxLock + 1;
        }
      }
    }
  }
}
