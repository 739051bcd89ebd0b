/**
 The timer daemon of timers.c: two lists of active timers, for the current and for the next epoch
 of the tick counter, driven by command times that may be stale and by reloads that may be late.

 All comparisons in the methods are made on wrapped ticks.  The ghost parameters carry the
 unbounded instants that the ticks stand for, and the contracts are stated on these.
 */
module Timers {
  import opened ListSpec
  import opened ModularTime

  // ---------- Where a timer goes: prvInsertTimerInActiveList ----------

  datatype Placement = ProcessNow | UseCurrent | UseOverflow

  /** The decision, on wrapped ticks only. */
  function Classify(m: nat, period: nat, next: nat, timeNow: nat, commandTime: nat): Placement
    requires 0 < m
  {
    if next <= timeNow then
      if (timeNow - commandTime) % m >= period then ProcessNow else UseOverflow
    else if timeNow < commandTime && next >= commandTime then ProcessNow
    else UseCurrent
  }

  /** The decision is exact: with the command less than a cycle old and a period shorter than a
      cycle, a timer is processed at once iff its expiry is not in the future, and otherwise goes
      to the list of the epoch in which it expires, under its tick within that epoch. */
  lemma ClassifyExact(m: nat, e: nat, now: nat, command: nat, period: nat)
    requires IsEpoch(m, e) && e <= now < e + m
    requires command <= now < command + m && 1 <= period < m
    ensures var due := command + period;
            var where := Classify(m, period, Tick(m, due), Tick(m, now), Tick(m, command));
            && (where == ProcessNow <==> due <= now)
            && (where == UseCurrent <==> now < due < e + m)
            && (where == UseOverflow <==> now < due && e + m <= due)
            && (where == UseCurrent ==> due == e + Tick(m, due))
            && (where == UseOverflow ==> due == e + m + Tick(m, due))
  {
    var due := command + period;
    TickInEpoch(m, e, now);
    WrappedDifference(m, now, command);
    NextEpoch(m, e);
    if command < e {
      TickInEpoch(m, e - m, command);
    } else {
      TickInEpoch(m, e, command);
    }
    if due < e {
      TickInEpoch(m, e - m, due);
    } else if due < e + m {
      TickInEpoch(m, e, due);
    } else {
      TickInEpoch(m, e + m, due);
    }
  }

  // ---------- Timers and their lists ----------

  type TimerId = nat

  /** `value` is the list item value. */
  datatype Timer = Timer(period: nat, autoReload: bool, active: bool, value: nat)

  type Store = map<TimerId, Timer>

  /** History of a timer: the instant of the command that started it last, the number of callbacks
      since then, and the instant of the expiry it is queued for. */
  datatype Past = Past(start: nat, fired: nat, due: nat)

  type Log = map<TimerId, Past>

  ghost predicate Known(list: seq<TimerId>, timers: Store) {
    forall i :: 0 <= i < |list| ==> list[i] in timers
  }

  function Values(list: seq<TimerId>, timers: Store): (r: seq<nat>)
    requires Known(list, timers)
    ensures |r| == |list|
    ensures forall i :: 0 <= i < |r| ==> r[i] == timers[list[i]].value
  {
    seq(|list|, i requires 0 <= i < |list| => timers[list[i]].value)
  }

  /** A timer queued for the epoch that starts at `base` is queued under its tick in that epoch. */
  ghost predicate QueuedIn(m: nat, base: nat, timers: Store, log: Log, t: TimerId) {
    t in timers && t in log && timers[t].value < m && log[t].due == base + timers[t].value
  }

  /** A list of the epoch that starts at `base`. */
  ghost predicate ListOk(m: nat, base: nat, list: seq<TimerId>, timers: Store, log: Log) {
    && NoDup(list) && Known(list, timers)
    && Sorted(Values(list, timers))
    && forall t :: t in list ==> QueuedIn(m, base, timers, log, t)
  }

  function SortedInsert(list: seq<TimerId>, timers: Store, t: TimerId): seq<TimerId>
    requires Known(list, timers) && t in timers
  {
    InsertAt(list, InsertPosition(Values(list, timers), timers[t].value), t)
  }

  lemma ValuesInsert(list: seq<TimerId>, timers: Store, p: nat, t: TimerId)
    requires Known(list, timers) && t in timers && p <= |list|
    ensures Known(InsertAt(list, p, t), timers)
    ensures Values(InsertAt(list, p, t), timers) == InsertAt(Values(list, timers), p, timers[t].value)
  {
  }

  lemma SortedInsertOk(list: seq<TimerId>, timers: Store, t: TimerId)
    requires NoDup(list) && Known(list, timers) && Sorted(Values(list, timers)) && t in timers && t !in list
    ensures var r := SortedInsert(list, timers, t);
            && NoDup(r) && Known(r, timers) && Sorted(Values(r, timers))
            && forall u :: u in r <==> u in list || u == t
  {
    hide NoDup, Sorted, InsertPosition;
    var keys, v := Values(list, timers), timers[t].value;
    var p := InsertPosition(keys, v);
    SortedInsertStable(keys, v);
    NoDupInsert(list, p, t);
    ValuesInsert(list, timers, p, t);
  }

  /** Timer `t` has joined a list behind all timers that expire no later and in front of all that
      expire later; the order of the others has not changed. */
  ghost predicate JoinedInOrder(before: seq<TimerId>, after: seq<TimerId>, timers: Store, t: TimerId) {
    && Known(before, timers) && t in timers
    && exists i :: 0 <= i <= |before| && after == InsertAt(before, i, t)
         && (forall j :: 0 <= j < i ==> timers[before[j]].value <= timers[t].value)
         && (forall j :: i <= j < |before| ==> timers[t].value < timers[before[j]].value)
  }

  lemma JoinsInOrder(list: seq<TimerId>, timers: Store, t: TimerId)
    requires Known(list, timers) && Sorted(Values(list, timers)) && t in timers
    ensures JoinedInOrder(list, SortedInsert(list, timers, t), timers, t)
  {
    hide Sorted, InsertPosition;
    var keys, v := Values(list, timers), timers[t].value;
    SortedInsertStable(keys, v);
    var i := InsertPosition(keys, v);
    assert forall j :: 0 <= j < i ==> keys[j] <= v;
    assert SortedInsert(list, timers, t) == InsertAt(list, i, t);
  }

  lemma ListOkInsert(m: nat, base: nat, list: seq<TimerId>, timers: Store, log: Log, t: TimerId)
    requires ListOk(m, base, list, timers, log) && t !in list && QueuedIn(m, base, timers, log, t)
    ensures ListOk(m, base, SortedInsert(list, timers, t), timers, log)
    ensures forall u :: u in SortedInsert(list, timers, t) <==> u in list || u == t
  {
    SortedInsertOk(list, timers, t);
  }

  lemma ValuesRemove(list: seq<TimerId>, timers: Store, i: nat)
    requires Known(list, timers) && i < |list|
    ensures Known(RemoveAt(list, i), timers)
    ensures Values(RemoveAt(list, i), timers) == RemoveAt(Values(list, timers), i)
  {
  }

  lemma WithoutOk(list: seq<TimerId>, timers: Store, t: TimerId)
    requires NoDup(list) && Known(list, timers) && Sorted(Values(list, timers))
    ensures var r := Without(list, t);
            NoDup(r) && Known(r, timers) && Sorted(Values(r, timers))
  {
    hide NoDup, Sorted;
    if i :| 0 <= i < |list| && list[i] == t {
      WithoutIsRemoveAt(list, i);
      NoDupRemove(list, i);
      SortedAfterRemove(Values(list, timers), i);
      ValuesRemove(list, timers, i);
    }
  }

  lemma ListOkWithout(m: nat, base: nat, list: seq<TimerId>, timers: Store, log: Log, t: TimerId)
    requires ListOk(m, base, list, timers, log)
    ensures ListOk(m, base, Without(list, t), timers, log)
    ensures forall u :: u in Without(list, t) <==> u in list && u != t
  {
    WithoutMembers(list, t);
    WithoutOk(list, timers, t);
  }

  /** A timer that is on no list may be changed freely. */
  lemma ListOkUpdate(m: nat, base: nat, list: seq<TimerId>, timers: Store, log: Log, t: TimerId, tm: Timer, past: Past)
    requires ListOk(m, base, list, timers, log) && t !in list
    ensures ListOk(m, base, list, timers[t := tm], log[t := past])
  {
    assert forall i :: 0 <= i < |list| ==> list[i] in list;
    assert Known(list, timers[t := tm]);
    assert Values(list, timers[t := tm]) == Values(list, timers);
  }

  /** What is true of a queued timer at instant `n`: the expiry it is queued for is the first one
      after the callbacks already made, and the one before that is not in the future. */
  ghost predicate History(tm: Timer, past: Past, n: nat) {
    && past.start <= n && past.due <= n + tm.period
    && if tm.autoReload then past.due == Expiry(past.start, tm.period, past.fired + 1)
       else past.fired == 0 && past.due == past.start + tm.period
  }

  lemma NextExpiry(start: nat, period: nat, k: nat)
    ensures Expiry(start, period, k + 1) == Expiry(start, period, k) + period
  {
  }

  lemma FirstExpiry(tm: Timer, past: Past, n: nat)
    requires past.start <= n && past.fired == 0 && past.due == past.start + tm.period
    ensures History(tm, past, n)
  {
    assert past.due == Expiry(past.start, tm.period, 1);
  }

  /** No drift: a queued auto-reload timer that is not overdue has had one callback for every whole
      period since it was started, and waits for the next multiple of its period. */
  lemma NoDrift(tm: Timer, past: Past, n: nat)
    requires History(tm, past, n) && tm.autoReload && n < past.due && 0 < tm.period
    ensures past.fired == (n - past.start) / tm.period
    ensures past.due == past.start + (past.fired + 1) * tm.period
  {
    ExpiryIsMultiple(past.start, tm.period, past.fired);
    ExpiryIsMultiple(past.start, tm.period, past.fired + 1);
    QuotientUnique(n - past.start, tm.period, past.fired);
  }

  /** One callback for each whole period since the start; the next multiple of the period is awaited. */
  ghost predicate Paced(tm: Timer, past: Past, n: nat) {
    && 0 < tm.period && past.start <= n < past.due
    && past.fired == (n - past.start) / tm.period && past.due == past.start + (past.fired + 1) * tm.period
  }

  lemma IsPaced(tm: Timer, past: Past, n: nat)
    requires History(tm, past, n) && tm.autoReload && n < past.due && 0 < tm.period
    ensures Paced(tm, past, n)
  {
    NoDrift(tm, past, n);
  }

  predicate SameSettings(a: Timer, b: Timer) { a.period == b.period && a.autoReload == b.autoReload }

  /** An expiry has been processed at instant `n`: the timer has been reloaded, without drift, or made
      dormant, with its one callback. */
  ghost predicate Served(before: Timer, pastBefore: Past, after: Timer, past: Past, n: nat) {
    && pastBefore.due <= n && SameSettings(after, before) && past.start == pastBefore.start
    && if after.autoReload then after.active && Paced(after, past, n)
       else !after.active && past == pastBefore.(fired := pastBefore.fired + 1)
  }

  lemma Overwrite<K, V>(f: map<K, V>, k: K, v: V, w: V)
    ensures f[k := v][k := w] == f[k := w]
  {
  }

  /** What becomes of a timer by instant `n` when no command names it: its settings and the instant that
      it counts from stay; a running auto-reload timer keeps running; a running one-shot timer either
      waits on untouched or has expired, with its one callback; a dormant timer stays as it is. */
  ghost predicate Ran(before: Timer, pastBefore: Past, after: Timer, past: Past, n: nat) {
    && SameSettings(before, after) && past.start == pastBefore.start
    && if before.active && !before.autoReload && !after.active then
         past.fired == pastBefore.fired + 1 && pastBefore.due <= n
       else
         after.active == before.active && ((before.active && before.autoReload) || past == pastBefore)
  }

  lemma RanTwice(a: Timer, pa: Past, b: Timer, pb: Past, c: Timer, pc: Past, n: nat, n': nat)
    requires Ran(a, pa, b, pb, n) && Ran(b, pb, c, pc, n') && n <= n'
    ensures Ran(a, pa, c, pc, n')
  {
  }

  datatype CommandId = Start | Reset | Stop | ChangePeriod | DeleteStatic | Other

  datatype Message = Message(id: CommandId, timer: TimerId, value: nat)

  predicate Listed(current: seq<TimerId>, overflow: seq<TimerId>, t: TimerId) {
    t in current || t in overflow
  }

  /** Timers in `busy` are off the lists; every other one is active iff it is on one, and a timer on a
      list has the history of a timer that waits for its next expiry. */
  ghost predicate Consistent(timers: Store, log: Log, current: seq<TimerId>, overflow: seq<TimerId>, n: nat,
      busy: set<TimerId>)
  {
    && (forall t :: t in busy ==> !Listed(current, overflow, t))
    && (forall t :: t in timers && t !in busy ==> (timers[t].active <==> Listed(current, overflow, t)))
    && (forall t :: Listed(current, overflow, t) ==> t in timers && t in log && History(timers[t], log[t], n))
  }

  ghost predicate SameBut(timers: Store, log: Log, timers': Store, log': Log, t: TimerId) {
    && timers'.Keys == timers.Keys == log'.Keys == log.Keys
    && forall u :: u in timers && u != t ==> timers'[u] == timers[u] && log'[u] == log[u]
  }

  ghost predicate ListedBut(current: seq<TimerId>, overflow: seq<TimerId>, current': seq<TimerId>,
      overflow': seq<TimerId>, t: TimerId)
  {
    forall u :: u != t ==> (Listed(current', overflow', u) <==> Listed(current, overflow, u))
  }

  ghost predicate OnlyRan(timers: Store, log: Log, timers': Store, log': Log, n: nat, busy: set<TimerId>) {
    && timers'.Keys == timers.Keys == log'.Keys == log.Keys
    && (forall u :: u in timers ==> Ran(timers[u], log[u], timers'[u], log'[u], n))
    && (forall u :: u in busy && u in timers ==> timers'[u] == timers[u] && log'[u] == log[u])
  }

  lemma OneRan(timers: Store, log: Log, timers': Store, log': Log, t: TimerId, n: nat, busy: set<TimerId>)
    requires SameBut(timers, log, timers', log', t) && t in timers && t !in busy
    requires Ran(timers[t], log[t], timers'[t], log'[t], n)
    ensures OnlyRan(timers, log, timers', log', n, busy)
  {
  }

  lemma SameButAfterWrite(timers: Store, log: Log, timers': Store, log': Log, timers'': Store, log'': Log, t: TimerId)
    requires timers.Keys == log.Keys && t in timers && t in timers' && t in log'
    requires timers' == timers[t := timers'[t]] && log' == log[t := log'[t]]
    requires SameBut(timers', log', timers'', log'', t)
    ensures SameBut(timers, log, timers'', log'', t)
  {
  }

  lemma OnlyRanTwice(timers: Store, log: Log, timers': Store, log': Log, timers'': Store, log'': Log, n: nat, n': nat,
      busy: set<TimerId>)
    requires OnlyRan(timers, log, timers', log', n, busy) && OnlyRan(timers', log', timers'', log'', n', busy)
    requires n <= n'
    ensures OnlyRan(timers, log, timers'', log'', n', busy)
  {
    hide Ran;
    forall u | u in timers ensures Ran(timers[u], log[u], timers''[u], log''[u], n') {
      RanTwice(timers[u], log[u], timers'[u], log'[u], timers''[u], log''[u], n, n');
    }
  }

  /** What was done by instant `n` is done by instant `n'`. */
  lemma Later(timers: Store, log: Log, timers': Store, log': Log, current: seq<TimerId>, overflow: seq<TimerId>, n: nat,
      n': nat, busy: set<TimerId>)
    requires Consistent(timers', log', current, overflow, n, busy) && OnlyRan(timers, log, timers', log', n, busy)
    requires n <= n'
    ensures Consistent(timers', log', current, overflow, n', busy) && OnlyRan(timers, log, timers', log', n', busy)
  {
    forall t | Listed(current, overflow, t) ensures History(timers'[t], log'[t], n') {
      assert History(timers'[t], log'[t], n);
    }
  }

  lemma NothingRan(timers: Store, log: Log, n: nat, busy: set<TimerId>)
    requires timers.Keys == log.Keys
    ensures OnlyRan(timers, log, timers, log, n, busy)
  {
  }

  /** Timer `t` was on its own and is in order again. */
  lemma ConsistentAgain(timers: Store, log: Log, current: seq<TimerId>, overflow: seq<TimerId>, timers': Store,
      log': Log, current': seq<TimerId>, overflow': seq<TimerId>, t: TimerId, n: nat, busy: set<TimerId>)
    requires Consistent(timers, log, current, overflow, n, busy + {t}) && SameBut(timers, log, timers', log', t)
    requires ListedBut(current, overflow, current', overflow', t) && t in timers' && t !in busy
    requires timers'[t].active <==> Listed(current', overflow', t)
    requires Listed(current', overflow', t) ==> History(timers'[t], log'[t], n)
    ensures Consistent(timers', log', current', overflow', n, busy)
  {
    hide History;
  }

  lemma OffLists(timers: Store, log: Log, current: seq<TimerId>, overflow: seq<TimerId>, t: TimerId, n: nat,
      busy: set<TimerId>)
    requires Consistent(timers, log, current, overflow, n, busy) && t in busy
    ensures !Listed(current, overflow, t)
  {
  }

  /** A timer on a list is running. */
  lemma OnLists(timers: Store, log: Log, current: seq<TimerId>, overflow: seq<TimerId>, t: TimerId, n: nat,
      busy: set<TimerId>)
    requires Consistent(timers, log, current, overflow, n, busy) && Listed(current, overflow, t)
    ensures t in timers && t in log && t !in busy && timers[t].active && History(timers[t], log[t], n)
  {
  }

  lemma ActiveIffListed(timers: Store, log: Log, current: seq<TimerId>, overflow: seq<TimerId>, t: TimerId, n: nat)
    requires Consistent(timers, log, current, overflow, n, {}) && t in timers
    ensures timers[t].active <==> Listed(current, overflow, t)
  {
  }

  /** Taking timer `t` off its list leaves it on its own. */
  lemma ConsistentWithout(timers: Store, log: Log, current: seq<TimerId>, overflow: seq<TimerId>,
      current': seq<TimerId>, overflow': seq<TimerId>, t: TimerId, n: nat, busy: set<TimerId>)
    requires Consistent(timers, log, current, overflow, n, busy)
    requires ListedBut(current, overflow, current', overflow', t) && !Listed(current', overflow', t)
    ensures Consistent(timers, log, current', overflow', n, busy + {t})
  {
    hide History;
  }

  /** Timer `t` is still on its own. */
  lemma ConsistentStill(timers: Store, log: Log, current: seq<TimerId>, overflow: seq<TimerId>, timers': Store,
      log': Log, current': seq<TimerId>, overflow': seq<TimerId>, t: TimerId, n: nat, busy: set<TimerId>)
    requires Consistent(timers, log, current, overflow, n, busy + {t}) && SameBut(timers, log, timers', log', t)
    requires ListedBut(current, overflow, current', overflow', t) && !Listed(current', overflow', t)
    ensures Consistent(timers', log', current', overflow', n, busy + {t})
  {
    hide History;
  }

  /** Only the item value, history and place of timer `t` differ. */
  ghost predicate Moved(timers: Store, log: Log, current: seq<TimerId>, overflow: seq<TimerId>, timers': Store,
      log': Log, current': seq<TimerId>, overflow': seq<TimerId>, t: TimerId)
  {
    && t in timers && t in timers' && t in log && t in log'
    && timers' == timers[t := timers[t].(value := timers'[t].value)]
    && log' == log[t := Past(log[t].start, log'[t].fired, log'[t].due)]
    && (t !in current' ==> current' == current)
    && forall u :: u != t ==> (u in current' <==> u in current) && (u in overflow' <==> u in overflow)
  }

  lemma MovedTwice(timers: Store, log: Log, current: seq<TimerId>, overflow: seq<TimerId>, timers': Store,
      log': Log, current': seq<TimerId>, overflow': seq<TimerId>, timers'': Store, log'': Log,
      current'': seq<TimerId>, overflow'': seq<TimerId>, t: TimerId)
    requires Moved(timers, log, current, overflow, timers', log', current', overflow', t)
    requires Moved(timers', log', current', overflow', timers'', log'', current'', overflow'', t)
    ensures Moved(timers, log, current, overflow, timers'', log'', current'', overflow'', t)
  {
    Overwrite(timers, t, timers'[t], timers''[t]);
    Overwrite(log, t, log'[t], log''[t]);
  }

  lemma MovedKeeps(timers: Store, log: Log, current: seq<TimerId>, overflow: seq<TimerId>, timers': Store,
      log': Log, current': seq<TimerId>, overflow': seq<TimerId>, t: TimerId)
    requires Moved(timers, log, current, overflow, timers', log', current', overflow', t)
    ensures t in timers && t in timers' && t in log && t in log' && log'[t].start == log[t].start
    ensures timers'[t] == timers[t].(value := timers'[t].value)
    ensures ListedBut(current, overflow, current', overflow', t)
    ensures timers.Keys == log.Keys ==> SameBut(timers, log, timers', log', t)
  {
  }

  // ---------- What commands ask for ----------

  /** What a timer has been asked to do: run with `period` from instant `start`, or lie dormant. */
  datatype Ask = Ask(start: nat, period: nat, running: bool)

  type Asks = map<TimerId, Ask>

  /** What a command handled at instant `n`, and issued at instant `issued` if it is a start or a reset,
      does to the timer that it names. */
  ghost predicate Executed(msg: Message, issued: nat, n: nat, before: Timer, pastBefore: Past, after: Timer,
      past: Past)
  {
    match msg.id
    case Start => Restarted(issued, n, before, after, past)
    case Reset => Restarted(issued, n, before, after, past)
    case Stop => after == before.(active := false) && past == pastBefore
    case DeleteStatic => after == before.(active := false) && past == pastBefore
    case ChangePeriod =>
      && after.autoReload == before.autoReload && after.period == msg.value && after.active
      && past == Past(n, 0, n + msg.value)
    case Other => after == before && past == pastBefore
  }

  /** An auto-reload timer is queued for an expiry after `n`; a one-shot timer waits for its only expiry
      or has had its callback. */
  ghost predicate Restarted(issued: nat, n: nat, before: Timer, after: Timer, past: Past) {
    && past.start == issued && SameSettings(after, before)
    && if after.autoReload then after.active && n < past.due
       else (after.active <==> n < issued + after.period) && past.fired == if after.active then 0 else 1
  }

  lemma CommandsExact(msg: Message, issued: nat, n: nat, before: Timer, pastBefore: Past, after: Timer, past: Past)
    requires Executed(msg, issued, n, before, pastBefore, after, past)
    ensures msg.id in {Start, Reset} ==>
            && after.period == before.period && after.autoReload == before.autoReload && past.start == issued
            && (after.active <==> before.autoReload || n < issued + before.period)
            && (before.autoReload ==> n < past.due)
            && (!before.autoReload ==> past.fired == if n < issued + before.period then 0 else 1)
    ensures msg.id in {Stop, DeleteStatic} ==> after == before.(active := false) && past == pastBefore
    ensures msg.id == ChangePeriod ==>
            && after.active && after.period == msg.value && after.autoReload == before.autoReload
            && past == Past(n, 0, n + msg.value)
    ensures msg.id == Other ==> after == before && past == pastBefore
  {
  }

  /** A command handled at instant `n` and issued, if it is a start or a reset, at instant `issued`. */
  function Told(a: Ask, msg: Message, issued: nat, n: nat): Ask {
    match msg.id
    case Start => Ask(issued, a.period, true)
    case Reset => Ask(issued, a.period, true)
    case Stop => a.(running := false)
    case DeleteStatic => a.(running := false)
    case ChangePeriod => Ask(n, msg.value, true)
    case Other => a
  }

  /** A command as the daemon finds it: handled at instant `at`, when the clock shows `tick`. */
  datatype Order = Order(msg: Message, tick: nat, at: nat, issued: nat)

  function AfterOrder(asks: Asks, o: Order): (r: Asks)
    ensures r.Keys == asks.Keys
  {
    if o.msg.timer in asks then asks[o.msg.timer := Told(asks[o.msg.timer], o.msg, o.issued, o.at)] else asks
  }

  function AfterOrders(asks: Asks, q: seq<Order>): (r: Asks)
    ensures r.Keys == asks.Keys
  {
    if q == [] then asks else AfterOrder(AfterOrders(asks, q[..|q| - 1]), q[|q| - 1])
  }

  /** One turn of the daemon: it looks at the timers at instant `at`, then empties the queue. */
  datatype Turn = Turn(tick: nat, at: nat, orders: seq<Order>)

  /** What has been asked for when turn `k` begins. */
  function AsksAt(asks: Asks, turns: seq<Turn>, k: nat): (r: Asks)
    requires k <= |turns|
    ensures r.Keys == asks.Keys
  {
    if k == 0 then asks else AfterOrders(AsksAt(asks, turns, k - 1), turns[k-1].orders)
  }

  /** The clock is sampled less than a cycle after the sample before, and an order is a known command
      to a created timer, not a cycle old. */
  ghost predicate OrderOk(m: nat, from: nat, created: set<TimerId>, o: Order) {
    && 0 < m && from <= o.at < from + m && o.tick == Tick(m, o.at)
    && o.msg.timer in created && o.msg.id != Other
    && (o.msg.id in {Start, Reset} ==> o.issued <= o.at < o.issued + m && o.msg.value == Tick(m, o.issued))
    && (o.msg.id == ChangePeriod ==> 1 <= o.msg.value < m)
  }

  function LastSample(from: nat, q: seq<Order>, i: nat): nat
    requires i <= |q|
  {
    if i == 0 then from else q[i-1].at
  }

  ghost predicate OrdersOk(m: nat, from: nat, created: set<TimerId>, q: seq<Order>) {
    forall i :: 0 <= i < |q| ==> OrderOk(m, LastSample(from, q, i), created, q[i])
  }

  ghost predicate TurnOk(m: nat, from: nat, created: set<TimerId>, turn: Turn) {
    && 0 < m && from <= turn.at < from + m && turn.tick == Tick(m, turn.at)
    && OrdersOk(m, turn.at, created, turn.orders)
  }

  lemma OrderIsOk(m: nat, from: nat, created: set<TimerId>, q: seq<Order>, i: nat)
    requires OrdersOk(m, from, created, q) && i < |q|
    ensures OrderOk(m, LastSample(from, q, i), created, q[i]) && LastSample(from, q, i) <= q[i].at
  {
  }

  /** The last sample before turn `k`. */
  function TurnFrom(from: nat, turns: seq<Turn>, k: nat): nat
    requires k <= |turns|
  {
    if k == 0 then from else LastSample(turns[k-1].at, turns[k-1].orders, |turns[k-1].orders|)
  }

  ghost predicate TurnsOk(m: nat, from: nat, created: set<TimerId>, turns: seq<Turn>) {
    forall k :: 0 <= k < |turns| ==> TurnOk(m, TurnFrom(from, turns, k), created, turns[k])
  }

  predicate Names(o: Order, t: TimerId) { o.msg.timer == t }

  /** A timer that no further order names is asked for nothing new. */
  lemma {:induction false} NotNamed(asks: Asks, q: seq<Order>, i: nat, t: TimerId)
    requires t in asks && i <= |q| && forall l :: i <= l < |q| ==> !Names(q[l], t)
    ensures AfterOrders(asks, q)[t] == AfterOrders(asks, q[..i])[t]
  {
    if i == |q| {
      assert q[..i] == q;
    } else {
      var rest := q[..|q| - 1];
      assert rest[..i] == q[..i];
      NotNamed(asks, rest, i, t);
      assert !Names(q[|q| - 1], t);
    }
  }

  /** What an order asks of a timer stands until another order names the timer. */
  lemma {:induction false} AskStands(asks: Asks, turns: seq<Turn>, j: nat, k: nat, t: TimerId)
    requires j <= k <= |turns| && t in asks
    requires forall l, i :: j <= l < k && 0 <= i < |turns[l].orders| ==> !Names(turns[l].orders[i], t)
    ensures AsksAt(asks, turns, k)[t] == AsksAt(asks, turns, j)[t]
  {
    if j < k {
      AskStands(asks, turns, j, k - 1, t);
      NotNamed(AsksAt(asks, turns, k - 1), turns[k-1].orders, 0, t);
    }
  }

  /** Order `i` of turn `j` is the last one before turn `k` that names timer `t`. */
  ghost predicate LastOrder(turns: seq<Turn>, j: nat, i: nat, k: nat, t: TimerId) {
    && j < k <= |turns| && i < |turns[j].orders| && Names(turns[j].orders[i], t)
    && (forall l :: i < l < |turns[j].orders| ==> !Names(turns[j].orders[l], t))
    && (forall l, h :: j < l < k && 0 <= h < |turns[l].orders| ==> !Names(turns[l].orders[h], t))
  }

  lemma LastAsk(asks: Asks, turns: seq<Turn>, j: nat, i: nat, k: nat, t: TimerId)
    requires LastOrder(turns, j, i, k, t) && t in asks
    ensures var o := turns[j].orders[i];
            AsksAt(asks, turns, k)[t] ==
            Told(AfterOrders(AsksAt(asks, turns, j), turns[j].orders[..i])[t], o.msg, o.issued, o.at)
  {
    var q, a := turns[j].orders, AsksAt(asks, turns, j);
    AskStands(asks, turns, j + 1, k, t);
    NotNamed(a, q, i + 1, t);
    assert q[..i+1][..i] == q[..i] && q[..i+1][i] == q[i];
  }

  /** A timer does at instant `n` what it was asked to do: an auto-reload timer runs on, a one-shot
      timer waits for its only expiry or has had its one callback. */
  ghost predicate Obeys(tm: Timer, past: Past, a: Ask, n: nat) {
    && tm.period == a.period
    && if !a.running then !tm.active
       else
         && past.start == a.start
         && if tm.autoReload then tm.active
            else if tm.active then past.fired == 0 && past.due == a.start + a.period
            else past.fired == 1 && a.start + a.period <= n
  }

  lemma ObeysPeriod(tm: Timer, past: Past, a: Ask, n: nat)
    requires Obeys(tm, past, a, n)
    ensures tm.period == a.period
  {
  }

  lemma ObeysOn(before: Timer, pastBefore: Past, after: Timer, past: Past, a: Ask, n: nat, n': nat)
    requires Obeys(before, pastBefore, a, n) && Ran(before, pastBefore, after, past, n') && n <= n'
    ensures Obeys(after, past, a, n')
  {
  }

  ghost predicate AllObey(timers: Store, log: Log, asks: Asks, n: nat) {
    && timers.Keys == log.Keys == asks.Keys
    && forall t :: t in timers ==> Obeys(timers[t], log[t], asks[t], n)
  }

  lemma ObeyKeys(timers: Store, log: Log, asks: Asks, n: nat)
    requires AllObey(timers, log, asks, n)
    ensures timers.Keys == log.Keys == asks.Keys
  {
  }

  /** The timers and the current list, of the epoch that starts at `epoch`, when a turn begins. */
  datatype Snapshot = Snapshot(timers: Store, log: Log, current: seq<TimerId>, epoch: nat)

  /** There is nothing for the daemon to do at instant `n`: the clock has not wrapped, and no timer of
      the current epoch has expired. */
  ghost predicate NothingDue(m: nat, s: Snapshot, n: nat) {
    n < s.epoch + m && forall t :: t in s.current ==> t in s.log && n < s.log[t].due
  }

  /** The callbacks that a timer asked to run has had by instant `n`: one for each whole period since it
      was started, or for a one-shot timer only the first of these. */
  function Callbacks(autoReload: bool, a: Ask, n: nat): nat
    requires a.start <= n && 0 < a.period
  {
    var periods := (n - a.start) / a.period;
    if autoReload || periods == 0 then periods else 1
  }

  /** Every timer has had exactly the callbacks it was asked for, and a running auto-reload timer is
      queued for the next multiple of its period. */
  ghost predicate Punctual(timers: Store, log: Log, asks: Asks, n: nat) {
    && timers.Keys == log.Keys == asks.Keys
    && forall t :: t in timers && asks[t].running ==>
         var a := asks[t];
         && a.start <= n && 0 < a.period
         && log[t].fired == Callbacks(timers[t].autoReload, a, n)
         && (timers[t].autoReload ==> log[t].due == a.start + (log[t].fired + 1) * a.period)
         && (timers[t].active <==> timers[t].autoReload || n < a.start + a.period)
  }

  /** Turn `k`, which finds `s`: the daemon sleeps iff there is nothing to do, and only when all timers
      are punctual. */
  ghost predicate SleepsOnTime(m: nat, s: Snapshot, sleeps: bool, turns: seq<Turn>, k: nat, asks: Asks)
    requires k < |turns|
  {
    && (sleeps <==> NothingDue(m, s, turns[k].at))
    && (sleeps ==> Punctual(s.timers, s.log, AsksAt(asks, turns, k), turns[k].at))
  }

  lemma SleptOnTime(m: nat, s: Snapshot, sleeps: bool, turns: seq<Turn>, k: nat, asks: Asks)
    requires k < |turns| && (sleeps <==> NothingDue(m, s, turns[k].at))
    requires sleeps ==> Punctual(s.timers, s.log, AsksAt(asks, turns, k), turns[k].at)
    ensures SleepsOnTime(m, s, sleeps, turns, k, asks)
  {
  }

  /** Timers that no order of `q` names have only been served, up to instant `n`. */
  ghost predicate OthersServed(timers: Store, log: Log, timers': Store, log': Log, q: seq<Order>, n: nat) {
    && timers'.Keys == timers.Keys == log'.Keys == log.Keys
    && forall t :: t in timers && (forall i :: 0 <= i < |q| ==> !Names(q[i], t)) ==>
         Ran(timers[t], log[t], timers'[t], log'[t], n)
  }

  lemma NobodyServed(timers: Store, log: Log, n: nat)
    requires timers.Keys == log.Keys
    ensures OthersServed(timers, log, timers, log, [], n)
  {
  }

  /** One more order: only the timer that it names has more done to it. */
  lemma OneMoreOrder(timers: Store, log: Log, timers': Store, log': Log, timers'': Store, log'': Log, q: seq<Order>,
      o: Order, n: nat, n': nat)
    requires OthersServed(timers, log, timers', log', q, n) && n <= n'
    requires timers''.Keys == timers'.Keys == log''.Keys == log'.Keys
    requires forall u :: u in timers' && !Names(o, u) ==> Ran(timers'[u], log'[u], timers''[u], log''[u], n')
    ensures OthersServed(timers, log, timers'', log'', q + [o], n')
  {
    hide Ran, Names;
    var r := q + [o];
    forall t | t in timers && forall i :: 0 <= i < |r| ==> !Names(r[i], t)
      ensures Ran(timers[t], log[t], timers''[t], log''[t], n')
    {
      assert !Names(r[|q|], t);
      assert forall i :: 0 <= i < |q| ==> !Names(q[i], t) by {
        assert forall i :: 0 <= i < |q| ==> q[i] == r[i];
      }
      RanTwice(timers[t], log[t], timers'[t], log'[t], timers''[t], log''[t], n, n');
    }
  }

  /** The expiries before the orders of a turn. */
  lemma ServedBefore(timers: Store, log: Log, timers': Store, log': Log, timers'': Store, log'': Log, q: seq<Order>,
      n: nat, n': nat)
    requires OnlyRan(timers, log, timers', log', n, {}) && n <= n'
    requires OthersServed(timers', log', timers'', log'', q, n')
    ensures OthersServed(timers, log, timers'', log'', q, n')
  {
    hide Ran, Names;
    forall t | t in timers && forall i :: 0 <= i < |q| ==> !Names(q[i], t)
      ensures Ran(timers[t], log[t], timers''[t], log''[t], n')
    {
      RanTwice(timers[t], log[t], timers'[t], log'[t], timers''[t], log''[t], n, n');
    }
  }

  lemma FirstPeriod(n: nat, a: Ask)
    requires a.start <= n && 0 < a.period
    ensures Callbacks(false, a, n) == if n < a.start + a.period then 0 else 1
  {
    if n < a.start + a.period {
      QuotientUnique(n - a.start, a.period, 0);
    } else {
      var q, r := (n - a.start) / a.period, (n - a.start) % a.period;
      assert n - a.start == a.period * q + r;
    }
  }

  // ---------- Runs of the daemon ----------

  lemma {:induction false} SamplesAscend(m: nat, from: nat, created: set<TimerId>, q: seq<Order>, i: nat)
    requires OrdersOk(m, from, created, q) && i <= |q|
    ensures from <= LastSample(from, q, i)
  {
    if i != 0 {
      SamplesAscend(m, from, created, q, i - 1);
      assert OrderOk(m, LastSample(from, q, i - 1), created, q[i-1]);
    }
  }

  lemma RunStarts(from: nat, turns: seq<Turn>)
    ensures TurnFrom(from, turns, 0) == from
  {
  }

  lemma TurnEnds(from: nat, turns: seq<Turn>, k: nat)
    requires k < |turns|
    ensures TurnFrom(from, turns, k + 1) == LastSample(turns[k].at, turns[k].orders, |turns[k].orders|)
  {
  }

  lemma TurnAscends(m: nat, from: nat, created: set<TimerId>, turns: seq<Turn>, k: nat)
    requires TurnsOk(m, from, created, turns) && k < |turns|
    ensures TurnFrom(from, turns, k) <= turns[k].at <= TurnFrom(from, turns, k + 1)
  {
    assert TurnOk(m, TurnFrom(from, turns, k), created, turns[k]);
    SamplesAscend(m, turns[k].at, created, turns[k].orders, |turns[k].orders|);
  }

  /** At the beginning of turn `k` every timer does what it has been asked to do. */
  ghost predicate ObeyedAt(s: Snapshot, from: nat, turns: seq<Turn>, k: nat, asks: Asks)
    requires k <= |turns|
  {
    AllObey(s.timers, s.log, AsksAt(asks, turns, k), TurnFrom(from, turns, k))
  }

  /** Turn `k` has left alone every timer that its orders do not name, but for its expiries. */
  ghost predicate TurnServed(before: Snapshot, after: Snapshot, from: nat, turns: seq<Turn>, k: nat)
    requires k < |turns|
  {
    OthersServed(before.timers, before.log, after.timers, after.log, turns[k].orders, TurnFrom(from, turns, k + 1))
  }

  /** What is known of any run of the daemon's loop: `seen` is what each turn finds. */
  ghost predicate DaemonRun(m: nat, from: nat, turns: seq<Turn>, asks: Asks, sleeps: seq<bool>, seen: seq<Snapshot>) {
    && |sleeps| == |turns| && |seen| == |turns| + 1
    && (forall k :: 0 <= k < |turns| ==> SleepsOnTime(m, seen[k], sleeps[k], turns, k, asks))
    && (forall k :: 0 <= k <= |turns| ==> ObeyedAt(seen[k], from, turns, k, asks))
    && (forall k :: 0 <= k < |turns| ==> TurnServed(seen[k], seen[k+1], from, turns, k))
  }

  lemma SeenAt(m: nat, from: nat, turns: seq<Turn>, asks: Asks, sleeps: seq<bool>, seen: seq<Snapshot>, k: nat,
      t: TimerId)
    requires DaemonRun(m, from, turns, asks, sleeps, seen) && k <= |turns| && t in asks
    ensures |seen| == |turns| + 1 && t in seen[k].timers && t in seen[k].log
    ensures k < |turns| && (forall i :: 0 <= i < |turns[k].orders| ==> !Names(turns[k].orders[i], t)) ==>
            && t in seen[k+1].timers && t in seen[k+1].log
            && Ran(seen[k].timers[t], seen[k].log[t], seen[k+1].timers[t], seen[k+1].log[t],
                   TurnFrom(from, turns, k + 1))
  {
    hide Ran, Obeys, SleepsOnTime, Names, TurnFrom;
    assert ObeyedAt(seen[k], from, turns, k, asks);
    if k < |turns| {
      assert TurnServed(seen[k], seen[k+1], from, turns, k);
    }
  }

  lemma {:induction false} RunServed(m: nat, from: nat, turns: seq<Turn>, asks: Asks, sleeps: seq<bool>,
      seen: seq<Snapshot>, j: nat, k: nat, t: TimerId)
    requires DaemonRun(m, from, turns, asks, sleeps, seen) && TurnsOk(m, from, asks.Keys, turns)
    requires j <= k <= |turns| && t in asks
    requires forall l, i :: j <= l < k && 0 <= i < |turns[l].orders| ==> !Names(turns[l].orders[i], t)
    ensures t in seen[j].timers && t in seen[j].log && t in seen[k].timers && t in seen[k].log
    ensures Ran(seen[j].timers[t], seen[j].log[t], seen[k].timers[t], seen[k].log[t], TurnFrom(from, turns, k))
  {
    hide Ran, DaemonRun, TurnsOk, TurnFrom, OthersServed;
    SeenAt(m, from, turns, asks, sleeps, seen, j, t);
    SeenAt(m, from, turns, asks, sleeps, seen, k, t);
    if j == k {
      NeverRan(seen[j].timers[t], seen[j].log[t], TurnFrom(from, turns, k));
    } else {
      RunServed(m, from, turns, asks, sleeps, seen, j, k - 1, t);
      TurnAscends(m, from, asks.Keys, turns, k - 1);
      SeenAt(m, from, turns, asks, sleeps, seen, k - 1, t);
      RanTwice(seen[j].timers[t], seen[j].log[t], seen[k-1].timers[t], seen[k-1].log[t],
               seen[k].timers[t], seen[k].log[t], TurnFrom(from, turns, k - 1), TurnFrom(from, turns, k));
    }
  }

  lemma NeverRan(tm: Timer, past: Past, n: nat)
    ensures Ran(tm, past, tm, past, n)
  {
  }

  /** From turn to turn, a timer that no order names keeps its settings and the instant that it counts
      from.  A dormant one has no callback; a running auto-reload one runs on; a running one-shot timer
      either has had no callback yet, or has had its one callback, not before it was due. */
  lemma LeftAlone(m: nat, from: nat, turns: seq<Turn>, asks: Asks, sleeps: seq<bool>, seen: seq<Snapshot>, j: nat,
      k: nat, t: TimerId)
    requires DaemonRun(m, from, turns, asks, sleeps, seen) && TurnsOk(m, from, asks.Keys, turns)
    requires j <= k <= |turns| && t in asks
    requires forall l, i :: j <= l < k && 0 <= i < |turns[l].orders| ==> !Names(turns[l].orders[i], t)
    ensures t in seen[j].timers && t in seen[k].timers && t in seen[j].log && t in seen[k].log
    ensures var (a, b, pa, pb) := (seen[j].timers[t], seen[k].timers[t], seen[j].log[t], seen[k].log[t]);
            && b.period == a.period && b.autoReload == a.autoReload && pb.start == pa.start
            && (!a.active ==> !b.active && pb == pa)
            && (a.active && a.autoReload ==> b.active)
            && (a.active && !a.autoReload ==>
                  if b.active then pb == pa
                  else pb.fired == pa.fired + 1 && pa.due <= TurnFrom(from, turns, k))
  {
    hide DaemonRun, TurnsOk, Names;
    RunServed(m, from, turns, asks, sleeps, seen, j, k, t);
  }

  /** What the last order that named a timer has made of it, many turns later. */
  lemma DoesAsTold(m: nat, from: nat, turns: seq<Turn>, asks: Asks, sleeps: seq<bool>, seen: seq<Snapshot>, j: nat,
      i: nat, k: nat, t: TimerId)
    requires DaemonRun(m, from, turns, asks, sleeps, seen) && LastOrder(turns, j, i, k, t) && t in asks
    ensures t in seen[k].timers && t in seen[k].log
    ensures var (o, tm, past) := (turns[j].orders[i], seen[k].timers[t], seen[k].log[t]);
            && (o.msg.id in {Stop, DeleteStatic} ==> !tm.active)
            && (o.msg.id == ChangePeriod ==> tm.period == o.msg.value)
            && (o.msg.id in {Start, Reset, ChangePeriod} ==>
                  var started := if o.msg.id == ChangePeriod then o.at else o.issued;
                  && past.start == started && (tm.autoReload ==> tm.active)
                  && (!tm.autoReload ==> past.fired == if tm.active then 0 else 1)
                  && (!tm.autoReload && tm.active ==> past.due == started + tm.period))
  {
    hide SleepsOnTime, TurnServed, Names;
    assert ObeyedAt(seen[k], from, turns, k, asks);
    LastAsk(asks, turns, j, i, k, t);
    assert Obeys(seen[k].timers[t], seen[k].log[t], AsksAt(asks, turns, k)[t], TurnFrom(from, turns, k));
  }

  /** The daemon goes to sleep in turn `k`.  A timer whose last order was a start, a reset or a change of
      period, which took effect at instant C, has by then had a callback for each whole period since C, if
      it is an auto-reload timer, and waits for the next multiple; if it is a one-shot timer it has had its
      one callback exactly if its period is over. */
  lemma CountsFromCommand(m: nat, from: nat, turns: seq<Turn>, asks: Asks, sleeps: seq<bool>, seen: seq<Snapshot>,
      j: nat, i: nat, k: nat, t: TimerId)
    requires DaemonRun(m, from, turns, asks, sleeps, seen) && LastOrder(turns, j, i, k, t) && t in asks
    requires k < |turns| && sleeps[k] && turns[j].orders[i].msg.id in {Start, Reset, ChangePeriod}
    ensures t in seen[k].timers && t in seen[k].log
    ensures var (o, tm, past, n) := (turns[j].orders[i], seen[k].timers[t], seen[k].log[t], turns[k].at);
            var started := if o.msg.id == ChangePeriod then o.at else o.issued;
            && started <= n && 0 < tm.period
            && (tm.autoReload ==> past.fired == (n - started) / tm.period)
            && (tm.autoReload ==> past.due == started + (past.fired + 1) * tm.period)
            && (!tm.autoReload ==> past.fired == if n < started + tm.period then 0 else 1)
  {
    hide TurnServed, LastOrder;
    assert ObeyedAt(seen[k], from, turns, k, asks);
    LastAsk(asks, turns, j, i, k, t);
    var a := AsksAt(asks, turns, k)[t];
    ObeysPeriod(seen[k].timers[t], seen[k].log[t], a, TurnFrom(from, turns, k));
    assert SleepsOnTime(m, seen[k], true, turns, k, asks);
    FirstPeriod(turns[k].at, a);
  }

  // ---------- The daemon ----------

  class TimerDaemon {
    const m: nat  // the modulus of the tick count
    var timers: Store
    var current: seq<TimerId>
    var overflow: seq<TimerId>
    var lastTime: nat
    ghost var log: Log
    ghost var epoch: nat  // start of the epoch of the current list
    ghost var now: nat    // instant of the last sample

    ghost predicate Lists()
      reads this`timers, this`log, this`current, this`overflow, this`epoch
    {
      && IsEpoch(m, epoch) && timers.Keys == log.Keys
      && ListOk(m, epoch, current, timers, log) && ListOk(m, epoch + m, overflow, timers, log)
      && (forall t :: t in current ==> t !in overflow)
      && (forall t :: t in timers ==> 1 <= timers[t].period < m)
    }

    predicate Queued(t: TimerId)
      reads this`current, this`overflow
    {
      Listed(current, overflow, t)
    }

    /** Everything about timers at instant `n`, except that a timer in `busy` is off the lists. */
    ghost predicate Inv(n: nat, busy: set<TimerId>)
      reads this`timers, this`log, this`current, this`overflow, this`epoch
    {
      Lists() && Consistent(timers, log, current, overflow, n, busy)
    }

    ghost predicate Synced()
      reads this`epoch, this`now, this`lastTime
    {
      epoch <= now < epoch + m && lastTime == now - epoch
    }

    ghost function State(): Snapshot
      reads this`timers, this`log, this`current, this`epoch
    {
      Snapshot(timers, log, current, epoch)
    }

    /** Timers are created dormant; both lists start empty at tick 0. */
    constructor (m: nat, created: Store)
      requires 0 < m && forall t :: t in created ==> 1 <= created[t].period < m && !created[t].active
      ensures Inv(now, {}) && Synced() && now == 0 && timers == created && this.m == m
      ensures AllObey(timers, log, map t | t in created :: Ask(0, created[t].period, false), 0)
    {
      this.m := m;
      timers := created;
      log := map t | t in created :: Past(0, 0, 0);
      current, overflow, lastTime, epoch, now := [], [], 0, 0, 0;
    }

    /** Timer `t` is off the lists, `n` is in the current epoch and shown as `timeNow`, and
        `from`, shown as `tick`, is at most a cycle before `n`. */
    ghost predicate Ready(t: TimerId, timeNow: nat, tick: nat, n: nat, from: nat)
      reads this`timers, this`log, this`current, this`overflow, this`epoch
    {
      && Lists() && t in timers && t in log && !Queued(t)
      && epoch <= n < epoch + m && from <= n < from + m
      && timeNow == Tick(m, n) && tick == Tick(m, from)
    }

    /** Nothing has changed but the item value, history and place of `t`. */
    twostate predicate OnlyMoved(t: TimerId)
      reads this`timers, this`log, this`current, this`overflow
    {
      Moved(old(timers), old(log), old(current), old(overflow), timers, log, current, overflow, t)
    }

    lemma EpochOk()
      requires Lists()
      ensures IsEpoch(m, epoch) && timers.Keys == log.Keys && Known(current, timers) && Known(overflow, timers)
    {
    }

    lemma PeriodOk(t: TimerId)
      requires Lists() && t in timers
      ensures 1 <= timers[t].period < m && t in log
    {
    }

    lemma HeadDue()
      requires Lists() && current != []
      ensures var t := current[0];
              && t in timers && timers[t].value < m && t in log && log[t].due == epoch + timers[t].value
              && |Without(current, t)| < |current|
    {
      assert QueuedIn(m, epoch, timers, log, current[0]);
      WithoutIsRemoveAt(current, 0);
    }

    /** Writes the fields of a timer that is on no list. */
    method Write(t: TimerId, tm: Timer, ghost past: Past)
      requires Lists() && t in timers && !Queued(t) && 1 <= tm.period < m
      modifies this`timers, this`log
      ensures Lists() && timers == old(timers)[t := tm] && log == old(log)[t := past]
    {
      ListOkUpdate(m, epoch, current, timers, log, t, tm, past);
      ListOkUpdate(m, epoch + m, overflow, timers, log, t, tm, past);
      timers := timers[t := tm];
      log := log[t := past];
    }

    /** vListInsert on either list. */
    method InsertCurrent(t: TimerId)
      requires Lists() && !Queued(t) && QueuedIn(m, epoch, timers, log, t)
      modifies this`current
      ensures Lists() && forall u :: u in current <==> u in old(current) || u == t
      ensures JoinedInOrder(old(current), current, timers, t)
    {
      ListOkInsert(m, epoch, current, timers, log, t);
      JoinsInOrder(current, timers, t);
      current := SortedInsert(current, timers, t);
    }

    method InsertOverflow(t: TimerId)
      requires Lists() && !Queued(t) && QueuedIn(m, epoch + m, timers, log, t)
      modifies this`overflow
      ensures Lists() && forall u :: u in overflow <==> u in old(overflow) || u == t
      ensures JoinedInOrder(old(overflow), overflow, timers, t)
    {
      ListOkInsert(m, epoch + m, overflow, timers, log, t);
      JoinsInOrder(overflow, timers, t);
      overflow := SortedInsert(overflow, timers, t);
    }

    /** prvInsertTimerInActiveList: true means that the timer has already expired. */
    method Insert(t: TimerId, next: nat, timeNow: nat, commandTime: nat, ghost n: nat, ghost command: nat)
      returns (processNow: bool)
      requires Ready(t, timeNow, commandTime, n, command)
      requires next == Tick(m, command + timers[t].period)
      modifies this`timers, this`log, this`current, this`overflow
      ensures OnlyMoved(t) && Lists()
      ensures log[t] == old(log[t]).(due := command + timers[t].period)
      ensures processNow <==> log[t].due <= n
      ensures t in current <==> n < log[t].due < epoch + m
      ensures t in overflow <==> n < log[t].due && epoch + m <= log[t].due
      ensures if t in current then JoinedInOrder(old(current), current, timers, t) else current == old(current)
      ensures if t in overflow then JoinedInOrder(old(overflow), overflow, timers, t) else overflow == old(overflow)
    {
      hide Lists, Classify, Tick, JoinedInOrder;
      EpochOk();
      PeriodOk(t);
      ClassifyExact(m, epoch, n, command, timers[t].period);
      Write(t, timers[t].(value := next), log[t].(due := command + timers[t].period));
      processNow := false;
      match Classify(m, timers[t].period, next, timeNow, commandTime)
      case ProcessNow =>
        processNow := true;
      case UseOverflow =>
        InsertOverflow(t);
      case UseCurrent =>
        InsertCurrent(t);
    }

    /** The application's callback; only its count is of interest here. */
    ghost method CountCallback(t: TimerId)
      requires Lists() && t in log
      modifies this`log
      ensures Lists() && log == old(log)[t := old(log[t]).(fired := old(log[t].fired) + 1)]
    {
      log := log[t := log[t].(fired := log[t].fired + 1)];
    }

    /** Queues a timer for one period after `from`, unless that is already past: then it is counted
        as another expiry, at `from + period`. */
    method Requeue(t: TimerId, tick: nat, timeNow: nat, ghost n: nat, ghost from: nat)
      returns (again: bool, next: nat)
      requires Ready(t, timeNow, tick, n, from)
      modifies this`timers, this`log, this`current, this`overflow
      ensures OnlyMoved(t) && Lists()
      ensures log[t] == old(log[t]).(due := from + timers[t].period)
      ensures again ==> Ready(t, timeNow, next, n, from + timers[t].period)
      ensures !again ==> n < log[t].due && Queued(t) && (t in current <==> log[t].due < epoch + m)
    {
      WrappedSum(m, from, timers[t].period);
      next := (tick + timers[t].period) % m;
      again := Insert(t, next, timeNow, tick, n, from);
    }

    /** One turn of the reload loop: an expiry in the past costs a callback and another try. */
    method Catchup(t: TimerId, tick: nat, timeNow: nat, ghost n: nat, ghost from: nat)
      returns (again: bool, next: nat)
      requires Ready(t, timeNow, tick, n, from)
      modifies this`timers, this`log, this`current, this`overflow
      ensures OnlyMoved(t) && Lists()
      ensures log[t] == old(log[t]).(fired := old(log[t].fired) + 1, due := from + timers[t].period)
      ensures again ==> Ready(t, timeNow, next, n, from + timers[t].period)
      ensures !again ==> n < log[t].due && Queued(t) && (t in current <==> log[t].due < epoch + m)
    {
      CountCallback(t);
      again, next := Requeue(t, tick, timeNow, n, from);
    }

    /** prvReloadTimer: queues the timer for the first expiry after `n`, with one callback for
        every expiry passed on the way.  The callback of `expired` itself is still to come. */
    method Reload(t: TimerId, expiredTime: nat, timeNow: nat, ghost n: nat, ghost expired: nat)
      requires Ready(t, timeNow, expiredTime, n, expired)
      requires expired == Expiry(log[t].start, timers[t].period, log[t].fired + 1)
      modifies this`timers, this`log, this`current, this`overflow
      ensures OnlyMoved(t) && Lists() && Queued(t)
      ensures n < log[t].due <= n + timers[t].period
      ensures log[t].due == Expiry(log[t].start, timers[t].period, log[t].fired + 2)
      ensures t in current ==> log[t].due < epoch + m
    {
      hide Lists, Moved, ListedBut, SameBut, Expiry, Tick;
      var tick := expiredTime;
      ghost var at, start, k := expired, log[t].start, log[t].fired + 1;
      ghost var period := timers[t].period;
      var again, next := Requeue(t, tick, timeNow, n, at);
      MovedKeeps(old(timers), old(log), old(current), old(overflow), timers, log, current, overflow, t);
      while again
        invariant OnlyMoved(t) && Lists() && t in timers && t in log
        invariant log[t].start == start && timers[t].period == period
        invariant again ==> Ready(t, timeNow, next, n, at + period)
        invariant at <= n && log[t].due == at + period
        invariant log[t].fired + 1 == k && at == Expiry(start, period, k)
        invariant !again ==> n < log[t].due && Queued(t) && (t in current ==> log[t].due < epoch + m)
        decreases n - at
      {
        tick := next;
        at := at + period;
        NextExpiry(start, period, k);
        k := k + 1;
        ghost var timers0, log0, current0, overflow0 := timers, log, current, overflow;
        again, next := Catchup(t, tick, timeNow, n, at);
        MovedKeeps(timers0, log0, current0, overflow0, timers, log, current, overflow, t);
        MovedTwice(old(timers), old(log), old(current), old(overflow), timers0, log0, current0, overflow0,
                   timers, log, current, overflow, t);
      }
      NextExpiry(start, period, k);
    }

    /** Up to instant `n` expiries have been processed and nothing else has happened to any timer;
        those in `busy` have not been touched at all. */
    twostate predicate OnlyExpiries(n: nat, busy: set<TimerId>)
      reads this`timers, this`log
    {
      OnlyRan(old(timers), old(log), timers, log, n, busy)
    }

    /** Timers other than `t` are exactly as they were. */
    twostate predicate OthersKept(t: TimerId)
      reads this`timers, this`log
    {
      SameBut(old(timers), old(log), timers, log, t)
    }

    /** Timers other than `t` have only been served. */
    twostate predicate OthersRan(t: TimerId, n: nat)
      reads this`timers, this`log
    {
      && timers.Keys == old(timers).Keys == log.Keys == old(log).Keys
      && forall u :: u in timers && u != t ==> Ran(old(timers)[u], old(log)[u], timers[u], log[u], n)
    }

    /** uxListRemove, wherever the timer is. */
    method Dequeue(t: TimerId)
      requires Lists()
      modifies this`current, this`overflow
      ensures Lists()
      ensures current == Without(old(current), t) && overflow == Without(old(overflow), t)
      ensures forall u :: u in current <==> u in old(current) && u != t
      ensures forall u :: u in overflow <==> u in old(overflow) && u != t
    {
      ListOkWithout(m, epoch, current, timers, log, t);
      ListOkWithout(m, epoch + m, overflow, timers, log, t);
      current := Without(current, t);
      overflow := Without(overflow, t);
    }

    /** An expired auto-reload timer, already off its list. */
    method ExpireAndReload(t: TimerId, expiredTime: nat, timeNow: nat, ghost n: nat, ghost busy: set<TimerId>)
      requires Inv(n, busy + {t}) && t in timers && t in log && Ready(t, timeNow, expiredTime, n, log[t].due)
      requires History(timers[t], log[t], n) && log[t].due <= n && t !in busy
      requires timers[t].active && timers[t].autoReload
      modifies this`timers, this`log, this`current, this`overflow
      ensures Inv(n, busy) && OnlyExpiries(n, busy) && OthersKept(t)
      ensures t in current ==> log[t].due < epoch + m
      ensures timers[t].autoReload && timers[t].active && Queued(t) && n < log[t].due
      ensures Served(old(timers)[t], old(log)[t], timers[t], log[t], n)
      ensures t !in current ==> current == old(current)
    {
      hide Lists, Consistent, OnlyRan, Paced;
      PeriodOk(t);
      Reload(t, expiredTime, timeNow, n, log[t].due);
      CountCallback(t);
      IsPaced(timers[t], log[t], n);
      ConsistentAgain(old(timers), old(log), old(current), old(overflow), timers, log, current, overflow, t, n, busy);
      OneRan(old(timers), old(log), timers, log, t, n, busy);
    }

    /** An expired one-shot timer, already off its list, becomes dormant. */
    method ExpireOnce(t: TimerId, ghost n: nat, ghost busy: set<TimerId>)
      requires Inv(n, busy + {t}) && t in timers && t in log && t !in busy
      requires timers[t].active && !timers[t].autoReload && log[t].due <= n
      modifies this`timers, this`log
      ensures Inv(n, busy) && OnlyExpiries(n, busy) && OthersKept(t)
      ensures !timers[t].active && Served(old(timers)[t], old(log)[t], timers[t], log[t], n)
    {
      hide Lists, Consistent, History, OnlyRan;
      PeriodOk(t);
      OffLists(timers, log, current, overflow, t, n, busy + {t});
      Write(t, timers[t].(active := false), log[t]);
      CountCallback(t);
      ConsistentAgain(old(timers), old(log), old(current), old(overflow), timers, log, current, overflow, t, n, busy);
      OneRan(old(timers), old(log), timers, log, t, n, busy);
    }

    /** The expired timer is reloaded or made dormant; then its callback. */
    method Expire(t: TimerId, expiredTime: nat, timeNow: nat, ghost n: nat, ghost busy: set<TimerId>)
      requires Inv(n, busy + {t}) && t in timers && t in log && Ready(t, timeNow, expiredTime, n, log[t].due)
      requires History(timers[t], log[t], n) && log[t].due <= n && t !in busy && timers[t].active
      modifies this`timers, this`log, this`current, this`overflow
      ensures Inv(n, busy) && OnlyExpiries(n, busy) && OthersKept(t)
      ensures t in current ==> n < log[t].due < epoch + m
      ensures Served(old(timers)[t], old(log)[t], timers[t], log[t], n)
      ensures timers[t].autoReload ==> Queued(t) && n < log[t].due
      ensures t !in current ==> current == old(current)
    {
      hide Paced, Served;
      if timers[t].autoReload {
        ExpireAndReload(t, expiredTime, timeNow, n, busy);
      } else {
        ExpireOnce(t, n, busy);
      }
    }

    /** Of the timers of the current epoch the one to expire first has been served, and no other one has
        been touched. */
    twostate predicate EarliestServed(t: TimerId, n: nat)
      reads this`timers, this`log
    {
      && t in old(timers) && t in old(log) && t in timers && t in log
      && (forall u :: u in old(current) ==> u in old(log) && old(log)[t].due <= old(log)[u].due)
      && Served(old(timers)[t], old(log)[t], timers[t], log[t], n) && OthersKept(t)
    }

    /** prvProcessExpiredTimer, for the head of the current list. */
    method ProcessExpired(expireTime: nat, timeNow: nat, ghost n: nat, ghost busy: set<TimerId>)
      requires Inv(n, busy) && epoch <= n < epoch + m && timeNow == Tick(m, n)
      requires current != [] && expireTime == timers[current[0]].value <= timeNow
      modifies this`timers, this`log, this`current, this`overflow
      ensures Inv(n, busy) && OnlyExpiries(n, busy)
      ensures n == epoch + m - 1 ==> |current| < |old(current)|
      ensures EarliestServed(old(current)[0], n)
    {
      hide Lists, Consistent, OnlyRan, History, Paced, Served;
      var t := current[0];
      CurrentHead(expireTime);
      EpochOk();
      HeadDue();
      OnLists(timers, log, current, overflow, t, n, busy);
      TickInEpoch(m, epoch, n);
      TickInEpoch(m, epoch, log[t].due);
      Dequeue(t);
      ConsistentWithout(timers, log, old(current), old(overflow), current, overflow, t, n, busy);
      PeriodOk(t);
      Expire(t, expireTime, timeNow, n, busy);
    }

    /** The loop of prvSwitchTimerLists: every timer left on the list of the finished epoch has
        expired; its expiries within that epoch are processed, as if at the last tick of it. */
    method DrainCurrent(ghost end: nat, ghost busy: set<TimerId>)
      requires Inv(end, busy) && end + 1 == epoch + m
      modifies this`timers, this`log, this`current, this`overflow
      ensures Inv(end, busy) && OnlyExpiries(end, busy) && current == []
    {
      hide Lists, Consistent, OnlyRan;
      EpochOk();
      TickInEpoch(m, epoch, end);
      NothingRan(timers, log, end, busy);
      while current != []
        invariant Inv(end, busy) && OnlyExpiries(end, busy)
        decreases |current|
      {
        HeadDue();
        ghost var timers0, log0 := timers, log;
        ProcessExpired(timers[current[0]].value, m - 1, end, busy);
        OnlyRanTwice(old(timers), old(log), timers0, log0, timers, log, end, end, busy);
      }
    }

    /** prvSwitchTimerLists. */
    method SwitchLists(ghost end: nat, ghost busy: set<TimerId>)
      requires Inv(end, busy) && end + 1 == epoch + m
      modifies this`timers, this`log, this`current, this`overflow, this`epoch
      ensures Inv(end, busy) && OnlyExpiries(end, busy) && epoch == old(epoch) + m
    {
      hide Ran;
      DrainCurrent(end, busy);
      NextEpoch(m, epoch);
      current, overflow := overflow, current;
      epoch := epoch + m;
    }

    /** prvSampleTimeNow: a tick smaller than the last one means that the counter has wrapped. */
    method Sample(tick: nat, ghost n: nat, ghost busy: set<TimerId>) returns (switched: bool)
      requires Inv(now, busy) && Synced() && now <= n < now + m && tick == Tick(m, n)
      modifies this`timers, this`log, this`current, this`overflow, this`epoch, this`now, this`lastTime
      ensures Inv(n, busy) && Synced() && now == n && lastTime == tick && OnlyExpiries(n, busy)
      ensures switched <==> old(epoch) + m <= n
      ensures epoch == if switched then old(epoch) + m else old(epoch)
      ensures !switched ==>
              timers == old(timers) && log == old(log) && current == old(current) && overflow == old(overflow)
    {
      hide Lists, Consistent, OnlyRan, History;
      EpochOk();
      NextEpoch(m, epoch);
      if n < epoch + m {
        TickInEpoch(m, epoch, n);
      } else {
        TickInEpoch(m, epoch + m, n);
      }
      switched := tick < lastTime;
      ghost var done := now;
      NothingRan(timers, log, now, busy);
      if switched {
        done := epoch + m - 1;
        Later(timers, log, timers, log, current, overflow, now, done, busy);
        SwitchLists(done, busy);
      }
      Later(old(timers), old(log), timers, log, current, overflow, done, n, busy);
      lastTime := tick;
      now := n;
    }

    /** Every queued timer expires after `n`: with the invariant, nothing is overdue. */
    ghost predicate NothingOverdue(n: nat)
      requires Lists()
      reads this`timers, this`log, this`current, this`overflow, this`epoch
    {
      forall t :: Queued(t) ==> t in log && n < log[t].due
    }

    /** Every running auto-reload timer has had exactly one callback for each whole period since the
        command that started it, and is queued for the next multiple of its period. */
    ghost predicate OnTime(n: nat)
      reads this`timers, this`log
    {
      forall t :: t in timers && timers[t].active && timers[t].autoReload && timers[t].period != 0 ==>
        && t in log && log[t].start <= n < log[t].due
        && log[t].fired == (n - log[t].start) / timers[t].period
        && log[t].due == log[t].start + (log[t].fired + 1) * timers[t].period
    }

    lemma NothingOverdueIsOnTime(n: nat)
      requires Inv(n, {}) && NothingOverdue(n)
      ensures OnTime(n)
    {
      forall t | t in timers && timers[t].active && timers[t].autoReload
        ensures t in log && log[t].start <= n < log[t].due
        ensures log[t].fired == (n - log[t].start) / timers[t].period
        ensures log[t].due == log[t].start + (log[t].fired + 1) * timers[t].period
      {
        NoDrift(timers[t], log[t], n);
      }
    }

    /** The head of a sorted list is the earliest expiry. */
    lemma HeadIsEarliest(list: seq<TimerId>, base: nat)
      requires ListOk(m, base, list, timers, log) && list != []
      ensures forall t :: t in list ==> t in log && base + timers[list[0]].value <= log[t].due
    {
      forall t | t in list ensures t in log && base + timers[list[0]].value <= log[t].due {
        var i :| 0 <= i < |list| && list[i] == t;
        assert Values(list, timers)[0] <= Values(list, timers)[i];
        assert QueuedIn(m, base, timers, log, t);
      }
    }

    /** No timer of the current epoch expires before the head of its list. */
    lemma CurrentHead(expireTime: nat)
      requires Lists() && current != [] && expireTime == timers[current[0]].value
      ensures current[0] in log && log[current[0]].due == epoch + expireTime
      ensures forall t :: t in current ==> t in log && log[current[0]].due <= log[t].due
    {
      assert QueuedIn(m, epoch, timers, log, current[0]);
      HeadIsEarliest(current, epoch);
    }

    /** What is queued is queued for an expiry in the current epoch or in the next. */
    lemma QueuedAhead()
      requires Lists()
      ensures forall t :: Queued(t) ==> t in log && epoch <= log[t].due < epoch + 2 * m
    {
      forall t | Queued(t) ensures t in log && epoch <= log[t].due < epoch + 2 * m {
        assert QueuedIn(m, if t in current then epoch else epoch + m, timers, log, t);
      }
    }

    /** prvGetNextExpireTime. */
    method NextExpireTime() returns (expireTime: nat, empty: bool)
      requires Lists()
      ensures empty == (current == [])
      ensures expireTime == if empty then 0 else timers[current[0]].value
    {
      empty := current == [];
      expireTime := if empty then 0 else timers[current[0]].value;
    }

    /** prvProcessTimerOrBlockTask: processes the head of the current list, or sees the lists
        switched, or blocks, for `ticks` or indefinitely.  When it blocks nothing is overdue, and
        it will not sleep past any expiry. */
    method ProcessTimerOrBlock(expireTime: nat, wasEmpty: bool, tick: nat, ghost n: nat)
      returns (blocked: bool, ticks: nat, indefinitely: bool)
      requires Inv(now, {}) && Synced() && now <= n < now + m && tick == Tick(m, n)
      requires wasEmpty == (current == [])
      requires expireTime == if wasEmpty then 0 else timers[current[0]].value
      modifies this`timers, this`log, this`current, this`overflow, this`epoch, this`now, this`lastTime
      ensures Inv(n, {}) && Synced() && now == n && OnlyExpiries(n, {})
      ensures blocked <==> NothingDue(m, old(State()), n)
      ensures blocked <==> n < old(epoch) + m && forall t :: t in old(current) ==> t in log && n < old(log)[t].due
      ensures !blocked && n < old(epoch) + m ==> old(current) != [] && EarliestServed(old(current)[0], n)
      ensures !blocked && old(epoch) + m <= n ==> forall t :: Queued(t) ==> t in log && old(epoch) + m <= log[t].due
      ensures blocked ==> OnTime(n) && NothingOverdue(n) && timers == old(timers) && log == old(log)
      ensures blocked ==> (indefinitely <==> current == [] && overflow == []) && current == old(current)
      ensures blocked && current != [] ==> current[0] in log && n + ticks == log[current[0]].due
      ensures blocked && current == [] ==> n + ticks == if tick == 0 then n else epoch + m
      ensures blocked && !indefinitely ==> forall t :: Queued(t) ==> t in log && n + ticks <= log[t].due
    {
      hide Lists, Consistent, OnlyRan, Served, NothingOverdue, OnTime;
      var switched := Sample(tick, n, {});
      blocked, ticks, indefinitely := false, 0, false;
      QueuedAhead();
      if !switched {
        if !wasEmpty && expireTime <= tick {
          HeadDue();
          ProcessExpired(expireTime, tick, n, {});
        } else {
          blocked := true;
          indefinitely := wasEmpty && overflow == [];
          ticks := (expireTime - tick) % m;
          BlockTime(expireTime, tick, n);
          NothingOverdueIsOnTime(n);
        }
      }
    }

    /** The block time reaches exactly to the first expiry of the epoch, or to its end if there is none; at
        tick 0 it is then 0. */
    lemma BlockTime(expireTime: nat, tick: nat, n: nat)
      requires Inv(n, {}) && Synced() && now == n && tick == lastTime
      requires expireTime == if current == [] then 0 else timers[current[0]].value
      requires current != [] ==> tick < expireTime
      ensures var ticks := (expireTime - tick) % m;
              if current != [] then current[0] in log && n + ticks == epoch + expireTime == log[current[0]].due
              else n + ticks == if tick == 0 then n else epoch + m
      ensures NothingOverdue(n)
      ensures forall t :: Queued(t) ==> t in log && n + (expireTime - tick) % m <= log[t].due
    {
      ModUnique(m, expireTime - tick, if current == [] && tick != 0 then -1 else 0,
                if current == [] && tick != 0 then m - tick else expireTime - tick);
      if current != [] {
        CurrentHead(expireTime);
        HeadIsEarliest(current, epoch);
      }
      forall t | Queued(t) ensures t in log && n + (expireTime - tick) % m <= log[t].due && n < log[t].due {
        if t in overflow {
          assert QueuedIn(m, epoch + m, timers, log, t);
        }
      }
    }

    /** A start or reset up to the test whether the timer, still off the lists, has expired. */
    method Begin(t: TimerId, value: nat, tick: nat, ghost n: nat, ghost command: nat)
      returns (again: bool, next: nat)
      requires Inv(n, {t}) && Ready(t, tick, value, n, command)
      modifies this`timers, this`log, this`current, this`overflow
      ensures OthersKept(t) && SameSettings(timers[t], old(timers[t])) && timers[t].active
      ensures t in log && log[t] == Past(command, 0, command + timers[t].period)
      ensures History(timers[t], log[t], n)
      ensures again ==> Inv(n, {t}) && Ready(t, tick, next, n, log[t].due)
      ensures !again ==> Inv(n, {}) && n < log[t].due
    {
      hide Lists, Consistent, Moved, History, SameBut, ListedBut;
      assert {} + {t} == {t};
      PeriodOk(t);
      EpochOk();
      Write(t, timers[t].(active := true), Past(command, 0, command));
      ghost var timers0, log0, current0, overflow0 := timers, log, current, overflow;
      EpochOk();
      again, next := Requeue(t, value, tick, n, command);
      MovedKeeps(timers0, log0, current0, overflow0, timers, log, current, overflow, t);
      SameButAfterWrite(old(timers), old(log), timers0, log0, timers, log, t);
      FirstExpiry(timers[t], log[t], n);
      if again {
        ConsistentStill(old(timers), old(log), old(current), old(overflow), timers, log, current, overflow, t, n, {});
      } else {
        ConsistentAgain(old(timers), old(log), old(current), old(overflow), timers, log, current, overflow, t, n, {});
      }
    }

    /** tmrCOMMAND_START and tmrCOMMAND_RESET. */
    method Restart(t: TimerId, value: nat, tick: nat, ghost n: nat, ghost command: nat)
      requires Inv(n, {t}) && Ready(t, tick, value, n, command)
      modifies this`timers, this`log, this`current, this`overflow
      ensures Inv(n, {}) && t in timers && t in log
      ensures OthersKept(t) && Restarted(command, n, old(timers)[t], timers[t], log[t])
    {
      hide Lists, Consistent;
      assert {} + {t} == {t};
      var again, next := Begin(t, value, tick, n, command);
      if again {
        Expire(t, next, tick, n, {});
      }
    }

    /** tmrCOMMAND_STOP, and tmrCOMMAND_DELETE of a static timer. */
    method MakeDormant(t: TimerId, ghost n: nat)
      requires Inv(n, {t}) && t in timers
      modifies this`timers, this`log
      ensures Inv(n, {}) && OthersKept(t)
      ensures timers == old(timers)[t := old(timers[t]).(active := false)] && log == old(log)
    {
      Write(t, timers[t].(active := false), log[t]);
    }

    /** tmrCOMMAND_CHANGE_PERIOD: counts from now, so the expiry cannot be past. */
    method Repace(t: TimerId, period: nat, tick: nat, ghost n: nat)
      requires Inv(n, {t}) && Ready(t, tick, tick, n, n) && 1 <= period < m
      modifies this`timers, this`log, this`current, this`overflow
      ensures Inv(n, {}) && OthersKept(t) && t in timers && t in log
      ensures timers[t].period == period && timers[t].active && log[t] == Past(n, 0, n + period)
      ensures timers[t].autoReload == old(timers[t].autoReload)
    {
      hide Lists, Consistent;
      assert {} + {t} == {t};
      Write(t, timers[t].(period := period), log[t]);
      ConsistentStill(old(timers), old(log), old(current), old(overflow), timers, log, current, overflow, t, n, {});
      var again, _ := Begin(t, tick, tick, n, n);
    }

    /** A timer command starts by taking the timer off its list, and only then samples the clock. */
    method Prepare(t: TimerId, tick: nat, ghost n: nat)
      requires Inv(now, {}) && Synced() && now <= n < now + m && tick == Tick(m, n) && t in timers
      modifies this`timers, this`log, this`current, this`overflow, this`epoch, this`now, this`lastTime
      ensures Inv(n, {t}) && Synced() && now == n && lastTime == tick
      ensures OnlyExpiries(n, {t})
    {
      hide Lists, Consistent, OnlyRan;
      if Queued(t) {
        Dequeue(t);
      }
      ConsistentWithout(timers, log, old(current), old(overflow), current, overflow, t, now, {});
      assert {} + {t} == {t};
      var _ := Sample(tick, n, {t});
    }

    /** The switch on the command, with the timer already off its list. */
    method Dispatch(msg: Message, tick: nat, ghost n: nat, ghost command: nat)
      requires Inv(n, {msg.timer}) && msg.timer in timers && epoch <= n < epoch + m && tick == Tick(m, n)
      requires msg.id in {Start, Reset} ==> command <= n < command + m && msg.value == Tick(m, command)
      requires msg.id == ChangePeriod ==> 1 <= msg.value < m
      modifies this`timers, this`log, this`current, this`overflow
      ensures OthersKept(msg.timer) && msg.timer in timers && msg.timer in log
      ensures Inv(n, if msg.id == Other then {msg.timer} else {})
      ensures msg.id == Other ==> timers == old(timers) && !Queued(msg.timer)
      ensures var t := msg.timer;
              Executed(msg, command, n, old(timers)[t], old(log)[t], timers[t], log[t])
    {
      hide Lists, Consistent, Restarted;
      var t := msg.timer;
      OffLists(timers, log, current, overflow, t, n, {t});
      EpochOk();
      match msg.id
      case Start => Restart(t, msg.value, tick, n, command);
      case Reset => Restart(t, msg.value, tick, n, command);
      case Stop => MakeDormant(t, n);
      case ChangePeriod => Repace(t, msg.value, tick, n);
      case DeleteStatic => MakeDormant(t, n);
      case Other =>
    }

    /** One turn of prvProcessReceivedCommands.  After every command that is known, a timer is
        active iff it is on exactly one list; an unknown one breaks this iff it was active. */
    method ProcessCommand(msg: Message, tick: nat, ghost n: nat, ghost command: nat)
      requires Inv(now, {}) && Synced() && now <= n < now + m && tick == Tick(m, n)
      requires msg.timer in timers
      requires msg.id in {Start, Reset} ==> command <= n < command + m && msg.value == Tick(m, command)
      requires msg.id == ChangePeriod ==> 1 <= msg.value < m
      modifies this`timers, this`log, this`current, this`overflow, this`epoch, this`now, this`lastTime
      ensures Synced() && now == n && lastTime == tick && OthersRan(msg.timer, n) && msg.timer in log
      ensures Inv(n, if msg.id == Other then {msg.timer} else {})
      ensures (timers[msg.timer].active <==> Queued(msg.timer)) <==> msg.id != Other || !old(timers[msg.timer].active)
      ensures var t := msg.timer;
              Executed(msg, command, n, old(timers)[t], old(log)[t], timers[t], log[t])
      ensures msg.id in {Start, Reset} ==>
              var (t, tm) := (msg.timer, old(timers)[msg.timer]);
              && timers[t].period == tm.period && timers[t].autoReload == tm.autoReload && log[t].start == command
              && (timers[t].active <==> tm.autoReload || n < command + tm.period)
              && (tm.autoReload ==> n < log[t].due)
              && (!tm.autoReload ==> log[t].fired == if n < command + tm.period then 0 else 1)
      ensures msg.id in {Stop, DeleteStatic} ==>
              && timers[msg.timer] == old(timers)[msg.timer].(active := false)
              && log[msg.timer] == old(log)[msg.timer]
      ensures msg.id == ChangePeriod ==>
              && timers[msg.timer].active && timers[msg.timer].period == msg.value
              && timers[msg.timer].autoReload == old(timers)[msg.timer].autoReload
              && log[msg.timer] == Past(n, 0, n + msg.value)
      ensures msg.id == Other ==> timers[msg.timer] == old(timers)[msg.timer] && log[msg.timer] == old(log)[msg.timer]
    {
      hide Lists, Ran, Consistent, Executed;
      var t := msg.timer;
      Prepare(t, tick, n);
      label prepared:
      Dispatch(msg, tick, n, command);
      if msg.id != Other {
        ActiveIffListed(timers, log, current, overflow, t, n);
      }
      CommandsExact(msg, command, n, old(timers)[t], old(log)[t], timers[t], log[t]);
    }

    /** A timer that a command has been executed on does what the command asks. */
    lemma Obedient(msg: Message, issued: nat, n: nat, before: Timer, pastBefore: Past, a: Ask)
      requires Inv(n, {}) && msg.timer in timers && msg.timer in log && msg.id != Other && before.period == a.period
      requires Executed(msg, issued, n, before, pastBefore, timers[msg.timer], log[msg.timer])
      ensures Obeys(timers[msg.timer], log[msg.timer], Told(a, msg, issued, n), n)
    {
      assert timers[msg.timer].active ==> Queued(msg.timer);
    }

    /** One command: afterwards every timer does what it has been asked to do. */
    method Execute(o: Order, ghost asks: Asks)
      requires Inv(now, {}) && Synced() && OrderOk(m, now, timers.Keys, o) && AllObey(timers, log, asks, now)
      modifies this`timers, this`log, this`current, this`overflow, this`epoch, this`now, this`lastTime
      ensures Inv(now, {}) && Synced() && now == o.at && timers.Keys == old(timers.Keys)
      ensures AllObey(timers, log, AfterOrder(asks, o), now) && OthersRan(o.msg.timer, o.at)
    {
      hide Inv, Synced, Executed, Ran, Obeys;
      var t := o.msg.timer;
      ObeysPeriod(timers[t], log[t], asks[t], now);
      ProcessCommand(o.msg, o.tick, o.at, o.issued);
      Obedient(o.msg, o.issued, o.at, old(timers)[t], old(log)[t], asks[t]);
      forall u | u in timers ensures Obeys(timers[u], log[u], AfterOrder(asks, o)[u], o.at) {
        if u != t {
          ObeysOn(old(timers)[u], old(log)[u], timers[u], log[u], asks[u], old(now), o.at);
        }
      }
    }

    /** prvProcessReceivedCommands: empties the command queue.  Every timer then does what the orders
        so far have asked of it. */
    method ProcessReceivedCommands(queue: seq<Order>, ghost asks: Asks)
      requires Inv(now, {}) && Synced() && OrdersOk(m, now, timers.Keys, queue) && AllObey(timers, log, asks, now)
      modifies this`timers, this`log, this`current, this`overflow, this`epoch, this`now, this`lastTime
      ensures Inv(now, {}) && Synced() && timers.Keys == old(timers.Keys)
      ensures now == LastSample(old(now), queue, |queue|) && AllObey(timers, log, AfterOrders(asks, queue), now)
      ensures OthersServed(old(timers), old(log), timers, log, queue, now)
    {
      hide Inv, Synced, AllObey, OrderOk, OthersServed, Ran;
      var i := 0;
      ObeyKeys(timers, log, asks, now);
      NobodyServed(timers, log, now);
      assert queue[..0] == [];
      while i < |queue|
        invariant i <= |queue| && Inv(now, {}) && Synced() && timers.Keys == old(timers.Keys)
        invariant now == LastSample(old(now), queue, i)
        invariant AllObey(timers, log, AfterOrders(asks, queue[..i]), now)
        invariant OthersServed(old(timers), old(log), timers, log, queue[..i], now)
      {
        OrderIsOk(m, old(now), old(timers.Keys), queue, i);
        assert queue[..i+1] == queue[..i] + [queue[i]];
        ghost var timers0, log0, now0 := timers, log, now;
        Execute(queue[i], AfterOrders(asks, queue[..i]));
        OneMoreOrder(old(timers), old(log), timers0, log0, timers, log, queue[..i], queue[i], now0, now);
        i := i + 1;
      }
      assert queue[..i] == queue;
    }

    /** When nothing is overdue, timers that do what they were asked to do are punctual. */
    lemma ObedientIsPunctual(asks: Asks, n: nat)
      requires Inv(n, {}) && NothingOverdue(n) && AllObey(timers, log, asks, n)
      ensures Punctual(timers, log, asks, n)
    {
      forall t | t in timers && asks[t].running
        ensures var a := asks[t];
                && a.start <= n && 0 < a.period
                && log[t].fired == Callbacks(timers[t].autoReload, a, n)
                && (timers[t].autoReload ==> log[t].due == a.start + (log[t].fired + 1) * a.period)
                && (timers[t].active <==> timers[t].autoReload || n < a.start + a.period)
      {
        assert Obeys(timers[t], log[t], asks[t], n);
        if timers[t].autoReload {
          NoDrift(timers[t], log[t], n);
        } else {
          FirstPeriod(n, asks[t]);
        }
      }
    }

    /** One turn of the daemon's loop. */
    method TakeTurn(turn: Turn, ghost asks: Asks) returns (blocked: bool)
      requires Inv(now, {}) && Synced() && AllObey(timers, log, asks, now) && TurnOk(m, now, timers.Keys, turn)
      modifies this`timers, this`log, this`current, this`overflow, this`epoch, this`now, this`lastTime
      ensures Inv(now, {}) && Synced() && timers.Keys == old(timers.Keys)
      ensures now == LastSample(turn.at, turn.orders, |turn.orders|)
      ensures AllObey(timers, log, AfterOrders(asks, turn.orders), now)
      ensures OthersServed(old(timers), old(log), timers, log, turn.orders, now)
      ensures blocked <==> NothingDue(m, old(State()), turn.at)
      ensures blocked ==> Punctual(old(timers), old(log), asks, turn.at)
    {
      hide Lists, Punctual, OrdersOk, Obeys, Ran, OthersServed;
      var expireTime, empty := NextExpireTime();
      var ticks, indefinitely;
      blocked, ticks, indefinitely := ProcessTimerOrBlock(expireTime, empty, turn.tick, turn.at);
      forall u | u in timers ensures Obeys(timers[u], log[u], asks[u], turn.at) {
        ObeysOn(old(timers)[u], old(log)[u], timers[u], log[u], asks[u], old(now), turn.at);
      }
      if blocked {
        ObedientIsPunctual(asks, turn.at);
      }
      ghost var timers0, log0 := timers, log;
      SamplesAscend(m, turn.at, timers.Keys, turn.orders, |turn.orders|);
      ProcessReceivedCommands(turn.orders, asks);
      ServedBefore(old(timers), old(log), timers0, log0, timers, log, turn.orders, turn.at, now);
    }

    /** The daemon's loop, for as many turns as one likes, from any state; `seen` is what each turn
        finds.  The daemon goes to sleep whenever there is nothing to do, and then every timer has had
        exactly the callbacks that the orders handled so far ask for: no drift, whatever the delays of
        the daemon and of the commands. */
    method TimerTask(turns: seq<Turn>, ghost asks: Asks) returns (sleeps: seq<bool>, ghost seen: seq<Snapshot>)
      requires Inv(now, {}) && Synced() && AllObey(timers, log, asks, now) && TurnsOk(m, now, timers.Keys, turns)
      modifies this`timers, this`log, this`current, this`overflow, this`epoch, this`now, this`lastTime
      ensures Inv(now, {}) && Synced() && AllObey(timers, log, AsksAt(asks, turns, |turns|), now)
      ensures |sleeps| == |turns| && |seen| == |turns| + 1 && seen[0] == old(State()) && seen[|turns|] == State()
      ensures DaemonRun(m, old(now), turns, asks, sleeps, seen)
    {
      hide Inv, Synced, AllObey, Punctual, TurnOk, NothingDue, SleepsOnTime, OthersServed, TurnFrom;
      sleeps, seen := [], [State()];
      RunStarts(old(now), turns);
      var k := 0;
      while k < |turns|
        invariant k <= |turns| && Inv(now, {}) && Synced() && timers.Keys == old(timers.Keys)
        invariant now == TurnFrom(old(now), turns, k) && AllObey(timers, log, AsksAt(asks, turns, k), now)
        invariant |sleeps| == k && |seen| == k + 1 && seen[0] == old(State()) && seen[k] == State()
        invariant forall i :: 0 <= i < k ==> SleepsOnTime(m, seen[i], sleeps[i], turns, i, asks)
        invariant forall i :: 0 <= i <= k ==> ObeyedAt(seen[i], old(now), turns, i, asks)
        invariant forall i :: 0 <= i < k ==> TurnServed(seen[i], seen[i+1], old(now), turns, i)
      {
        assert TurnOk(m, TurnFrom(old(now), turns, k), old(timers.Keys), turns[k]);
        var blocked := TakeTurn(turns[k], AsksAt(asks, turns, k));
        TurnEnds(old(now), turns, k);
        SleptOnTime(m, seen[k], blocked, turns, k, asks);
        sleeps, seen := sleeps + [blocked], seen + [State()];
        k := k + 1;
      }
    }
  }
}
