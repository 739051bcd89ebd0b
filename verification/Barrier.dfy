/**
 The rendezvous of `xEventGroupSync` as a reusable barrier.

 A fixed set of tasks, each owning its own flags, calls sync again and again on the union of all
 flags.  A task may re-enter the barrier before tasks released from the previous round have run.
 */
module Barrier {
  import opened ListSpec
  import opened EventGroups
  import opened TaskLists

  /** `own` gives each participant its flags; `entered` and `left` count calls begun and returned;
      `round` counts completed rendezvous. */
  datatype State = State(own: map<TaskId, Bits>, g: Group, entered: map<TaskId, nat>, left: map<TaskId, nat>,
                         round: nat)

  function All(own: map<TaskId, Bits>): Bits {
    set t, b | t in own && b in own[t] :: b
  }

  ghost predicate GoodOwners(own: map<TaskId, Bits>) {
    && own.Keys != {}
    && (forall t :: t in own ==> own[t] != {} && own[t] !! CONTROL)
    && (forall t, u :: t in own && u in own && t != u ==> own[t] !! own[u])
  }

  /** Participant `t` is asleep in the current round. */
  predicate Arrived(s: State, t: TaskId)
    requires t in s.entered
  {
    s.entered[t] == s.round + 1
  }

  predicate Outside(s: State, t: TaskId) {
    t in s.entered && t in s.left && s.entered[t] == s.left[t]
  }

  ghost predicate ReleasedWithAll(s: State, t: TaskId) {
    t in s.g.item && exists b: Bits :: b !! CONTROL && All(s.own) <= b && s.g.item[t] == b + UNBLOCKED + IN_USE
  }

  ghost predicate TaskInv(s: State, t: TaskId)
    requires t in s.own && t in s.entered && t in s.left
  {
    && s.round <= s.entered[t] <= s.round + 1
    && (t in s.g.waiting <==> Arrived(s, t))
    && (Arrived(s, t) ==> s.left[t] == s.round && t in s.g.item && s.g.item[t] == Request(All(s.own), true, true))
    && (!Arrived(s, t) ==> s.left[t] == s.round || (s.left[t] + 1 == s.round && ReleasedWithAll(s, t)))
    && (forall b :: b in s.own[t] ==> (b in s.g.bits <==> Arrived(s, t)))
  }

  ghost predicate TasksInv(s: State)
    requires s.own.Keys == s.entered.Keys == s.left.Keys
  {
    forall t :: t in s.own ==> TaskInv(s, t)
  }

  /** Otherwise the round would be over. */
  ghost predicate SomeoneMissing(s: State)
    requires s.own.Keys == s.entered.Keys
  {
    exists t :: t in s.own && !Arrived(s, t)
  }

  ghost predicate Inv(s: State) {
    && GoodOwners(s.own) && s.own.Keys == s.entered.Keys == s.left.Keys
    && s.g.bits !! CONTROL
    && (forall t :: t in s.g.waiting ==> t in s.own)
    && TasksInv(s) && SomeoneMissing(s)
  }

  lemma WaitersCovered(s: State)
    requires Inv(s)
    ensures Covers(s.g.item, s.g.waiting)
    ensures forall w :: w in s.g.waiting ==> s.g.item[w] == Request(All(s.own), true, true)
  {
    forall w | w in s.g.waiting ensures w in s.g.item && s.g.item[w] == Request(All(s.own), true, true) {
      assert TaskInv(s, w);
    }
  }

  /** A sync call by `t`; the call that completes the set of flags returns at once. */
  function Enter(s: State, t: TaskId): State
    requires Covers(s.g.item, s.g.waiting) && Outside(s, t) && t in s.own
  {
    var (g', outcome) := AfterSync(s.g, t, s.own[t], All(s.own), true);
    var entered := s.entered[t := s.entered[t] + 1];
    match outcome
    case Returns(_) => State(s.own, g', entered, s.left[t := s.left[t] + 1], s.round + 1)
    case Blocks => State(s.own, g', entered, s.left, s.round)
  }

  /** A released task runs again and its call returns. */
  function Leave(s: State, t: TaskId, normal: Bits): State
    requires t in s.g.item && t in s.left
  {
    s.(g := AfterFinish(s.g, t, All(s.own), true, true, normal).0, left := s.left[t := s.left[t] + 1])
  }

  predicate MayLeave(s: State, t: TaskId) {
    t in s.own && t in s.left && t in s.entered && t in s.g.item && !Outside(s, t) && t !in s.g.waiting
  }

  // ---------- What one set-bits call does to waiters that all want everything ----------

  lemma {:induction false} NobodyReleased(b: Bits, ws: seq<TaskId>, item: Items)
    requires Covers(item, ws) && forall w :: w in ws ==> !Satisfied(b, item[w])
    ensures Waiting(b, ws, item) == ws && ClearMask(b, ws, item) == {} && Stamped(b, ws, item) == item
  {
    hide Satisfied;
    if ws != [] {
      var n := |ws| - 1;
      assert ws == ws[..n] + [ws[n]];
      NobodyReleased(b, ws[..n], item);
    }
  }

  lemma {:induction false} NobodyLeft(b: Bits, ws: seq<TaskId>, item: Items)
    requires Covers(item, ws) && forall w :: w in ws ==> Satisfied(b, item[w])
    ensures Waiting(b, ws, item) == []
  {
    if ws != [] {
      var n := |ws| - 1;
      assert ws == ws[..n] + [ws[n]];
      NobodyLeft(b, ws[..n], item);
    }
  }

  lemma EverybodyReleased(b: Bits, ws: seq<TaskId>, item: Items, all: Bits)
    requires Covers(item, ws) && all <= b && all !! CONTROL
    requires forall w :: w in ws ==> item[w] == Request(all, true, true)
    ensures Waiting(b, ws, item) == [] && ClearMask(b, ws, item) <= all
    ensures forall w :: w in item ==> Stamped(b, ws, item)[w] == if w in ws then b + UNBLOCKED + IN_USE else item[w]
  {
    RequestRoundTrip(b, all, true, true);
    assert b * all == all;
    NobodyLeft(b, ws, item);
    forall x | x in ClearMask(b, ws, item) ensures x in all {
      ClearMaskIsUnion(b, ws, item, x);
    }
  }

  // ---------- Entering ----------

  lemma AllArrive(s: State, t: TaskId)
    requires Inv(s) && t in s.own && Outside(s, t)
    ensures !Arrived(s, t) && s.left[t] == s.round
    ensures All(s.own) !! CONTROL
    ensures All(s.own) <= s.g.bits + s.own[t] <==> forall u :: u in s.own && u != t ==> Arrived(s, u)
  {
    assert TaskInv(s, t);
    if u :| u in s.own && u != t && !Arrived(s, u) {
      assert TaskInv(s, u) && s.own[t] !! s.own[u];
      var b :| b in s.own[u];
      assert b in All(s.own) && b !in s.g.bits + s.own[t];
    } else {
      forall b | b in All(s.own) ensures b in s.g.bits + s.own[t] {
        var u :| u in s.own && b in s.own[u];
        assert TaskInv(s, u);
      }
    }
  }

  lemma SyncCompletes(g: Group, t: TaskId, toSet: Bits, all: Bits)
    requires Covers(g.item, g.waiting) && all !! CONTROL && all <= g.bits + toSet
    requires forall w :: w in g.waiting ==> g.item[w] == Request(all, true, true)
    ensures var (g', outcome) := AfterSync(g, t, toSet, all, true);
            && outcome.Returns? && g'.waiting == [] && g'.bits == g.bits + toSet - all
            && g'.item.Keys == g.item.Keys
            && forall w :: w in g.waiting ==> g'.item[w] == g.bits + toSet + UNBLOCKED + IN_USE
  {
    hide Satisfied, ClearMask, Waiting;
    var b := g.bits + toSet;
    assert b * all == all;
    EverybodyReleased(b, g.waiting, g.item, all);
  }

  /** The last arrival returns at once, releases every sleeper with all flags in its result, and
      leaves the flags clear for the next round. */
  lemma LastArrival(s: State, t: TaskId)
    requires Inv(s) && t in s.own && Outside(s, t) && Covers(s.g.item, s.g.waiting)
    requires forall u :: u in s.own && u != t ==> Arrived(s, u)
    ensures var s' := Enter(s, t);
            && s'.own == s.own && s'.entered == s.entered[t := s'.round] && s'.left == s.left[t := s'.round]
            && s'.round == s.round + 1
            && s'.g.waiting == [] && s'.g.bits !! All(s.own)
            && s'.g.bits == s.g.bits + s.own[t] - All(s.own)
            && forall u :: u in s.own && u != t ==> ReleasedWithAll(s', u)
  {
    hide AfterSync, All, SomeoneMissing;
    AllArrive(s, t);
    WaitersCovered(s);
    var b, all := s.g.bits + s.own[t], All(s.own);
    SyncCompletes(s.g, t, s.own[t], all);
    var s' := Enter(s, t);
    assert b !! CONTROL;
    forall u | u in s.own && u != t ensures ReleasedWithAll(s', u) {
      assert TaskInv(s, u);
      assert s'.g.item[u] == b + UNBLOCKED + IN_USE;
    }
  }

  lemma SyncBlocks(g: Group, t: TaskId, toSet: Bits, all: Bits)
    requires Covers(g.item, g.waiting) && all !! CONTROL && !(all <= g.bits + toSet)
    requires forall w :: w in g.waiting ==> g.item[w] == Request(all, true, true)
    ensures AfterSync(g, t, toSet, all, true) ==
            (Block(g.(bits := g.bits + toSet), t, Request(all, true, true)), Blocks)
  {
    var b := g.bits + toSet;
    RequestRoundTrip(b, all, true, true);
    assert b * all != all;
    assert !Satisfied(b, Request(all, true, true));
    NobodyReleased(b, g.waiting, g.item);
    assert AfterSetBits(g, toSet) == g.(bits := b);
  }

  /** Participant `t` has gone to sleep in the barrier. */
  function Asleep(s: State, t: TaskId): (r: State)
    requires t in s.own && t in s.entered
    ensures r.entered.Keys == s.entered.Keys && r.left == s.left && r.own == s.own
  {
    State(s.own, Block(s.g.(bits := s.g.bits + s.own[t]), t, Request(All(s.own), true, true)),
          s.entered[t := s.entered[t] + 1], s.left, s.round)
  }

  lemma AsleepExact(s: State, t: TaskId)
    requires t in s.own && t in s.entered
    ensures var s' := Asleep(s, t);
            && s'.own == s.own && s'.entered == s.entered[t := s.entered[t] + 1] && s'.left == s.left
            && s'.round == s.round && s'.g.bits == s.g.bits + s.own[t]
            && s'.g.waiting == s.g.waiting + [t]
            && s'.g.item == s.g.item[t := Request(All(s.own), true, true)]
  {
  }

  lemma EntersAsleep(s: State, t: TaskId, late: TaskId)
    requires Inv(s) && t in s.own && Outside(s, t) && Covers(s.g.item, s.g.waiting)
    requires late in s.own && late != t && !Arrived(s, late)
    ensures Enter(s, t) == Asleep(s, t)
  {
    AllArrive(s, t);
    WaitersCovered(s);
    SyncBlocks(s.g, t, s.own[t], All(s.own));
  }

  /** Any other arrival only adds its flags, falls asleep and wakes nobody. */
  lemma EarlyArrival(s: State, t: TaskId, late: TaskId)
    requires Inv(s) && t in s.own && Outside(s, t) && Covers(s.g.item, s.g.waiting)
    requires late in s.own && late != t && !Arrived(s, late)
    ensures Enter(s, t) == Asleep(s, t)
    ensures var s' := Enter(s, t);
            && s'.own == s.own && s'.entered == s.entered[t := s.entered[t] + 1] && s'.left == s.left
            && s'.round == s.round && s'.g.bits == s.g.bits + s.own[t]
            && s'.g.waiting == s.g.waiting + [t]
            && s'.g.item == s.g.item[t := Request(All(s.own), true, true)]
  {
    hide Enter, Inv, Asleep, All;
    EntersAsleep(s, t, late);
    AsleepExact(s, t);
  }

  lemma LastArrivalKeepsInv(s: State, t: TaskId)
    requires Inv(s) && t in s.own && Outside(s, t) && Covers(s.g.item, s.g.waiting)
    requires forall u :: u in s.own && u != t ==> Arrived(s, u)
    ensures Inv(Enter(s, t))
  {
    LastArrival(s, t);
    var s' := Enter(s, t);
    forall u | u in s.own ensures TaskInv(s', u) && !Arrived(s', u) {
      assert TaskInv(s, u);
      assert s.own[u] <= All(s.own);
    }
    assert t in s'.own && !Arrived(s', t);
  }

  lemma AsleepKeepsTask(s: State, t: TaskId, u: TaskId)
    requires t in s.own && t in s.entered && u in s.own && u in s.entered && t in s.left && u in s.left
    requires TaskInv(s, t) && TaskInv(s, u) && u != t ==> s.own[u] !! s.own[t]
    requires TaskInv(s, t) && TaskInv(s, u) && Outside(s, t) && !Arrived(s, t) && s.left[t] == s.round
    ensures TaskInv(Asleep(s, t), u)
  {
    var s' := Asleep(s, t);
    assert forall w :: w in s'.g.waiting <==> w in s.g.waiting || w == t;
    if ReleasedWithAll(s, u) && u != t {
      assert ReleasedWithAll(s', u);
    }
  }

  lemma AsleepKeepsTasks(s: State, t: TaskId)
    requires Inv(s) && t in s.own && Outside(s, t)
    ensures TasksInv(Asleep(s, t))
  {
    assert TaskInv(s, t);
    forall u | u in s.own ensures TaskInv(Asleep(s, t), u) {
      assert TaskInv(s, u);
      AsleepKeepsTask(s, t, u);
    }
  }

  lemma AsleepKeepsInv(s: State, t: TaskId, late: TaskId)
    requires Inv(s) && t in s.own && Outside(s, t)
    requires late in s.own && late != t && !Arrived(s, late)
    ensures Inv(Asleep(s, t))
  {
    var s' := Asleep(s, t);
    assert s'.g.bits !! CONTROL by {
      assert s.own[t] !! CONTROL;
    }
    assert forall u :: u in s'.g.waiting ==> u in s'.own;
    AsleepKeepsTasks(s, t);
    assert SomeoneMissing(s') by {
      assert !Arrived(s', late);
    }
  }

  lemma EarlyArrivalKeepsInv(s: State, t: TaskId, late: TaskId)
    requires Inv(s) && t in s.own && Outside(s, t) && Covers(s.g.item, s.g.waiting)
    requires late in s.own && late != t && !Arrived(s, late)
    ensures Inv(Enter(s, t))
  {
    AsleepKeepsInv(s, t, late);
    EarlyArrival(s, t, late);
  }

  lemma EnterKeepsInv(s: State, t: TaskId)
    requires Inv(s) && t in s.own && Outside(s, t) && Covers(s.g.item, s.g.waiting)
    ensures Inv(Enter(s, t))
  {
    if late :| late in s.own && late != t && !Arrived(s, late) {
      EarlyArrivalKeepsInv(s, t, late);
    } else {
      LastArrivalKeepsInv(s, t);
    }
  }

  lemma LeaveKeepsTask(s: State, t: TaskId, normal: Bits, u: TaskId)
    requires Inv(s) && MayLeave(s, t) && u in s.own
    ensures var s' := Leave(s, t, normal);
            && s'.own == s.own && s'.g.waiting == s.g.waiting && s'.g.bits == s.g.bits
            && s'.entered == s.entered && s'.left.Keys == s.left.Keys && s'.round == s.round
            && TaskInv(s', u)
  {
    hide GoodOwners, SomeoneMissing, All;
    assert TaskInv(s, t) && TaskInv(s, u);
    var b: Bits :| b !! CONTROL && All(s.own) <= b && s.g.item[t] == b + UNBLOCKED + IN_USE;
    ReleasedValue(b);
  }

  lemma LeaveKeepsInv(s: State, t: TaskId, normal: Bits)
    requires Inv(s) && MayLeave(s, t)
    ensures Inv(Leave(s, t, normal))
    ensures All(s.own) <= AfterFinish(s.g, t, All(s.own), true, true, normal).1
  {
    hide TaskInv, GoodOwners, AfterFinish, Leave;
    LeaveReturnsAll(s, t, normal);
    var s' := Leave(s, t, normal);
    LeaveKeepsTask(s, t, normal, t);
    var late :| late in s.own && !Arrived(s, late);
    assert !Arrived(s', late);
    forall u | u in s.own ensures TaskInv(s', u) {
      LeaveKeepsTask(s, t, normal, u);
    }
  }

  /** A task that leaves returns with all flags set; nothing is changed for any other participant. */
  lemma LeaveExact(s: State, t: TaskId, normal: Bits)
    requires Inv(s) && MayLeave(s, t)
    ensures All(s.own) <= AfterFinish(s.g, t, All(s.own), true, true, normal).1
    ensures var s' := Leave(s, t, normal);
            && s'.own == s.own && s'.entered == s.entered && s'.left == s.left[t := s.left[t] + 1]
            && s'.left[t] == s'.entered[t] && s'.round == s.round
            && s'.g.bits == s.g.bits && s'.g.waiting == s.g.waiting
            && forall u :: u in s.g.item && u != t ==> u in s'.g.item && s'.g.item[u] == s.g.item[u]
  {
    hide GoodOwners, SomeoneMissing, All;
    LeaveReturnsAll(s, t, normal);
    assert TaskInv(s, t);
    var b: Bits :| b !! CONTROL && All(s.own) <= b && s.g.item[t] == b + UNBLOCKED + IN_USE;
    ReleasedValue(b);
  }

  lemma LeaveReturnsAll(s: State, t: TaskId, normal: Bits)
    requires Inv(s) && MayLeave(s, t)
    ensures All(s.own) <= AfterFinish(s.g, t, All(s.own), true, true, normal).1
  {
    assert TaskInv(s, t);
    var b: Bits :| b !! CONTROL && All(s.own) <= b && s.g.item[t] == b + UNBLOCKED + IN_USE;
    ReleasedValue(b);
  }

  // ---------- Every run ----------

  datatype Action = EnterAction(task: TaskId) | LeaveAction(task: TaskId, normal: Bits)

  ghost predicate Step(s: State, a: Action, s': State) {
    match a
    case EnterAction(t) => Covers(s.g.item, s.g.waiting) && t in s.own && Outside(s, t) && s' == Enter(s, t)
    case LeaveAction(t, normal) => MayLeave(s, t) && s' == Leave(s, t, normal)
  }

  ghost predicate Init(s: State) {
    && GoodOwners(s.own) && s.own.Keys == s.entered.Keys == s.left.Keys
    && s.g.waiting == [] && s.g.bits !! CONTROL && s.g.bits !! All(s.own)
    && s.round == 0 && forall t :: t in s.own ==> s.entered[t] == 0 && s.left[t] == 0
  }

  ghost predicate IsRun(states: seq<State>, actions: seq<Action>) {
    && |states| == |actions| + 1 && Init(states[0])
    && forall i :: 0 <= i < |actions| ==> Step(states[i], actions[i], states[i+1])
  }

  lemma InitInv(s: State)
    requires Init(s)
    ensures Inv(s)
  {
    var t :| t in s.own;
    assert !Arrived(s, t);
    forall u | u in s.own ensures TaskInv(s, u) {
      assert s.own[u] <= All(s.own);
    }
  }

  lemma StepKeepsInv(s: State, a: Action, s': State)
    requires Inv(s) && Step(s, a, s')
    ensures Inv(s') && s'.own == s.own
  {
    hide Inv;
    match a
    case EnterAction(t) => EnterKeepsInv(s, t);
    case LeaveAction(t, normal) => LeaveKeepsInv(s, t, normal);
  }

  lemma {:induction false} RunInv(states: seq<State>, actions: seq<Action>, n: nat)
    requires IsRun(states, actions) && n < |states|
    ensures Inv(states[n]) && states[n].own == states[0].own
  {
    hide Inv, Init, Step;
    if n == 0 {
      InitInv(states[0]);
    } else {
      RunInv(states, actions, n - 1);
      StepKeepsInv(states[n-1], actions[n-1], states[n]);
    }
  }

  /** The barrier property: in every state of every run, nobody has left more rounds than any
      other participant has entered, and no two participants are more than one round apart. */
  lemma NobodyLeavesEarly(states: seq<State>, actions: seq<Action>, n: nat, t: TaskId, u: TaskId)
    requires IsRun(states, actions) && n < |states|
    requires t in states[0].own && u in states[0].own
    ensures t in states[n].left && u in states[n].entered && t in states[n].entered
    ensures states[n].left[t] <= states[n].entered[u]
    ensures states[n].entered[t] <= states[n].entered[u] + 1
  {
    RunInv(states, actions, n);
    assert TaskInv(states[n], t) && TaskInv(states[n], u);
  }

  /** A round is complete as soon as everybody has entered it, and then nobody sleeps on: the number of
      rounds completed is the least number of calls begun by any participant, whoever has begun more calls
      is asleep, and whoever is not asleep has returned from its calls or is free to return. */
  lemma RoundsAreComplete(states: seq<State>, actions: seq<Action>, n: nat)
    requires IsRun(states, actions) && n < |states|
    ensures var s := states[n];
            && s.entered.Keys == s.left.Keys == s.own.Keys
            && (forall u :: u in s.own ==> s.round <= s.entered[u] <= s.round + 1)
            && (exists u :: u in s.own && s.entered[u] == s.round)
            && (forall u :: u in s.own ==> (u in s.g.waiting <==> s.entered[u] == s.round + 1))
            && (forall u :: u in s.own && u !in s.g.waiting ==>
                  s.left[u] == s.entered[u] || (s.left[u] + 1 == s.entered[u] && MayLeave(s, u)))
  {
    RunInv(states, actions, n);
    var s := states[n];
    var late :| late in s.own && !Arrived(s, late);
    assert TaskInv(s, late);
    forall u | u in s.own
      ensures s.round <= s.entered[u] <= s.round + 1 && (u in s.g.waiting <==> s.entered[u] == s.round + 1)
      ensures u !in s.g.waiting ==> s.left[u] == s.entered[u] || (s.left[u] + 1 == s.entered[u] && MayLeave(s, u))
    {
      assert TaskInv(s, u);
    }
  }
}
