/**
 Where every task is after every step, task by task, and what follows for runs: an event readies its
 task for good, and a task that waits without a deadline is found by no tick.
 */
module KernelPlaces {
  import opened Ticks
  import opened ListSpec
  import opened KernelSpec
  import opened KernelRuns

  /** The step readies task t, whatever its deadline. */
  predicate Readies(s: State, op: Op, t: int) {
    match op
    case OpEvent(x) => x == t && s.suspended == 0
    case OpRelease(x) => x == t
    case OpResume => s.suspended == 1 && t in s.pendingReady
    case _ => false
  }

  /** The step puts task t to sleep. */
  predicate Sleeps(s: State, op: Op, t: int) { op.OpBlock? && s.current == t }

  predicate ForEver(op: Op) { op.OpBlock? && op.ticks == MAX_DELAY && op.indefinitely }

  /** Ticks are processed one by one, or those pended at the outermost resume. */
  function TimeAfter(s: State, op: Op): int {
    if op == OpTick && s.suspended == 0 then s.now + 1
    else if op == OpResume && s.suspended == 1 then s.now + s.pended
    else s.now
  }

  /** Item e is on the list of deadlines after the step. */
  ghost predicate InQueue(s: State, op: Op, e: Item) {
    || (e in s.queue && !Readies(s, op, e.owner) && (TimeAfter(s, op) == s.now || e.value > TimeAfter(s, op)))
    || (Sleeps(s, op, e.owner) && !ForEver(op) && e.value == s.now + op.ticks)
  }

  /** Item e is on the list of those that wait without a deadline. */
  ghost predicate InForever(s: State, op: Op, e: Item) {
    || (e in s.forever && !Readies(s, op, e.owner))
    || (Sleeps(s, op, e.owner) && ForEver(op) && e.value == 0)
  }

  // ---------------------------------------------------------------- members of the blocked lists

  lemma {:induction false} OnceDistinct(xs: seq<Item>)
    requires forall t :: On(xs)[t] <= 1
    ensures Distinct(xs)
  {
    hide On;
    forall i, j | 0 <= i < j < |xs|
      ensures xs[i].owner != xs[j].owner
    {
      OnRemove(xs, j);
      assert RemoveAt(xs, j)[i] == xs[i];
      OwnerOn(RemoveAt(xs, j), xs[i]);
      assert On(xs)[xs[i].owner] <= 1;
    }
  }

  lemma OnMember(xs: seq<Item>, t: int) returns (e: Item)
    requires t in On(xs)
    ensures e in xs && e.owner == t
  {
    FindOn(xs, t);
    e := xs[Find(xs, t)];
  }

  /** No task is on the blocked lists twice. */
  lemma BlockedOnce(s: State)
    requires OnePlace(Tally(s), s.prio.Keys)
    ensures Distinct(s.queue) && Distinct(s.forever)
    ensures forall a, b :: a in s.queue && b in s.forever ==> a.owner != b.owner
  {
    hide On, OnRings, Distinct;
    forall t
      ensures On(s.queue)[t] + On(s.forever)[t] + OnRings(s.ready)[t] <= 1
    {
      assert Tally(s)[t] <= 1;
    }
    OnceDistinct(s.queue);
    OnceDistinct(s.forever);
    forall a, b | a in s.queue && b in s.forever
      ensures a.owner != b.owner
    {
      OwnerOn(s.queue, a);
      OwnerOn(s.forever, b);
    }
  }

  lemma UnlistIs(s: State, t: int, e: Item)
    requires OnePlace(Tally(s), s.prio.Keys) && t in BlockedTasks(s)
    ensures e in Unlist(s, t).queue <==> e in s.queue && e.owner != t
    ensures e in Unlist(s, t).forever <==> e in s.forever && e.owner != t
  {
    hide Distinct, Without, On, OnRings, OnePlace, Tally;
    BlockedOnce(s);
    WithoutIs(s.queue, t, e);
    WithoutIs(s.forever, t, e);
  }

  /** One blocked task is readied. */
  lemma ReadiedIs(s: State, t: int, e: Item)
    requires RingsOk(s) && OnePlace(Tally(s), s.prio.Keys) && t in BlockedTasks(s)
    ensures RingsOk(Unlist(s, t))
    ensures var u := AddReady(Unlist(s, t), t);
            && (e in u.queue <==> e in s.queue && e.owner != t) && (e in u.forever <==> e in s.forever && e.owner != t)
  {
    hide Unlist, OnePlace, Tally, BlockedTasks;
    UnlistIs(s, t, e);
    UnlistRings(s, t);
  }

  lemma UnlistRings(s: State, t: int)
    requires RingsOk(s)
    ensures RingsOk(Unlist(s, t))
  {
  }

  lemma CoreParts(s: State)
    requires Core(s)
    ensures RingsOk(s) && ReadyOk(s.top, s.ready, s.prio) && OnePlace(Tally(s), s.prio.Keys) && Sorted(s.queue)
    ensures BlockedOk(s.onEvent, s.pendingReady, BlockedTasks(s))
  {
  }

  lemma {:induction false} DrainedIs(s: State, e: Item)
    requires Core(s)
    ensures e in Drained(s).queue <==> e in s.queue && e.owner !in s.pendingReady
    ensures e in Drained(s).forever <==> e in s.forever && e.owner !in s.pendingReady
    decreases |s.pendingReady|
  {
    hide Core, Drained, AddReady, Unlist, RingsOk, OnePlace, Tally, BlockedTasks, BlockedOk, Sorted;
    CoreParts(s);
    if s.pendingReady != [] {
      var t, v := s.pendingReady[0], s.(pendingReady := s.pendingReady[1..]);
      var u := DrainStep(s);
      DrainStepCore(s, u);
      SameLists(s, v);
      BlockedNext(s.onEvent, s.pendingReady, BlockedTasks(s));
      ReadiedIs(v, t, e);
      DrainedIs(u, e);
      HeadOrRest(s.pendingReady, e.owner);
    } else {
      DrainEnd(s);
    }
  }

  lemma HeadOrRest(xs: seq<int>, t: int)
    requires xs != []
    ensures t in xs <==> t == xs[0] || t in xs[1..]
  {
  }

  lemma TickedIs(s: State, e: Item)
    requires RingsOk(s) && Sorted(s.queue)
    ensures e in Tick(s).queue <==> e in s.queue && e.value > s.now + 1
    ensures Tick(s).forever == s.forever
  {
    hide Tick, Pos, Sorted;
    TickedFields(s);
    if e in s.queue {
      TickQueue(s, e);
    }
  }

  lemma {:induction false} ReplayedIs(s: State, n: nat, e: Item)
    requires Core(s) && s.pendingReady == []
    ensures e in Replayed(s, n).queue <==> e in s.queue && (n == 0 || e.value > s.now + n)
    ensures Replayed(s, n).forever == s.forever
  {
    hide Core, Tick, TickSwitches, RingsOk, OnePlace, Tally, BlockedTasks, BlockedOk, Sorted;
    CoreParts(s);
    if n > 0 {
      ReplayedIs(s, n - 1, e);
      ReplayedCore(s, n - 1);
      ReplayedCounts(s, n - 1);
      CoreParts(Replayed(s, n - 1));
      TickedIs(Replayed(s, n - 1), e);
    }
  }

  lemma ResumedIs(s: State, e: Item)
    requires Good(s) && s.suspended > 0
    ensures Resume(s).now == TimeAfter(s, OpResume)
    ensures e in Resume(s).queue <==> InQueue(s, OpResume, e)
    ensures e in Resume(s).forever <==> InForever(s, OpResume, e)
  {
    hide OnRings, On, ReadyOk, QueueOk, OnePlace, Tally, BlockedTasks, BlockedOk, RingsOk, Drained, Replayed;
    CoreParts(s);
    var u := s.(suspended := s.suspended - 1);
    SameLists(s, u);
    SameRings(s, u);
    if u.suspended == 0 {
      DrainedCore(u);
      DrainedCounts(u);
      DrainedIs(u, e);
      ReplayedCounts(Drained(u), s.pended);
      ReplayedIs(Drained(u), s.pended, e);
    }
  }

  lemma EventIs(s: State, op: Op, t: int, e: Item)
    requires Core(s) && t in s.onEvent && (op == OpEvent(t) || op == OpRelease(t))
    ensures var u := if op == OpEvent(t) then Event(s, t) else Release(s, t);
            && u.now == s.now && (e in u.queue <==> InQueue(s, op, e)) && (e in u.forever <==> InForever(s, op, e))
  {
    hide On, OnRings, QueueOk, OnePlace, Tally, ReadyOk, RingsOk, BlockedTasks, Unlist, AddReady;
    CoreParts(s);
    EventFields(s, t);
    var u := s.(onEvent := s.onEvent - {t}, yieldPending := s.yieldPending || Prio(s, t) > Prio(s, s.current));
    SameLists(s, u);
    SameRings(s, u);
    ReadiedIs(u, t, e);
    AddReadyRest(Unlist(u, t), t);
  }

  lemma BlockIs(s: State, op: Op, e: Item)
    requires Core(s) && Enabled(s, op) && op.OpBlock?
    ensures var u := Block(s, op.ticks, op.indefinitely, op.event);
            && u.now == s.now && (e in u.queue <==> InQueue(s, op, e)) && (e in u.forever <==> InForever(s, op, e))
  {
    hide On, OnRings, QueueOk, OnePlace, Tally, ReadyOk, RingsOk, BlockedTasks, InsertSorted, WithoutRing;
    InsertMembers(s.queue, Item(s.now + op.ticks, s.current), e);
  }

  lemma IncrementIs(s: State, e: Item)
    requires RingsOk(s) && Sorted(s.queue)
    ensures var u := Increment(s);
            && u.now == TimeAfter(s, OpTick)
            && (e in u.queue <==> InQueue(s, OpTick, e)) && (e in u.forever <==> InForever(s, OpTick, e))
  {
    hide Tick, RingsOk, Sorted;
    if s.suspended == 0 {
      TickedFields(s);
      TickedIs(s, e);
    }
  }

  lemma SwitchIs(s: State, e: Item)
    requires RingsOk(s) && s.top < |s.ready|
    ensures var u := Switch(s);
            && u.now == TimeAfter(s, OpSwitch)
            && (e in u.queue <==> InQueue(s, OpSwitch, e)) && (e in u.forever <==> InForever(s, OpSwitch, e))
  {
    hide Switch;
    SwitchFields(s);
  }

  lemma SuspendIs(s: State, e: Item)
    ensures TimeAfter(s, OpSuspend) == s.now
    ensures (e in s.queue <==> InQueue(s, OpSuspend, e)) && (e in s.forever <==> InForever(s, OpSuspend, e))
  {
  }

  /**
   The blocked lists after any step. An item stays unless its task is readied or its time is reached, and
   the only one to come is that of the task that blocks: under its true deadline, or without one.
   */
  lemma StepPlaces(s: State, op: Op, e: Item)
    requires Good(s) && Enabled(s, op)
    ensures var u := Apply(s, op);
            && u.now == TimeAfter(s, op)
            && (e in u.queue <==> InQueue(s, op, e)) && (e in u.forever <==> InForever(s, op, e))
  {
    hide On, OnRings, QueueOk, OnePlace, Tally, ReadyOk, RingsOk, BlockedOk, BlockedTasks;
    hide Resume, Event, Release, Block, Tick, Switch, Increment, InQueue, InForever;
    CoreParts(s);
    match op
    case OpTick => IncrementIs(s, e);
    case OpSuspend => SuspendIs(s, e);
    case OpResume => ResumedIs(s, e);
    case OpSwitch =>
      TopKnown(s);
      SwitchIs(s, e);
    case OpEvent(t) => EventIs(s, op, t, e);
    case OpRelease(t) => EventIs(s, op, t, e);
    case OpBlock(_, _, _) => BlockIs(s, op, e);
  }

  // ---------------------------------------------------------------- ready tasks

  /** Task t has a deadline that the step reaches. */
  ghost predicate Due(s: State, op: Op, t: int) {
    exists e :: e in s.queue && e.owner == t && e.value <= TimeAfter(s, op) && TimeAfter(s, op) > s.now
  }

  /**
   Who is ready after any step: those that were and have not blocked, those the step readies, and those
   whose time it reaches. Nobody else, and nobody is left behind.
   */
  lemma StepReadies(s: State, op: Op, t: int)
    requires Good(s) && Enabled(s, op) && t in s.prio
    ensures t in OnRings(Apply(s, op).ready) <==>
      (t in OnRings(s.ready) && !Sleeps(s, op, t)) || Readies(s, op, t) || Due(s, op, t)
  {
    hide Good, On, OnRings, Apply, Enabled, BlockedTasks;
    var u := Apply(s, op);
    StepGood(s, op);
    ReadyUnlessBlocked(s, t);
    ReadyUnlessBlocked(u, t);
    GoodParts(s);
    if t in BlockedTasks(u) {
      var e := BlockedItem(u, t);
      StepPlaces(s, op, e);
      if t in BlockedTasks(s) {
        NotDue(s, op, e);
      } else {
        NeverReadied(s, op, e);
      }
    } else if Sleeps(s, op, t) {
      SleepsBlocked(s, op);
    } else if t in BlockedTasks(s) {
      var e := BlockedItem(s, t);
      StepPlaces(s, op, e);
      if e in u.queue || e in u.forever {
        ItemBlocked(u, e);
      }
    }
  }

  lemma GoodParts(s: State)
    requires Good(s)
    ensures Core(s) && CountsOk(s)
  {
  }

  lemma BlockedItem(s: State, t: int) returns (e: Item)
    requires t in BlockedTasks(s)
    ensures (e in s.queue || e in s.forever) && e.owner == t
  {
    if t in On(s.queue) {
      e := OnMember(s.queue, t);
    } else {
      e := OnMember(s.forever, t);
    }
  }

  lemma ItemBlocked(s: State, e: Item)
    requires e in s.queue || e in s.forever
    ensures e.owner in BlockedTasks(s)
  {
    if e in s.queue {
      OwnerOn(s.queue, e);
    } else {
      OwnerOn(s.forever, e);
    }
  }

  /** A task that sleeps on was not due. */
  lemma NotDue(s: State, op: Op, e: Item)
    requires Good(s) && Enabled(s, op) && e.owner in BlockedTasks(s)
    requires InQueue(s, op, e) || InForever(s, op, e)
    ensures !Sleeps(s, op, e.owner) && !Readies(s, op, e.owner) && !Due(s, op, e.owner)
  {
    hide On, OnRings, BlockedTasks, OnePlace, Tally, QueueOk, ReadyOk, BlockedOk, RingsOk;
    GoodParts(s);
    BlockedOnce(s);
    if op.OpBlock? {
      CurrentNotBlocked(s);
    }
    assert forall a, b :: a in s.queue && b in s.queue && a.owner == b.owner ==> a == b;
  }

  /** A task that is put to sleep was neither readied nor due. */
  lemma NeverReadied(s: State, op: Op, e: Item)
    requires e.owner !in BlockedTasks(s) && (InQueue(s, op, e) || InForever(s, op, e))
    ensures Sleeps(s, op, e.owner) && !Readies(s, op, e.owner) && !Due(s, op, e.owner)
  {
    hide BlockedTasks;
    forall x | x in s.queue || x in s.forever
      ensures x.owner in BlockedTasks(s)
    {
      ItemBlocked(s, x);
    }
  }

  lemma SleepsBlocked(s: State, op: Op)
    requires Good(s) && Enabled(s, op) && op.OpBlock?
    ensures s.current in BlockedTasks(Apply(s, op))
  {
    hide Good, On, Apply, Enabled, BlockedTasks;
    var e := if ForEver(op) then Item(0, s.current) else Item(s.now + op.ticks, s.current);
    StepPlaces(s, op, e);
    ItemBlocked(Apply(s, op), e);
  }

  // ---------------------------------------------------------------- events

  /** The event list items and the pending ready list after any step. */
  lemma StepPending(s: State, op: Op, t: int)
    requires Good(s) && Enabled(s, op)
    ensures t in Apply(s, op).pendingReady <==>
      if op == OpEvent(t) then s.suspended > 0 else t in s.pendingReady && !Readies(s, op, t)
  {
    hide On, OnRings, QueueOk, OnePlace, Tally, ReadyOk, RingsOk, BlockedTasks;
    hide Resume, Tick, Switch, AddReady, Unlist;
    GoodParts(s);
    match op
    case OpTick => TickedFields(s);
    case OpResume => ResumePending(s);
    case OpSwitch =>
      TopKnown(s);
      SwitchFields(s);
    case OpEvent(x) => EventPending(s, x);
    case OpRelease(x) => EventPending(s, x);
    case OpBlock(k, i, e) => BlockFields(s, k, i, e);
    case OpSuspend =>
  }

  lemma ResumePending(s: State)
    requires Good(s) && s.suspended > 0
    ensures Resume(s).pendingReady == if s.suspended == 1 then [] else s.pendingReady
  {
    hide On, OnRings, QueueOk, OnePlace, Tally, ReadyOk, RingsOk, BlockedTasks, Drained, Replayed;
    GoodParts(s);
    var u := s.(suspended := s.suspended - 1);
    SameRings(s, u);
    if u.suspended == 0 {
      DrainedCounts(u);
      ReplayedCounts(Drained(u), s.pended);
    }
  }

  lemma EventPending(s: State, t: int)
    requires RingsOk(s)
    ensures Event(s, t).pendingReady == if s.suspended == 0 then s.pendingReady else s.pendingReady + [t]
    ensures Release(s, t).pendingReady == s.pendingReady
  {
  }

  /** Task t has a deadline at or before time n. */
  ghost predicate DueBy(s: State, t: int, n: int) {
    exists e :: e in s.queue && e.owner == t && e.value <= n
  }

  lemma TickedOnEvent(s: State, t: int)
    requires RingsOk(s) && ReadyOk(s.top, s.ready, s.prio) && Sorted(s.queue)
    ensures t in Tick(s).onEvent <==> t in s.onEvent && !DueBy(s, t, s.now + 1)
  {
    hide On, ReadyAll, Pos, RingsOk, ReadyOk, Sorted;
    var k := Pos(s.queue, s.now + 1);
    var v := s.(now := s.now + 1, queue := s.queue[k..]);
    SameRings(s, v);
    ReadyAllOk(v, s.queue[..k]);
    if t in On(s.queue[..k]) {
      var e := OnMember(s.queue[..k], t);
      TickQueue(s, e);
    }
    if e :| e in s.queue && e.owner == t && e.value <= s.now + 1 {
      TickQueue(s, e);
      OwnerOn(s.queue[..k], e);
    }
  }

  lemma {:induction false} ReplayedOnEvent(s: State, n: nat, t: int)
    requires Core(s) && s.pendingReady == []
    ensures t in Replayed(s, n).onEvent <==> t in s.onEvent && !(n > 0 && DueBy(s, t, s.now + n))
  {
    hide Core, Tick, TickSwitches, RingsOk, OnePlace, Tally, BlockedTasks, BlockedOk, Sorted, ReadyOk;
    CoreParts(s);
    if n > 0 {
      var u := Replayed(s, n - 1);
      ReplayedOnEvent(s, n - 1, t);
      ReplayedCore(s, n - 1);
      ReplayedCounts(s, n - 1);
      CoreParts(u);
      TickedOnEvent(u, t);
      if e :| e in s.queue && e.owner == t && e.value <= s.now + n {
        ReplayedIs(s, n - 1, e);
      }
      if e :| e in u.queue && e.owner == t && e.value <= s.now + n {
        ReplayedIs(s, n - 1, e);
      }
    }
  }

  lemma {:induction false} DrainedOnEvent(s: State)
    requires RingsOk(s)
    ensures Drained(s).onEvent == s.onEvent
    decreases |s.pendingReady|
  {
    hide Drained, AddReady, Unlist, RingsOk;
    if s.pendingReady != [] {
      var u := DrainStep(s);
      ReadiedFields(s.(pendingReady := s.pendingReady[1..]), s.pendingReady[0]);
      DrainedOnEvent(u);
    } else {
      DrainEnd(s);
    }
  }

  lemma ResumedOnEvent(s: State, t: int)
    requires Good(s) && s.suspended > 0
    ensures t in Resume(s).onEvent <==> t in s.onEvent && !Due(s, OpResume, t)
  {
    hide OnRings, On, ReadyOk, QueueOk, OnePlace, Tally, BlockedTasks, RingsOk, Drained, Replayed;
    CoreParts(s);
    var u := s.(suspended := s.suspended - 1);
    SameLists(s, u);
    SameRings(s, u);
    if u.suspended == 0 && t in s.onEvent {
      DrainedCore(u);
      DrainedCounts(u);
      DrainedOnEvent(u);
      var v := Drained(u);
      ReplayedOnEvent(v, s.pended, t);
      NotPending(s, t);
      if e :| e in s.queue && e.owner == t && e.value <= s.now + s.pended {
        DrainedIs(u, e);
      }
      if e :| e in v.queue && e.owner == t && e.value <= s.now + s.pended {
        DrainedIs(u, e);
      }
    } else if u.suspended == 0 {
      DrainedCore(u);
      DrainedOnEvent(u);
      ReplayedOnEvent(Drained(u), s.pended, t);
    }
  }

  lemma NotPending(s: State, t: int)
    requires Good(s) && t in s.onEvent
    ensures t !in s.pendingReady
  {
  }

  /**
   Who waits for an event after any step: those that did, until their event, their release or their deadline,
   and the task that blocks for one.
   */
  lemma StepOnEvent(s: State, op: Op, t: int)
    requires Good(s) && Enabled(s, op)
    ensures t in Apply(s, op).onEvent <==>
      || (t in s.onEvent && op != OpEvent(t) && op != OpRelease(t) && !Due(s, op, t))
      || (Sleeps(s, op, t) && op.event)
  {
    hide On, OnRings, QueueOk, OnePlace, Tally, ReadyOk, RingsOk, BlockedOk, BlockedTasks;
    hide Resume, Event, Release, Block, Tick, Switch;
    CoreParts(s);
    match op
    case OpTick => TickedOnEvent(s, t);
    case OpSuspend =>
    case OpResume => ResumedOnEvent(s, t);
    case OpSwitch =>
      TopKnown(s);
      SwitchOnEvent(s);
    case OpEvent(x) => EventOnEvent(s, x);
    case OpRelease(x) => EventOnEvent(s, x);
    case OpBlock(k, i, e) => BlockFields(s, k, i, e);
  }

  lemma SwitchOnEvent(s: State)
    requires RingsOk(s) && s.top < |s.ready|
    ensures Switch(s).onEvent == s.onEvent
  {
  }

  lemma EventOnEvent(s: State, t: int)
    requires RingsOk(s)
    ensures Event(s, t).onEvent == s.onEvent - {t} && Release(s, t).onEvent == s.onEvent - {t}
  {
  }

  /** Task t is ready, or will be when the scheduler resumes. */
  ghost predicate Woken(s: State, t: int) {
    t in OnRings(s.ready) || t in s.pendingReady
  }

  lemma EventWakes(s: State, op: Op, t: int)
    requires Good(s) && Enabled(s, op) && t in s.prio && (op == OpEvent(t) || op == OpRelease(t))
    ensures Woken(Apply(s, op), t)
  {
    hide Good, Enabled, Apply, OnRings;
    StepReadies(s, op, t);
    StepPending(s, op, t);
  }

  lemma StepWoken(s: State, op: Op, t: int)
    requires Good(s) && Enabled(s, op) && t in s.prio && Woken(s, t) && !Sleeps(s, op, t)
    ensures Woken(Apply(s, op), t)
  {
    hide Good, Enabled, Apply, OnRings;
    StepReadies(s, op, t);
    StepPending(s, op, t);
  }

  lemma {:induction false} WokenAlong(states: seq<State>, ops: seq<Op>, i: nat, j: nat, t: int)
    requires Run(states, ops) && i < j <= |ops| && (ops[i] == OpEvent(t) || ops[i] == OpRelease(t))
    requires t in states[i].prio && forall l :: i < l < j ==> !Sleeps(states[l], ops[l], t)
    ensures Woken(states[j], t)
  {
    hide Good, Enabled, Apply, Woken;
    RunGood(states, ops, j - 1);
    if j == i + 1 {
      EventWakes(states[i], ops[i], t);
    } else {
      WokenAlong(states, ops, i, j - 1, t);
      TasksKept(states, ops, i, j - 1);
      StepWoken(states[j - 1], ops[j - 1], t);
    }
  }

  /** A ready task stays ready until it blocks. */
  lemma {:induction false} ReadyAlong(states: seq<State>, ops: seq<Op>, i: nat, j: nat, t: int)
    requires Run(states, ops) && i <= j <= |ops| && t in states[i].prio && t in OnRings(states[i].ready)
    requires forall l :: i <= l < j ==> !Sleeps(states[l], ops[l], t)
    ensures t in OnRings(states[j].ready)
  {
    hide Good, Enabled, Apply, OnRings;
    if i < j {
      ReadyAlong(states, ops, i, j - 1, t);
      TasksKept(states, ops, i, j - 1);
      RunGood(states, ops, j - 1);
      StepReadies(states[j - 1], ops[j - 1], t);
    }
  }

  lemma OnEventKnown(s: State, op: Op, t: int)
    requires Good(s) && Enabled(s, op) && (op == OpEvent(t) || op == OpRelease(t))
    ensures t in s.prio && t in s.onEvent
  {
    hide On, OnRings, QueueOk, ReadyOk, RingsOk;
    assert t in Tally(s);
  }

  /** With the scheduler running nothing is pending. */
  lemma NothingPending(s: State)
    requires Good(s) && s.suspended == 0
    ensures s.pendingReady == []
  {
  }

  /**
   No event is thrown away. A task that an event or a release takes off its event list is ready in every
   later state in which the scheduler runs, until it blocks again. While the scheduler is suspended, a
   released task is ready, too, and one that an event woke is ready or pending.
   */
  lemma EventReadies(states: seq<State>, ops: seq<Op>, i: nat, j: nat, t: int)
    requires Run(states, ops) && i < j <= |ops| && (ops[i] == OpEvent(t) || ops[i] == OpRelease(t))
    requires forall l :: i < l < j ==> !Sleeps(states[l], ops[l], t)
    ensures t in OnRings(states[j].ready)
      || (ops[i] == OpEvent(t) && states[j].suspended > 0 && t in states[j].pendingReady)
  {
    hide Good, Enabled, Apply, OnRings;
    RunGood(states, ops, i);
    RunGood(states, ops, j);
    OnEventKnown(states[i], ops[i], t);
    if ops[i] == OpRelease(t) {
      StepReadies(states[i], ops[i], t);
      ReadyAlong(states, ops, i + 1, j, t);
    } else {
      WokenAlong(states, ops, i, j, t);
      if states[j].suspended == 0 {
        NothingPending(states[j]);
      }
    }
  }

  /** The outermost resume readies everything pending, and moves nobody else whose time is not reached. */
  lemma ResumeReadiesPending(s: State, t: int)
    requires Good(s) && s.suspended == 1 && t in s.prio
    ensures t in s.pendingReady ==> t in OnRings(Resume(s).ready) && t !in BlockedTasks(Resume(s))
    ensures t !in s.pendingReady ==> forall d :: d > s.now + s.pended ==>
                                         (Item(d, t) in Resume(s).queue <==> Item(d, t) in s.queue)
    ensures t !in s.pendingReady ==> forall d :: Item(d, t) in Resume(s).forever <==> Item(d, t) in s.forever
  {
    hide Good, OnRings, BlockedTasks, Apply, Resume;
    StepGood(s, OpResume);
    StepReadies(s, OpResume, t);
    ReadyUnlessBlocked(Apply(s, OpResume), t);
    ResumeApplied(s);
    forall d: int
      ensures Item(d, t) in Resume(s).queue <==> InQueue(s, OpResume, Item(d, t))
      ensures Item(d, t) in Resume(s).forever <==> InForever(s, OpResume, Item(d, t))
    {
      StepPlaces(s, OpResume, Item(d, t));
    }
    PendedKnown(s);
  }

  lemma ResumeApplied(s: State)
    requires Good(s) && s.suspended > 0
    ensures RingsOk(s) && Apply(s, OpResume) == Resume(s)
  {
  }

  lemma PendedKnown(s: State)
    requires Good(s)
    ensures s.pended >= 0
  {
  }

  // ---------------------------------------------------------------- waiting without a deadline

  /** Task t waits for ever. */
  ghost predicate WaitsForEver(s: State, t: int) {
    Item(0, t) in s.forever && t !in s.pendingReady
  }

  lemma BlockForEver(s: State, op: Op)
    requires Good(s) && Enabled(s, op) && ForEver(op)
    ensures WaitsForEver(Apply(s, op), s.current)
  {
    hide On, OnRings, QueueOk, ReadyOk, RingsOk, Block, BlockedTasks, OnePlace;
    StepPlaces(s, op, Item(0, s.current));
    CurrentNotBlocked(s);
    BlockFields(s, op.ticks, op.indefinitely, op.event);
  }

  lemma StepForEver(s: State, op: Op, t: int)
    requires Good(s) && Enabled(s, op) && WaitsForEver(s, t) && LeavesAlone(s, op, t)
    ensures WaitsForEver(Apply(s, op), t)
  {
    hide Good, Apply, Enabled;
    StepPlaces(s, op, Item(0, t));
    StepPending(s, op, t);
  }

  lemma {:induction false} ForEverAlong(states: seq<State>, ops: seq<Op>, i: nat, j: nat)
    requires Run(states, ops) && i < j <= |ops| && ForEver(ops[i])
    requires forall l :: i < l < j ==> LeavesAlone(states[l], ops[l], states[i].current)
    ensures WaitsForEver(states[j], states[i].current)
  {
    hide Good, Enabled, Apply, WaitsForEver, LeavesAlone;
    RunGood(states, ops, j - 1);
    if j == i + 1 {
      BlockForEver(states[i], ops[i]);
    } else {
      ForEverAlong(states, ops, i, j - 1);
      StepForEver(states[j - 1], ops[j - 1], states[i].current);
    }
  }

  /**
   A task that blocks without a deadline is blocked, on no list that a tick looks at, in every later state
   until its event or its release, however much time has passed.
   */
  lemma NoTickFinds(states: seq<State>, ops: seq<Op>, i: nat, j: nat)
    requires Run(states, ops) && i < j <= |ops| && ForEver(ops[i])
    requires forall l :: i < l < j ==> LeavesAlone(states[l], ops[l], states[i].current)
    ensures var t, z := states[i].current, states[j];
            t in BlockedTasks(z) && t !in OnRings(z.ready) && t !in On(z.queue)
  {
    hide Good, Enabled, Apply, LeavesAlone, On, OnRings, BlockedTasks;
    var t, z := states[i].current, states[j];
    ForEverAlong(states, ops, i, j);
    RunGood(states, ops, j);
    ForEverPlace(z, t);
  }

  lemma ForEverPlace(s: State, t: int)
    requires Good(s) && WaitsForEver(s, t)
    ensures t in BlockedTasks(s) && t !in OnRings(s.ready) && t !in On(s.queue)
  {
    hide On, OnRings, QueueOk, ReadyOk, RingsOk;
    OwnerOn(s.forever, Item(0, t));
    assert Tally(s)[t] <= 1;
  }
}
