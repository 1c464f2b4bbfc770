/** When the scheduler is asked to switch tasks: never too late for a more urgent one, and not without a reason. */
module KernelSwitches {
  import opened Ticks
  import opened ListSpec
  import opened KernelSpec
  import opened KernelRuns
  import opened KernelPlaces

  ghost predicate NoneMoreUrgent(s: State) {
    forall t :: t in OnRings(s.ready) ==> Prio(s, t) <= Prio(s, s.current)
  }

  /** No ready task is more urgent than the running one, unless a switch is pending. */
  ghost predicate Ordered(s: State) { s.yieldPending || NoneMoreUrgent(s) }

  /** The tick interrupt is told to switch. */
  predicate TickAsks(s: State, op: Op)
    requires RingsOk(s)
  {
    op == OpTick && s.suspended == 0 && TickSwitches(s)
  }

  /** Another ready task is at least as urgent as the running one. */
  ghost predicate Contested(s: State) {
    exists t :: t in OnRings(s.ready) && t != s.current && Prio(s, t) >= Prio(s, s.current)
  }

  // ---------------------------------------------------------------- ticks

  /** Who is ready after a processed tick. */
  lemma TickReady(s: State, t: int)
    requires RingsOk(s)
    ensures t in OnRings(Tick(s).ready) <==>
      t in OnRings(s.ready) || exists i :: 0 <= i < Pos(s.queue, s.now + 1) && s.queue[i].owner == t
  {
    hide On, OnRings, Tick, Pos;
    var k := Pos(s.queue, s.now + 1);
    TickBlocked(s);
    FindOn(s.queue[..k], t);
    var i := Find(s.queue[..k], t);
    if i >= 0 {
      assert s.queue[i] == s.queue[..k][i];
    }
    if j :| 0 <= j < k && s.queue[j].owner == t {
      assert s.queue[..k][j] == s.queue[j];
    }
  }

  lemma TickOrdered(s: State)
    requires RingsOk(s) && Ordered(s) && !TickSwitches(s)
    ensures NoneMoreUrgent(Tick(s))
  {
    hide On, OnRings, Tick, Pos, RingsOk;
    TickedFields(s);
    forall t | t in OnRings(Tick(s).ready)
      ensures Prio(s, t) <= Prio(s, s.current)
    {
      TickReady(s, t);
    }
  }

  /** Two ready tasks of one priority share a list. */
  lemma SharedRing(s: State, t: int, u: int)
    requires RingsOk(s) && ReadyOk(s.top, s.ready, s.prio) && t in OnRings(s.ready) && u in OnRings(s.ready)
    requires Prio(s, t) == Prio(s, u) && t != u
    ensures |s.ready[Prio(s, t)].items| > 1
  {
    hide OnRings;
    ReadyUnderOwn(s, t);
    ReadyUnderOwn(s, u);
  }

  /** No ready list names a task twice. */
  lemma RingDistinct(s: State, p: nat)
    requires RingsOk(s) && OnePlace(Tally(s), s.prio.Keys) && p < |s.ready|
    ensures Distinct(s.ready[p].items)
  {
    hide On, OnRings;
    var rest := s.ready[p := EMPTY];
    OnRingsUpdate(s.ready, p, EMPTY);
    OnEmpty();
    forall t
      ensures On(s.ready[p].items)[t] <= 1
    {
      assert (OnRings(rest) + On(s.ready[p].items))[t] == (OnRings(s.ready) + On(EMPTY.items))[t];
      assert Tally(s)[t] <= 1;
    }
    OnceDistinct(s.ready[p].items);
  }

  /** A list with two items on it names a second task. */
  lemma SecondTask(s: State, t: int) returns (u: int)
    requires RingsOk(s) && ReadyOk(s.top, s.ready, s.prio) && OnePlace(Tally(s), s.prio.Keys)
    requires |s.ready[Prio(s, t)].items| > 1
    ensures u in OnRings(s.ready) && u != t && Prio(s, u) == Prio(s, t)
  {
    hide On, OnRings, OnePlace, Tally;
    var p := Prio(s, t);
    var xs := s.ready[p].items;
    RingDistinct(s, p);
    var j := if xs[0].owner == t then 1 else 0;
    u := xs[j].owner;
    OnRingsHas(s.ready, p, j);
  }

  lemma PrioFits(s: State, t: int)
    requires RingsOk(s)
    ensures Prio(s, t) < |s.ready|
  {
  }

  /**
   A tick asks for a switch exactly when one is pending already or another ready task is at least as urgent
   as the running one: woken by this tick, or its equal, whose turn it is.
   */
  lemma TickSwitchesExactly(s: State)
    requires Core(s) && s.pendingReady == [] && Ordered(s) && s.current in OnRings(s.ready)
    ensures TickSwitches(s) <==> s.yieldPending || Contested(Tick(s))
  {
    hide On, OnRings, Tick, Pos, RingsOk, ReadyOk, QueueOk, OnePlace, Tally, BlockedTasks, BlockedOk;
    TickedFields(s);
    TickCore(s);
    PrioFits(Tick(s), s.current);
    var u, k := Tick(s), Pos(s.queue, s.now + 1);
    TickReady(s, s.current);
    if i :| 0 <= i < k && Prio(s, s.queue[i].owner) >= Prio(s, s.current) {
      TickReady(s, s.queue[i].owner);
      ReadyNotQueued(s, i);
    } else if |u.ready[Prio(s, s.current)].items| > 1 {
      var t := SecondTask(u, s.current);
    } else if !s.yieldPending {
      forall t | t in OnRings(u.ready) && t != s.current && Prio(s, t) >= Prio(s, s.current)
        ensures false
      {
        TickReady(s, t);
        SharedRing(u, t, s.current);
      }
    }
  }

  lemma ReadyNotQueued(s: State, i: nat)
    requires OnePlace(Tally(s), s.prio.Keys) && i < |s.queue| && s.current in OnRings(s.ready)
    ensures s.queue[i].owner != s.current
  {
    hide On, OnRings;
    OwnerOn(s.queue, s.queue[i]);
    assert Tally(s)[s.current] <= 1;
  }

  /** Ticks replayed at a resume leave a switch pending when any of them asked for one. */
  lemma {:induction false} ReplayedOrdered(s: State, n: nat)
    requires RingsOk(s) && Ordered(s)
    ensures Ordered(Replayed(s, n))
  {
    hide On, OnRings, Tick, TickSwitches, RingsOk;
    if n > 0 {
      ReplayedOrdered(s, n - 1);
      var u := Replayed(s, n - 1);
      TickedFields(u);
      if !TickSwitches(u) {
        TickOrdered(u);
      }
    }
  }

  lemma {:induction false} ReplayedExactly(s: State, n: nat)
    requires Core(s) && s.pendingReady == [] && Ordered(s) && s.current in OnRings(s.ready)
    ensures s.current in OnRings(Replayed(s, n).ready)
    ensures n > 0 ==> (Replayed(s, n).yieldPending <==> s.yieldPending || Contested(Replayed(s, n)))
  {
    hide On, OnRings, Tick, TickSwitches, RingsOk, ReadyOk, QueueOk, OnePlace, Tally, BlockedTasks, BlockedOk;
    if n > 0 {
      ReplayedExactly(s, n - 1);
      ReplayedOrdered(s, n - 1);
      ReplayedCore(s, n - 1);
      ReplayedCounts(s, n - 1);
      var u := Replayed(s, n - 1);
      TickSwitchesExactly(u);
      TickedFields(u);
      forall t | t in OnRings(u.ready)
        ensures t in OnRings(Tick(u).ready)
      {
        TickReady(u, t);
      }
    }
  }

  // ---------------------------------------------------------------- the pending ready list

  /** Readying one blocked task. */
  lemma ReadiedRings(s: State, t: int)
    requires RingsOk(s) && RingsOk(Unlist(s, t))
    ensures OnRings(AddReady(Unlist(s, t), t).ready) == OnRings(s.ready) + multiset{t}
    ensures var u := AddReady(Unlist(s, t), t); u.yieldPending == s.yieldPending && u.current == s.current
  {
    hide OnRings;
    AddReadyTally(Unlist(s, t), t);
  }

  lemma {:induction false} DrainedOrdered(s: State)
    requires RingsOk(s) && Ordered(s)
    ensures Ordered(Drained(s))
    decreases |s.pendingReady|
  {
    hide Drained, AddReady, Unlist, RingsOk, OnRings;
    if s.pendingReady != [] {
      var u := DrainStep(s);
      ReadiedRings(s.(pendingReady := s.pendingReady[1..]), s.pendingReady[0]);
      DrainStepTasks(s, u);
      DrainedOrdered(u);
    } else {
      DrainEnd(s);
    }
  }

  lemma DrainStepTasks(s: State, u: State)
    requires RingsOk(s) && s.pendingReady != []
    requires var t, v := s.pendingReady[0], s.(pendingReady := s.pendingReady[1..]);
             RingsOk(v) && RingsOk(Unlist(v, t)) && u == AddReady(Unlist(v, t), t).(yieldPending := u.yieldPending)
    ensures u.current == s.current && u.prio == s.prio && u.suspended == s.suspended
  {
  }

  /** Draining leaves a switch pending exactly if one was, or a readied task is as urgent as the running one. */
  lemma {:induction false} DrainedExactly(s: State)
    requires RingsOk(s)
    ensures Drained(s).yieldPending <==>
      s.yieldPending || exists t :: t in s.pendingReady && Prio(s, t) >= Prio(s, s.current)
    decreases |s.pendingReady|
  {
    hide Drained, AddReady, Unlist, RingsOk, OnRings;
    if s.pendingReady != [] {
      var t := s.pendingReady[0];
      var u := DrainStep(s);
      DrainStepTasks(s, u);
      DrainedExactly(u);
      assert forall x :: x in s.pendingReady <==> x == t || x in s.pendingReady[1..];
    } else {
      DrainEnd(s);
    }
  }

  lemma {:induction false} DrainedReady(s: State, t: int)
    requires RingsOk(s) && t in OnRings(s.ready)
    ensures t in OnRings(Drained(s).ready)
    decreases |s.pendingReady|
  {
    hide Drained, AddReady, Unlist, RingsOk, OnRings;
    if s.pendingReady != [] {
      var u := DrainStep(s);
      ReadiedRings(s.(pendingReady := s.pendingReady[1..]), s.pendingReady[0]);
      DrainedReady(u, t);
    } else {
      DrainEnd(s);
    }
  }

  /**
   The outermost resume leaves a switch pending exactly when one was pending, a task readied from the pending
   ready list is at least as urgent as the running one, or ticks are replayed and another ready task is.
   */
  lemma ResumeSwitchesExactly(s: State)
    requires Good(s) && s.suspended == 1 && Ordered(s) && s.current in OnRings(s.ready)
    ensures Resume(s).yieldPending <==>
      || s.yieldPending
      || (exists t :: t in s.pendingReady && Prio(s, t) >= Prio(s, s.current))
      || (s.pended > 0 && Contested(Resume(s)))
  {
    hide On, OnRings, RingsOk, ReadyOk, QueueOk, OnePlace, Tally, BlockedTasks, BlockedOk, Drained, Replayed;
    var u := s.(suspended := 0);
    SameLists(s, u);
    SameRings(s, u);
    DrainedCore(u);
    DrainedCounts(u);
    DrainedExactly(u);
    DrainedOrdered(u);
    DrainedReady(u, s.current);
    var v := Drained(u);
    ReplayedExactly(v, s.pended);
    ReplayedCounts(v, s.pended);
    if s.pended > 0 && v.yieldPending && !s.yieldPending {
      assert Resume(s).yieldPending;
    }
    ReplayedNone(v);
  }

  lemma ReplayedNone(s: State)
    requires RingsOk(s)
    ensures Replayed(s, 0) == s
  {
  }

  // ---------------------------------------------------------------- every step

  lemma ResumeOrdered(s: State)
    requires Good(s) && s.suspended > 0 && Ordered(s)
    ensures Ordered(Resume(s))
  {
    hide On, OnRings, RingsOk, ReadyOk, QueueOk, OnePlace, Tally, BlockedTasks, BlockedOk, Drained, Replayed;
    var u := s.(suspended := s.suspended - 1);
    SameRings(s, u);
    if u.suspended == 0 {
      DrainedOrdered(u);
      ReplayedOrdered(Drained(u), s.pended);
    }
  }

  lemma EventOrdered(s: State, t: int)
    requires RingsOk(s) && Ordered(s)
    ensures Ordered(Event(s, t)) && Ordered(Release(s, t))
  {
    hide OnRings, Unlist, AddReady;
    var u := s.(onEvent := s.onEvent - {t}, yieldPending := s.yieldPending || Prio(s, t) > Prio(s, s.current));
    SameRings(s, u);
    UnlistSame(u, t);
    ReadiedRings(u, t);
    AddReadyRest(Unlist(u, t), t);
  }

  lemma UnlistSame(s: State, t: int)
    requires RingsOk(s)
    ensures RingsOk(Unlist(s, t)) && Unlist(s, t).current == s.current
  {
  }

  lemma BlockOrdered(s: State, op: Op)
    requires Good(s) && Enabled(s, op) && op.OpBlock? && Ordered(s)
    ensures Ordered(Block(s, op.ticks, op.indefinitely, op.event))
  {
    hide On, OnRings, WithoutRing, ReadyOk, QueueOk, OnePlace, Tally, BlockedTasks, BlockedOk, Block, RingsOk;
    WithoutRingTally(s, s.current);
    BlockFields(s, op.ticks, op.indefinitely, op.event);
    BlockCurrent(s, op);
    assert forall t :: t in OnRings(Block(s, op.ticks, op.indefinitely, op.event).ready) ==> t in OnRings(s.ready);
  }

  lemma BlockCurrent(s: State, op: Op)
    requires RingsOk(s) && op.OpBlock?
    ensures var u := Block(s, op.ticks, op.indefinitely, op.event);
      u.current == s.current && u.yieldPending == s.yieldPending
  {
  }

  /** A switch puts things in order whatever was before. */
  lemma SwitchOrdered(s: State)
    requires Core(s) && Enabled(s, OpSwitch)
    ensures Ordered(Switch(s))
  {
    hide On, OnRings, ReadyOk, QueueOk, OnePlace, BlockedOk, RingsOk, Enabled;
    TopKnown(s);
    if s.suspended == 0 {
      SwitchPicksHighest(s);
      SwitchTasks(s);
    }
  }

  lemma SwitchTasks(s: State)
    requires Core(s) && s.suspended == 0
    ensures s.top < |s.ready| && OnRings(Switch(s).ready) == OnRings(s.ready)
  {
    hide On, OnRings, QueueOk, BlockedOk, OnePlace, Advance;
    TopKnown(s);
    var p := TopFrom(s.ready, s.top);
    if p >= 0 {
      AdvanceKeeps(s, p);
      OnRingsUpdate(s.ready, p, Advance(s.ready[p]));
      SameSum(OnRings(Switch(s).ready), OnRings(s.ready), On(s.ready[p].items));
    }
  }

  /** Every step keeps the order, but for a tick that says so to its caller. */
  lemma StepOrdered(s: State, op: Op)
    requires Good(s) && Enabled(s, op) && Ordered(s) && !TickAsks(s, op)
    ensures Ordered(Apply(s, op))
  {
    hide On, OnRings, ReadyOk, QueueOk, OnePlace, Tally, BlockedTasks, BlockedOk, RingsOk;
    hide Event, Release, Block, Switch, Resume, Tick, TickSwitches;
    match op
    case OpTick =>
      if s.suspended == 0 {
        TickOrdered(s);
      }
    case OpSuspend =>
    case OpResume => ResumeOrdered(s);
    case OpSwitch => SwitchOrdered(s);
    case OpEvent(t) => EventOrdered(s, t);
    case OpRelease(t) => EventOrdered(s, t);
    case OpBlock(_, _, _) => BlockOrdered(s, op);
  }

  /**
   Preemption. In every run in which a tick that asks for a switch gets one next, a ready task more urgent
   than the running one always finds a switch pending, scheduler suspended or not.
   */
  lemma {:induction false} NoUrgentTaskOverlooked(states: seq<State>, ops: seq<Op>, j: nat)
    requires Run(states, ops) && j <= |ops| && Ordered(states[0])
    requires forall k :: 0 <= k < j && Good(states[k]) && TickAsks(states[k], ops[k]) ==>
      k + 1 < j && ops[k + 1] == OpSwitch
    ensures Ordered(states[j])
  {
    hide Good, Enabled, Apply, Ordered, TickAsks;
    if j > 0 {
      RunGood(states, ops, j - 1);
      if ops[j - 1] == OpSwitch {
        SwitchApplied(states[j - 1]);
        SwitchOrdered(states[j - 1]);
      } else {
        NoUrgentTaskOverlooked(states, ops, j - 1);
        StepOrdered(states[j - 1], ops[j - 1]);
      }
    }
  }

  lemma SwitchApplied(s: State)
    requires Good(s) && Enabled(s, OpSwitch)
    ensures Core(s) && s.top < |s.ready| && Apply(s, OpSwitch) == Switch(s)
  {
    hide On, OnRings;
    TopKnown(s);
  }

  /** When the scheduler starts, the running task is a most urgent one. */
  lemma FreshOrdered(prio: map<int, nat>, limit: nat, tasks: seq<int>)
    requires limit > 0 && forall t :: t in prio ==> prio[t] < limit
    requires tasks != [] && (forall i, j :: 0 <= i < j < |tasks| ==> tasks[i] != tasks[j])
    requires forall t :: t in tasks <==> t in prio
    ensures Ordered(Created(prio, limit, tasks))
  {
    hide OnRings, Created, ReadyOk, RingsOk;
    FreshGood(prio, limit, tasks);
    CreatedLists(prio, limit, tasks);
  }

  // ---------------------------------------------------------------- turns

  /** A task that is readied takes its turn after every other one of its priority but the one just picked. */
  lemma ReadiedTakesLastTurn(s: State, t: int)
    requires RingsOk(s)
    ensures var u, p := AddReady(s, t), Prio(s, t);
            var before := s.ready[p].Upcoming();
            && RingsOk(u) && (forall q :: 0 <= q < |s.ready| && q != p ==> u.ready[q] == s.ready[q])
            && u.ready[p].Upcoming() ==
                 if s.ready[p].index == 0 then before + [Item(0, t)]
                 else before[..|before| - 1] + [Item(0, t)] + [before[|before| - 1]]
  {
    NewcomerIsLast(s.ready[Prio(s, t)], Item(0, t));
  }

  /** A switch ends the turn of the task it picks, and nobody else's. */
  lemma SwitchTurns(s: State)
    requires Core(s) && s.suspended == 0 && Enabled(s, OpSwitch)
    ensures var u := Switch(s);
            && u.top < |s.ready| && s.ready[u.top].items != [] && !u.yieldPending
            && (var before := s.ready[u.top].Upcoming();
                u.ready == s.ready[u.top := u.ready[u.top]] && u.ready[u.top].Ok()
                && u.ready[u.top].Upcoming() == before[1..] + [before[0]])
  {
    hide On, OnRings;
    SwitchPicksHighest(s);
    AdvanceRotates(s.ready[Switch(s).top]);
  }

  /** The tasks of one priority among some, in their order, as list items. */
  function Those(prio: map<int, nat>, ts: seq<int>, p: int): seq<Item> {
    if ts == [] then []
    else Those(prio, ts[..|ts| - 1], p) + if PrioOf(prio, ts[|ts| - 1]) == p then [Item(0, ts[|ts| - 1])] else []
  }

  /** A rotation with xs put in behind everybody, or behind everybody but the item just picked. */
  function PutIn(turns: seq<Item>, atEnd: bool, xs: seq<Item>): seq<Item> {
    if atEnd || turns == [] then turns + xs else turns[..|turns| - 1] + xs + [turns[|turns| - 1]]
  }

  lemma PutInTwice(turns: seq<Item>, atEnd: bool, xs: seq<Item>, ys: seq<Item>)
    ensures atEnd || turns != [] ==> PutIn(PutIn(turns, atEnd, xs), atEnd, ys) == PutIn(turns, atEnd, xs + ys)
  {
    if !atEnd && turns != [] {
      var h, l := turns[..|turns| - 1], turns[|turns| - 1];
      LastOut(h + xs, l);
      Regroup(h, xs, ys, [l]);
    } else {
      Regroup(turns, xs, ys, []);
    }
  }

  lemma LastOut(h: seq<Item>, l: Item)
    ensures (h + [l])[..|h + [l]| - 1] == h && (h + [l])[|h + [l]| - 1] == l
  {
  }

  lemma Regroup(a: seq<Item>, b: seq<Item>, c: seq<Item>, d: seq<Item>)
    ensures (a + b) + c + d == a + (b + c) + d && a + b + c == a + (b + c)
  {
  }

  /** xs take their turns, in their order, after every item of the ring but the one just picked. */
  ghost predicate Queued(before: Ring, after: Ring, xs: seq<Item>)
    requires before.Ok()
  {
    && after.Ok() && (after.index == 0 <==> before.index == 0)
    && after.Upcoming() == PutIn(before.Upcoming(), before.index == 0, xs)
  }

  lemma QueuedNone(r: Ring)
    requires r.Ok()
    ensures Queued(r, r, [])
  {
  }

  lemma QueuedOne(r: Ring, x: Item)
    requires r.Ok()
    ensures Queued(r, InsertEnd(r, x), [x])
  {
    NewcomerIsLast(r, x);
  }

  lemma QueuedMore(a: Ring, b: Ring, c: Ring, xs: seq<Item>, ys: seq<Item>)
    requires a.Ok() && Queued(a, b, xs) && Queued(b, c, ys)
    ensures Queued(a, c, xs + ys)
  {
    hide PutIn;
    PutInTwice(a.Upcoming(), a.index == 0, xs, ys);
  }

  lemma ReadiedQueued(s: State, t: int, p: nat)
    requires RingsOk(s) && p < |s.ready|
    ensures s.ready[p].Ok() && Queued(s.ready[p], AddReady(s, t).ready[p], Those(s.prio, [t], p))
  {
    hide InsertEnd, Queued, Those;
    RingAt(s, p);
    ThoseOne(s.prio, t, p);
    QueuedNone(s.ready[p]);
    QueuedOne(s.ready[p], Item(0, t));
  }

  lemma ThoseOne(prio: map<int, nat>, t: int, p: int)
    ensures Those(prio, [t], p) == if PrioOf(prio, t) == p then [Item(0, t)] else []
  {
    assert [t][..0] == [];
  }

  lemma {:induction false} ThoseConcat(prio: map<int, nat>, a: seq<int>, b: seq<int>, p: int)
    ensures Those(prio, a + b, p) == Those(prio, a, p) + Those(prio, b, p)
    decreases |b|
  {
    if b == [] {
      assert a + b == a;
    } else {
      assert (a + b)[..|a + b| - 1] == a + b[..|b| - 1];
      ThoseConcat(prio, a, b[..|b| - 1], p);
    }
  }

  lemma {:induction false} AllQueued(s: State, xs: seq<Item>, p: nat)
    requires RingsOk(s) && p < |s.ready|
    ensures s.ready[p].Ok() && Queued(s.ready[p], ReadyAll(s, xs).ready[p], Those(s.prio, Owners(xs), p))
    decreases |xs|
  {
    hide AddReady, RingsOk, Queued, Those;
    RingAt(s, p);
    if xs == [] {
      QueuedNone(s.ready[p]);
      ThoseNone(s.prio, p);
      assert Owners(xs) == [];
    } else {
      var n := |xs| - 1;
      var t := xs[n].owner;
      AllQueued(s, xs[..n], p);
      var q := ReadyAll(s, xs[..n]);
      var v := q.(onEvent := q.onEvent - {t});
      SameRings(q, v);
      ReadiedQueued(v, t, p);
      QueuedMore(s.ready[p], q.ready[p], AddReady(v, t).ready[p], Those(s.prio, Owners(xs[..n]), p),
        Those(s.prio, [t], p));
      ThoseConcat(s.prio, Owners(xs[..n]), [t], p);
      assert Owners(xs) == Owners(xs[..n]) + [t];
    }
  }

  lemma ThoseNone(prio: map<int, nat>, p: int)
    ensures Those(prio, [], p) == []
  {
  }

  lemma RingAt(s: State, p: nat)
    requires RingsOk(s) && p < |s.ready|
    ensures s.ready[p].Ok()
  {
  }

  /** Tasks readied by one tick take their turns in the order of their wake times, behind everybody else. */
  lemma DueTakeTurnsInOrder(s: State, p: nat)
    requires RingsOk(s) && p < |s.ready|
    ensures s.ready[p].Ok()
    ensures |Tick(s).ready| == |s.ready|
    ensures Queued(s.ready[p], Tick(s).ready[p], Those(s.prio, Owners(s.queue[..Pos(s.queue, s.now + 1)]), p))
  {
    hide ReadyAll, RingsOk, Queued, Those, Pos;
    TickedFields(s);
    var k := Pos(s.queue, s.now + 1);
    var v := s.(now := s.now + 1, queue := s.queue[k..]);
    AllQueued(v, s.queue[..k], p);
  }

  /** Tasks readied at a resume take their turns in the order of their events. */
  lemma {:induction false} PendingTakeTurnsInOrder(s: State, p: nat)
    requires RingsOk(s) && p < |s.ready|
    ensures s.ready[p].Ok() && |Drained(s).ready| == |s.ready|
    ensures Queued(s.ready[p], Drained(s).ready[p], Those(s.prio, s.pendingReady, p))
    decreases |s.pendingReady|
  {
    hide Drained, AddReady, Unlist, RingsOk, Queued, Those;
    RingAt(s, p);
    if s.pendingReady != [] {
      var t, v := s.pendingReady[0], s.(pendingReady := s.pendingReady[1..]);
      var u := DrainStep(s);
      UnlistReady(v, t);
      ReadiedQueued(Unlist(v, t), t, p);
      PendingTakeTurnsInOrder(u, p);
      QueuedMore(s.ready[p], u.ready[p], Drained(u).ready[p], Those(s.prio, [t], p), Those(s.prio, u.pendingReady, p));
      ThoseConcat(s.prio, [t], u.pendingReady, p);
      assert s.pendingReady == [t] + u.pendingReady;
    } else {
      DrainEnd(s);
      QueuedNone(s.ready[p]);
      ThoseNone(s.prio, p);
    }
  }

  lemma UnlistReady(s: State, t: int)
    ensures Unlist(s, t).ready == s.ready && Unlist(s, t).prio == s.prio
  {
  }
}
