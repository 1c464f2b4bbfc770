/**
 The tick and delay code of the scheduler: a 32-bit tick count, a delayed list and an overflow
 list of wrapped wake times that change places when the count wraps, and the cached time of the
 next wake-up. Every method is proved to do what module KernelSpec says in unbounded time.
 */
module Kernel {
  import opened Ticks
  import opened ListSpec
  import opened TwoLists
  import opened KernelSpec
  import opened EventLists
  import KernelRuns
  import Deadlines

  lemma {:induction false} ReadyAllQueue(s: State, xs: seq<Item>, q: seq<Item>)
    requires RingsOk(s)
    ensures ReadyAll(s.(queue := q), xs) == ReadyAll(s, xs).(queue := q)
    decreases |xs|
  {
    if xs != [] {
      ReadyAllQueue(s, xs[..|xs| - 1], q);
    }
  }

  /** The first k tasks of a queue have been woken. */
  ghost function Woken(s: State, q: seq<Item>, k: nat): (r: State)
    requires RingsOk(s) && k <= |q|
    ensures RingsOk(r) && |r.ready| == |s.ready|
  {
    ReadyAll(s, q[..k])
  }

  lemma NoneReadied(s: State, q: seq<Item>)
    requires RingsOk(s)
    ensures Woken(s, q, 0) == s
  {
  }

  lemma OneMoreReadied(s: State, q: seq<Item>, k: int)
    requires RingsOk(s) && 0 <= k < |q|
    ensures var r, t := Woken(s, q, k), q[k].owner;
            RingsOk(r.(onEvent := r.onEvent - {t})) && Woken(s, q, k + 1) == AddReady(r.(onEvent := r.onEvent - {t}), t)
  {
    assert q[..k + 1][..k] == q[..k];
  }

  /** Among the first k tasks of a queue is one that is at least as urgent as the running one. */
  ghost predicate Outranked(q: seq<Item>, k: int, prio: map<int, nat>, current: int)
    requires k <= |q|
  {
    exists i :: 0 <= i < k && PrioOf(prio, q[i].owner) >= PrioOf(prio, current)
  }

  /** Everything due of the queue has been woken, and one of those tasks is at least as urgent as the running one. */
  ghost function DueWoken(s: State): State
    requires RingsOk(s)
  {
    var k := Pos(s.queue, s.now);
    Woken(s, s.queue, k).(queue := s.queue[k..])
  }

  ghost predicate DueOutranks(s: State) {
    Outranked(s.queue, Pos(s.queue, s.now), s.prio, s.current)
  }

  lemma OutrankedStep(q: seq<Item>, k: nat, prio: map<int, nat>, current: int)
    requires k <= |q|
    ensures !Outranked(q, 0, prio, current)
    ensures k < |q| ==>
      (Outranked(q, k + 1, prio, current) <==>
        Outranked(q, k, prio, current) || PrioOf(prio, q[k].owner) >= PrioOf(prio, current))
  {
  }

  /** Readying does not look at the queue. */
  lemma AddReadyQueue(r: State, v: State, t: int)
    requires RingsOk(r) && v == r.(queue := v.queue)
    ensures AddReady(v.(onEvent := v.onEvent - {t}), t) ==
      AddReady(r.(onEvent := r.onEvent - {t}), t).(queue := v.queue)
  {
  }

  /** The wake-up loop stops exactly behind the last task that is due. */
  lemma AllReadied(now: int, delayed: seq<Item>, overflow: seq<Item>, k: int)
    requires Sorted(Joined(now, delayed, overflow)) && Wrapped(overflow)
    requires 0 <= k <= |delayed| && k <= Pos(Joined(now, delayed, overflow), now)
    requires k < |delayed| ==> Wrap(now) < delayed[k].value
    ensures k == Pos(Joined(now, delayed, overflow), now)
  {
    var q := Joined(now, delayed, overflow);
    if k < |q| {
      JoinedAt(now, delayed, overflow, k);
      Parts(now);
    }
    PosUnique(q, now, k);
  }

  // ---------------------------------------------------------------- a wait of 0 ticks

  /** The delayed list after prvAddCurrentTaskToDelayedList for task t, with a wait of ticks from time now on. */
  function DelayedAfter(now: int, delayed: seq<Item>, ticks: int, t: int): seq<Item> {
    var timeToWake := Wrap(Wrap(now) + ticks);
    if timeToWake < Wrap(now) then delayed else InsertSorted(delayed, Item(timeToWake, t))
  }

  /** What the next n ticks, none of them a wrap, leave on a delayed list (see ProcessTick). */
  function AfterTicks(now: int, delayed: seq<Item>, n: nat): seq<Item> {
    if n == 0 then delayed
    else var d := AfterTicks(now, delayed, n - 1); d[Pos(d, Wrap(now) + n)..]
  }

  lemma {:induction false} AfterTicksWrapped(now: int, delayed: seq<Item>, n: nat)
    requires Wrapped(delayed)
    ensures Wrapped(AfterTicks(now, delayed, n))
  {
    if n > 0 {
      AfterTicksWrapped(now, delayed, n - 1);
    }
  }

  /**
   The assertion in taskSWITCH_DELAYED_LISTS. After a task has blocked for ticks, and every tick up to
   the end of the epoch has been processed, the delayed list that is about to change places is empty if
   and only if the wait was not 0 or the task did not block in the last tick of the epoch.
   */
  lemma EmptyAtSwitch(now: int, delayed: seq<Item>, overflow: seq<Item>, ticks: int, t: int)
    requires QueueOk(now, Joined(now, delayed, overflow)) && Wrapped(delayed) && Wrapped(overflow) && 0 <= ticks < M
    ensures AfterTicks(now, DelayedAfter(now, delayed, ticks, t), MAX_DELAY - Wrap(now)) == []
      <==> ticks > 0 || Wrap(now) != MAX_DELAY
  {
    hide Epoch, Joined, InsertSorted;
    var d, n := DelayedAfter(now, delayed, ticks, t), MAX_DELAY - Wrap(now);
    InsertHead(delayed, Item(Wrap(Wrap(now) + ticks), t));
    if n > 0 {
      AfterTicksWrapped(now, d, n - 1);
    } else if delayed != [] {
      JoinedAt(now, delayed, overflow, 0);
      Parts(now);
    }
  }

  /** v is the earliest wake time on a delayed list, or as far off as can be when nobody is on it. */
  ghost predicate IsFirstWake(delayed: seq<Item>, v: int) {
    && (forall i :: 0 <= i < |delayed| ==> v <= delayed[i].value)
    && if delayed == [] then v == MAX_DELAY else exists i :: 0 <= i < |delayed| && v == delayed[i].value
  }

  /**
   What the cached next unblock time is good for: at any time n of this epoch somebody is due exactly
   when the count has reached it, so below it a tick need not look at the lists at all.
   */
  lemma DueFromFirstWake(now: int, delayed: seq<Item>, overflow: seq<Item>, unblock: int, n: int)
    requires Sorted(Joined(now, delayed, overflow)) && Wrapped(delayed) && Wrapped(overflow)
    requires IsFirstWake(delayed, unblock) && Epoch(n) == Epoch(now)
    ensures Pos(Joined(now, delayed, overflow), n) > 0 <==> delayed != [] && Wrap(n) >= unblock
  {
    hide Joined, Epoch, Wrap;
    var q := Joined(now, delayed, overflow);
    JoinedSorted(now, delayed, overflow);
    JoinedEmpty(now, delayed, overflow);
    if q != [] {
      JoinedAt(now, delayed, overflow, 0);
      Parts(n);
    }
  }

  lemma StartsEmpty(ls: seq<seq<Item>>, limit: int, prio: map<int, nat>)
    requires forall l :: 0 <= l < |ls| ==> ls[l] == []
    ensures EventsOk(ls, limit, prio) && Waiting(ls) == {}
  {
  }

  lemma StartsAtZero()
    ensures Joined(0, [], []) == [] && Wrap(0) == 0 && Epoch(0) == 0 && Wrapped([])
  {
  }

  lemma CreatedNone(prio: map<int, nat>, limit: nat, tasks: seq<int>)
    requires limit > 0 && forall t :: t in prio ==> prio[t] < limit
    ensures tasks[..0] == [] && Created(prio, limit, []) == NoTasks(prio, limit)
  {
  }

  lemma CreatedStep(prio: map<int, nat>, limit: nat, tasks: seq<int>, i: nat)
    requires limit > 0 && (forall t :: t in prio ==> prio[t] < limit) && i < |tasks|
    ensures var u, t := Created(prio, limit, tasks[..i]), tasks[i];
            var v := u.(current := if i == 0 || PrioOf(prio, u.current) <= PrioOf(prio, t) then t else u.current);
            RingsOk(u) && RingsOk(v) && Created(prio, limit, tasks[..i + 1]) == AddReady(v, t)
  {
    assert tasks[..i + 1][..i] == tasks[..i];
  }

  /** The next task of a delayed list of which k have been woken. */
  lemma NextOfDelayed(now: int, delayed: seq<Item>, overflow: seq<Item>, k: int)
    requires 0 <= k < |delayed| && Wrapped(delayed)
    ensures var q, rest := Joined(now, delayed, overflow), delayed[k..];
            && k < |q| && q[k].owner == rest[0].owner && rest[1..] == delayed[k + 1..] && 0 <= rest[0].value < M
            && (Wrap(now) >= rest[0].value && k <= Pos(q, now) ==> k + 1 <= Pos(q, now))
  {
    hide Joined, Wrap, Epoch, Pos;
    JoinedAt(now, delayed, overflow, k);
    DueIff(now, delayed[k].value);
  }

  /** What is due of the queue is due of the delayed list. */
  lemma DueHere(now: int, delayed: seq<Item>, overflow: seq<Item>)
    requires Sorted(Joined(now, delayed, overflow)) && Wrapped(overflow)
    ensures Pos(Joined(now, delayed, overflow), now) == Pos(delayed, Wrap(now))
  {
    hide Joined, Epoch, Pos;
    Parts(now);
    PosThisEpoch(now, delayed, overflow, Wrap(now));
  }

  class Scheduler {
    var tick: int
    var pendedTicks: int
    var nextUnblock: int
    var overflows: int
    var delayed: seq<Item>
    var overflow: seq<Item>
    var suspendedTasks: seq<Item>
    var pendingReady: seq<int>
    var eventLists: seq<seq<Item>>
    var ready: seq<Ring>
    var top: nat
    var current: int
    var yieldPending: bool
    var suspended: nat
    const prio: map<int, nat>

    ghost var now: nat
    ghost var lost: int

    ghost function View(): State
      reads this
    {
      State(now, pendedTicks, lost, suspended, Joined(now, delayed, overflow), suspendedTasks, pendingReady,
        Waiting(eventLists),
            ready, top, current, yieldPending, prio)
    }

    /** The 32-bit side of the state: wrapped counts, wrapped lists, and a next wake time that is never late. */
    ghost predicate Clock()
      reads this
    {
      && tick == Wrap(now) && overflows == Wrap(Epoch(now)) && 0 <= pendedTicks < M && 0 <= nextUnblock < M
      && Wrapped(delayed) && Wrapped(overflow)
      && (delayed != [] ==> nextUnblock <= delayed[0].value)
    }

    ghost predicate Valid()
      reads this
    {
      Clock() && RingsOk(View()) && QueueOk(now, View().queue) && Events()
    }

    ghost predicate Events()
      reads this`eventLists, this`ready
    {
      EventsOk(eventLists, |ready|, prio)
    }

    /**
     prvInitialiseTaskLists and, for each task in this order, prvAddNewTaskToReadyList; then what
     vTaskStartScheduler sets.
     */
    constructor (prio: map<int, nat>, limit: nat, tasks: seq<int>, lists: nat)
      requires limit > 0 && forall t :: t in prio ==> prio[t] < limit
      requires tasks != [] && (forall i, j :: 0 <= i < j < |tasks| ==> tasks[i] != tasks[j])
      requires forall t :: t in tasks <==> t in prio
      ensures Valid() && View() == Created(prio, limit, tasks) && KernelRuns.Good(View())
      ensures |eventLists| == lists && forall l :: 0 <= l < lists ==> eventLists[l] == []
    {
      hide KernelRuns.Good, EventsOk, Waiting, Created, AddReady, Wrap, Epoch, Joined, RingsOk;
      this.prio := prio;
      tick, pendedTicks, overflows, suspended, nextUnblock := 0, 0, 0, 0, MAX_DELAY;
      delayed, overflow, suspendedTasks, pendingReady, eventLists := [], [], [], [], seq(lists, _ => []);
      ready, top, current, yieldPending := seq(limit, _ => EMPTY), 0, 0, false;
      now, lost := 0, 0;
      new;
      KernelRuns.FreshGood(prio, limit, tasks);
      StartsEmpty(eventLists, limit, prio);
      StartsAtZero();
      CreatedNone(prio, limit, tasks);
      CreateTasks(tasks, limit);
    }

    /** prvAddNewTaskToReadyList for each task in turn */
    method CreateTasks(tasks: seq<int>, ghost limit: nat)
      requires limit > 0 && (forall t :: t in prio ==> prio[t] < limit) && View() == Created(prio, limit, [])
      modifies this`ready, this`top, this`current
      ensures View() == Created(prio, limit, tasks)
    {
      hide Created, AddReady, Joined, Waiting, RingsOk;
      var i := 0;
      assert tasks[..0] == [];
      while i < |tasks|
        invariant 0 <= i <= |tasks| && View() == Created(prio, limit, tasks[..i])
        modifies this`ready, this`top, this`current
      {
        CreatedStep(prio, limit, tasks, i);
        AddNewTaskToReadyList(tasks[i], i == 0);
        i := i + 1;
      }
      assert tasks[..i] == tasks;
    }

    /** prvAddNewTaskToReadyList before the scheduler runs: the last of the most urgent tasks will run first. */
    method AddNewTaskToReadyList(t: int, first: bool)
      requires RingsOk(View())
      modifies this`ready, this`top, this`current
      ensures var s := old(View());
              View() == AddReady(s.(current := if first || PrioOf(prio, s.current) <= PrioOf(prio, t) then t
                else s.current), t)
    {
      hide AddReady, Waiting, Joined;
      if first || PrioOf(prio, current) <= PrioOf(prio, t) {
        current := t;
      }
      AddTaskToReadyList(t);
    }

    /** prvResetNextTaskUnblockTime: the earliest wake time of this epoch, or as far off as can be. */
    method ResetNextTaskUnblockTime()
      requires Wrapped(delayed) && Sorted(delayed)
      modifies this`nextUnblock
      ensures 0 <= nextUnblock < M && IsFirstWake(delayed, nextUnblock)
    {
      if delayed == [] {
        nextUnblock := MAX_DELAY;
      } else {
        nextUnblock := delayed[0].value;
      }
    }

    lemma ValidRings()
      requires Valid()
      ensures RingsOk(View())
    {
    }

    lemma DelayedSorted()
      requires Valid()
      ensures Sorted(delayed)
    {
      JoinedSorted(now, delayed, overflow);
    }

    /** prvAddTaskToReadyList */
    method AddTaskToReadyList(t: int)
      requires RingsOk(View())
      modifies this`top, this`ready
      ensures View() == AddReady(old(View()), t) && RingsOk(View())
    {
      var p := PrioOf(prio, t);
      if p > top {
        top := p;
      }
      ready := ready[p := InsertEnd(ready[p], Item(0, t))];
    }

    /** At a wrap every task of the old epoch has been woken, so the lists may change places. */
    lemma NothingLeftAtWrap()
      requires Valid() && tick == MAX_DELAY
      ensures delayed == []
    {
      if delayed != [] {
        JoinedAt(now, delayed, overflow, 0);
        Parts(now);
      }
    }

    /** taskSWITCH_DELAYED_LISTS */
    method SwitchDelayedLists()
      requires delayed == [] && Wrapped(overflow) && Sorted(overflow)
      modifies this`delayed, this`overflow, this`overflows, this`nextUnblock
      ensures delayed == old(overflow) && overflow == [] && overflows == Wrap(old(overflows) + 1)
      ensures 0 <= nextUnblock < M && IsFirstWake(delayed, nextUnblock)
    {
      delayed, overflow := overflow, delayed;
      overflows := Wrap(overflows + 1);
      ResetNextTaskUnblockTime();
    }

    /** The clock invariant right after the count moved: everything but "deadlines lie ahead". */
    ghost predicate Ticking()
      reads this
    {
      Clock() && RingsOk(View()) && Sorted(View().queue) && Events()
    }

    /** The first half of xTaskIncrementTick: count, and change lists at a wrap. */
    method AdvanceCount()
      requires Valid()
      modifies this`tick, this`now, this`delayed, this`overflow, this`overflows, this`nextUnblock
      ensures Ticking() && View() == old(View()).(now := old(now) + 1)
      ensures tick == Wrap(old(tick) + 1) && (tick != 0 ==> delayed == old(delayed))
    {
      hide Wrap, Epoch, Joined;
      NextParts(now);
      JoinedNext(now, delayed, overflow);
      JoinedSorted(now, delayed, overflow);
      NextParts(Epoch(now));
      if tick == MAX_DELAY {
        NothingLeftAtWrap();
      }
      tick := Wrap(tick + 1);
      if tick == 0 {
        SwitchDelayedLists();
      }
      now := now + 1;
    }

    /** With no wake time reached, nothing in the queue is due. */
    lemma NothingDue()
      requires Ticking() && (delayed == [] || tick < delayed[0].value)
      ensures View().queue == [] || View().queue[0].value > now
      ensures Pos(View().queue, now) == 0
    {
    }

    /** A task whose time has come is taken off the event list it is on, if any, and readied. */
    method Wake(t: int)
      requires RingsOk(View()) && Events()
      modifies this`eventLists, this`ready, this`top
      ensures RingsOk(View()) && Events()
      ensures var s := old(View()); View() == AddReady(s.(onEvent := s.onEvent - {t}), t)
      ensures eventLists == OffEvents(old(eventLists), t)
    {
      hide Waiting, EventsOk, InsertEnd;
      OffEventsOk(eventLists, t, |ready|, prio);
      eventLists := OffEvents(eventLists, t);
      AddTaskToReadyList(t);
    }

    /** The head of the delayed list is task k of the queue, the first k having been woken. */
    method WakeHead(ghost s: State, ghost q: seq<Item>, ghost k: nat)
      requires RingsOk(s) && k < |q| && delayed != [] && delayed[0].owner == q[k].owner
      requires Events() && View() == Woken(s, q, k).(queue := View().queue)
      modifies this`delayed, this`eventLists, this`ready, this`top
      ensures delayed == old(delayed)[1..] && Events() && View() == Woken(s, q, k + 1).(queue := View().queue)
    {
      hide Joined, Woken, Waiting, EventsOk, AddReady, InsertEnd, OffEvents, RingsOk;
      var item := delayed[0];
      OneMoreReadied(s, q, k);
      delayed := delayed[1..];
      KernelRuns.SameRings(Woken(s, q, k), View());
      AddReadyQueue(Woken(s, q, k), View(), item.owner);
      Wake(item.owner);
    }

    /** The loop of xTaskIncrementTick over the delayed list: k tasks are woken, up to the first that is not due. */
    method WakeLoop() returns (switchRequired: bool, ghost k: int)
      requires Ticking()
      modifies this`delayed, this`nextUnblock, this`eventLists, this`ready, this`top
      ensures Events() && 0 <= nextUnblock < M
      ensures var s, d, q := old(View()), old(delayed), old(View()).queue;
              && 0 <= k <= |d| && k <= Pos(q, now) && k <= |q| && delayed == d[k..]
              && View() == Woken(s, q, k).(queue := View().queue)
              && (switchRequired <==> Outranked(q, k, prio, current))
      ensures delayed != [] ==> tick < delayed[0].value && nextUnblock == delayed[0].value
    {
      hide Wrap, Epoch, Joined, ReadyAll, Pos, Waiting, EventsOk, AddReady, InsertEnd, OffEvents, Sorted, RingsOk,
           Outranked, Woken;
      ghost var s, q, d := View(), View().queue, delayed;
      switchRequired, k := false, 0;
      NoneReadied(s, q);
      OutrankedStep(q, 0, prio, current);
      while true
        invariant 0 <= k <= |d| && delayed == d[k..] && k <= Pos(q, now)
        invariant 0 <= nextUnblock < M && Events() && k <= |q| && View() == Woken(s, q, k).(queue := View().queue)
        invariant switchRequired <==> Outranked(q, k, prio, current)
        decreases |d| - k
      {
        if delayed == [] {
          nextUnblock := MAX_DELAY;
          break;
        }
        var item := delayed[0];
        NextOfDelayed(now, d, overflow, k);
        if tick < item.value {
          nextUnblock := item.value;
          break;
        }
        OutrankedStep(q, k, prio, current);
        WakeHead(s, q, k);
        if PrioOf(prio, item.owner) >= PrioOf(prio, current) {
          switchRequired := true;
        }
        k := k + 1;
      }
    }

    /** The loop wakes every task whose time has come, and nobody else. */
    method WakeDueTasks() returns (switchRequired: bool)
      requires Ticking()
      modifies this`delayed, this`nextUnblock, this`eventLists, this`ready, this`top
      ensures Clock() && RingsOk(View()) && Events()
      ensures View() == DueWoken(old(View())) && (switchRequired <==> DueOutranks(old(View())))
      ensures delayed == old(delayed)[Pos(old(delayed), tick)..]
    {
      hide Wrap, Epoch, Joined, Woken, Pos, Waiting, EventsOk, Sorted, RingsOk, Outranked;
      ghost var s, q, d, k := View(), View().queue, delayed, 0;
      switchRequired, k := WakeLoop();
      AllReadied(now, d, overflow, k);
      DueHere(now, d, overflow);
      JoinedDrop(now, d, overflow, k);
      KernelRuns.SameRings(Woken(s, q, k), View());
    }

    /** Only a count that has reached the next unblock time makes the tick look at the list. */
    method WakeIfDue() returns (switchRequired: bool)
      requires Ticking()
      modifies this`delayed, this`nextUnblock, this`eventLists, this`ready, this`top
      ensures Clock() && RingsOk(View()) && Events()
      ensures View() == DueWoken(old(View())) && (switchRequired <==> DueOutranks(old(View())))
      ensures delayed == old(delayed)[Pos(old(delayed), tick)..]
    {
      hide Wrap, Epoch, Joined, Woken, Pos, Waiting, EventsOk, Sorted, Outranked;
      switchRequired := false;
      if tick >= nextUnblock {
        switchRequired := WakeDueTasks();
      } else {
        NothingDue();
        DueHere(now, delayed, overflow);
        NoneReadied(View(), View().queue);
        OutrankedStep(View().queue, 0, prio, current);
      }
    }

    /** The tick proper: the scheduler is not suspended. */
    method ProcessTick() returns (switchRequired: bool)
      requires Valid()
      modifies this`tick, this`now, this`delayed, this`overflow, this`overflows, this`nextUnblock
      modifies this`eventLists, this`ready, this`top
      ensures Valid() && View() == Tick(old(View()))
      ensures switchRequired <==> TickSwitches(old(View()))
      ensures tick == Wrap(old(tick) + 1) && (tick != 0 ==> delayed == old(delayed)[Pos(old(delayed), tick)..])
    {
      hide Wrap, Epoch, Joined, DueWoken, DueOutranks, Pos, Tick, QueueOk, TickSwitches, Waiting, EventsOk, RingsOk,
           Clock, Events;
      ghost var s := View();
      AdvanceCount();
      switchRequired := WakeIfDue();
      TickAsCode(s);
      TickKeepsQueue(s);
      SwitchesAsCode(s, switchRequired);
      switchRequired := SwitchWanted(switchRequired);
    }

    /** The last part of the tick: time slicing, or a yield that was held back. */
    method SwitchWanted(woken: bool) returns (switchRequired: bool)
      requires RingsOk(View())
      ensures switchRequired <==> woken || |ready[PrioOf(prio, current)].items| > 1 || yieldPending
    {
      switchRequired := woken;
      if |ready[PrioOf(prio, current)].items| > 1 {
        switchRequired := true;
      }
      if yieldPending {
        switchRequired := true;
      }
    }

    /** xTaskIncrementTick */
    method IncrementTick() returns (switchRequired: bool)
      requires Valid()
      modifies this
      ensures Valid() && View() == Increment(old(View()))
      ensures switchRequired <==> old(suspended) == 0 && TickSwitches(old(View()))
    {
      hide Wrap, Epoch, Joined, Tick, QueueOk, TickSwitches;
      switchRequired := false;
      if suspended == 0 {
        switchRequired := ProcessTick();
      } else {
        if pendedTicks + 1 == M {
          lost := lost + M;
        }
        WrapStep(pendedTicks);
        pendedTicks := Wrap(pendedTicks + 1);
      }
    }

    /** prvAddCurrentTaskToDelayedList */
    method AddCurrentTaskToDelayedList(ticksToWait: int, canBlockIndefinitely: bool)
      requires Valid() && 0 <= ticksToWait < M && (ticksToWait == 0 ==> tick != MAX_DELAY)
      requires Find(ready[PrioOf(prio, current)].items, current) >= 0
      modifies this`ready, this`suspendedTasks, this`delayed, this`overflow, this`nextUnblock
      ensures Valid() && View() == Block(old(View()), ticksToWait, canBlockIndefinitely, false)
    {
      hide Valid, InsertSorted, WithoutRing, Find;
      LeaveReadyList();
      if ticksToWait == MAX_DELAY && canBlockIndefinitely {
        SuspendIndefinitely();
      } else {
        InsertInDelayedList(ticksToWait);
      }
    }

    /** uxListRemove of the running task's state list item */
    method LeaveReadyList()
      requires Valid() && Find(ready[PrioOf(prio, current)].items, current) >= 0
      modifies this`ready
      ensures var s, p := old(View()), PrioOf(prio, current);
              Valid() && View() == s.(ready := s.ready[p := WithoutRing(s.ready[p], current)])
    {
      hide Wrap, Epoch, Joined, QueueOk, Wrapped, Waiting, EventsOk;
      var p := PrioOf(prio, current);
      ready := ready[p := Remove(ready[p], Find(ready[p].items, current))];
    }

    method SuspendIndefinitely()
      requires Valid()
      modifies this`suspendedTasks
      ensures Valid() && View() == old(View()).(forever := old(View()).forever + [Item(0, current)])
    {
      hide Wrap, Epoch, Joined, QueueOk, Wrapped, Waiting, EventsOk, RingsOk;
      KernelRuns.SameRings(View(), View().(forever := View().forever + [Item(0, current)]));
      suspendedTasks := suspendedTasks + [Item(0, current)];
    }

    /** The running task's state list item is filed under its wrapped wake time, on the list that has it. */
    method InsertInDelayedList(ticksToWait: int)
      requires Valid() && 0 <= ticksToWait < M && (ticksToWait == 0 ==> tick != MAX_DELAY)
      modifies this`delayed, this`overflow, this`nextUnblock
      ensures var s := old(View());
        Valid() && View() == s.(queue := InsertSorted(s.queue, Item(s.now + ticksToWait, current)))
    {
      hide Wrap, Epoch, Joined, QueueOk, InsertSorted, RingsOk, Waiting, EventsOk;
      ghost var q := InsertSorted(View().queue, Item(now + ticksToWait, current));
      KernelRuns.SameRings(View(), View().(queue := q));
      InsertWake(now, delayed, overflow, ticksToWait, current);
      KernelRuns.BlockQueueOk(View(), ticksToWait);
      var timeToWake := Wrap(tick + ticksToWait);
      if timeToWake < tick {
        overflow := InsertSorted(overflow, Item(timeToWake, current));
      } else {
        delayed := InsertSorted(delayed, Item(timeToWake, current));
        if timeToWake < nextUnblock {
          nextUnblock := timeToWake;
        }
      }
    }

    /** vTaskPlaceOnEventList: the running task is filed in priority order on event list l, then blocks. */
    method PlaceOnEventList(l: nat, ticksToWait: int)
      requires Valid() && l < |eventLists| && current !in Waiting(eventLists)
      requires 0 <= ticksToWait < M && (ticksToWait == 0 ==> tick != MAX_DELAY)
      requires Find(ready[PrioOf(prio, current)].items, current) >= 0
      modifies this`ready, this`suspendedTasks, this`delayed, this`overflow, this`nextUnblock, this`eventLists
      ensures Valid() && View() == Block(old(View()), ticksToWait, true, true)
      ensures eventLists == old(eventLists)[l := InsertSorted(old(eventLists)[l],
        Item(|ready| - PrioOf(prio, current), current))]
    {
      hide Wrap, Epoch, Joined, QueueOk, InsertSorted, WithoutRing, Wrapped, Find, Waiting, EventsOk;
      PlacedEvents(eventLists, l, current, |ready|, prio);
      eventLists := eventLists[l := InsertSorted(eventLists[l], Item(|ready| - PrioOf(prio, current), current))];
      AddCurrentTaskToDelayedList(ticksToWait, true);
    }

    /** uxListRemove of a blocked task's state list item. */
    method UnlistTask(t: int)
      requires Valid()
      modifies this`suspendedTasks, this`delayed, this`overflow
      ensures Valid() && View() == Unlist(old(View()), t)
    {
      hide Wrap, Epoch, Joined, QueueOk, Find, Without, Wrapped, RemoveAt;
      KernelRuns.UnlistQueueOk(View(), t);
      UnlistLists(now, delayed, overflow, t);
      if Find(delayed, t) >= 0 {
        delayed := Without(delayed, t);
      } else if Find(overflow, t) >= 0 {
        overflow := Without(overflow, t);
      } else {
        suspendedTasks := Without(suspendedTasks, t);
      }
    }

    /** xTaskRemoveFromEventList: the head of event list l is woken, the most urgent task there. */
    method RemoveFromEventList(l: nat) returns (higher: bool)
      requires Valid() && l < |eventLists| && eventLists[l] != []
      modifies this
      ensures Valid() && eventLists == old(eventLists)[l := old(eventLists)[l][1..]]
      ensures var t := old(eventLists)[l][0].owner;
              && t in old(View()).onEvent && View() == Event(old(View()), t)
              && (higher <==> PrioOf(prio, t) > PrioOf(prio, current))
              && forall x :: x in old(eventLists)[l] ==> PrioOf(prio, x.owner) <= PrioOf(prio, t)
    {
      hide Valid, Unlist, AddReady, Event, RingsOk;
      ValidRings();
      var t := eventLists[l][0].owner;
      EventAsCode(View(), t);
      TakeHead(l);
      if suspended == 0 {
        ReadyTask(t);
      } else {
        PushPending(t);
      }
      higher := PrioOf(prio, t) > PrioOf(prio, current);
      if higher {
        NoteYield();
      }
    }

    /** uxListRemove of the head of event list l */
    method TakeHead(l: nat)
      requires Valid() && l < |eventLists| && eventLists[l] != []
      modifies this`eventLists
      ensures Valid() && eventLists == old(eventLists)[l := old(eventLists)[l][1..]]
      ensures var s, t := old(View()), old(eventLists)[l][0].owner;
              && t in s.onEvent && View() == s.(onEvent := s.onEvent - {t})
              && forall x :: x in old(eventLists)[l] ==> PrioOf(prio, x.owner) <= PrioOf(prio, t)
    {
      hide Wrap, Epoch, Joined, QueueOk, Wrapped, Waiting, EventsOk, OffEvents, RingsOk;
      ghost var t := eventLists[l][0].owner;
      HeadEvent(eventLists, l, |ready|, prio);
      OffEventsOk(eventLists, t, |ready|, prio);
      KernelRuns.SameRings(View(), View().(onEvent := View().onEvent - {t}));
      eventLists := eventLists[l := eventLists[l][1..]];
    }

    method PushPending(t: int)
      requires Valid()
      modifies this`pendingReady
      ensures Valid() && View() == old(View()).(pendingReady := old(pendingReady) + [t])
    {
      hide Wrap, Epoch, Joined, QueueOk, Wrapped, Waiting, EventsOk;
      pendingReady := pendingReady + [t];
    }

    /** vTaskSuspendAll */
    method SuspendAll()
      requires Valid()
      modifies this`suspended
      ensures Valid() && View() == old(View()).(suspended := old(suspended) + 1)
    {
      suspended := suspended + 1;
    }

    /** The loop of xTaskResumeAll over the tasks readied by interrupts meanwhile. */
    method DrainPendingReady() returns (moved: bool)
      requires Valid()
      modifies this`suspendedTasks, this`delayed, this`overflow, this`ready, this`top, this`pendingReady,
               this`yieldPending
      ensures Valid() && View() == Drained(old(View()))
    {
      hide Valid, Drained;
      ValidRings();
      moved := false;
      while pendingReady != []
        invariant Valid() && RingsOk(View()) && Drained(View()) == Drained(old(View()))
        decreases |pendingReady|
      {
        DrainOne();
        moved := true;
      }
      KernelRuns.DrainEnd(View());
    }

    /** The task at the head of the pending ready list is readied. */
    method DrainOne()
      requires Valid() && pendingReady != []
      modifies this`suspendedTasks, this`delayed, this`overflow, this`ready, this`top, this`pendingReady,
               this`yieldPending
      ensures Valid() && RingsOk(View()) && Drained(View()) == Drained(old(View()))
      ensures pendingReady == old(pendingReady)[1..]
    {
      hide Valid, Unlist, Drained, AddReady, RingsOk;
      ValidRings();
      var t := pendingReady[0];
      ghost var u := KernelRuns.DrainStep(View());
      PopPending();
      ReadyTask(t);
      if PrioOf(prio, t) >= PrioOf(prio, current) {
        NoteYield();
      }
      assert View() == u;
    }

    method PopPending()
      requires Valid() && pendingReady != []
      modifies this`pendingReady
      ensures Valid() && View() == old(View()).(pendingReady := old(pendingReady)[1..])
    {
      hide Wrap, Epoch, Joined, QueueOk, Wrapped, Waiting, EventsOk;
      pendingReady := pendingReady[1..];
    }

    method NoteYield()
      requires Valid()
      modifies this`yieldPending
      ensures Valid() && View() == old(View()).(yieldPending := true)
    {
      hide Wrap, Epoch, Joined, QueueOk, Wrapped, Waiting, EventsOk;
      yieldPending := true;
    }

    /** A blocked task's state list item moves to its ready list. */
    method ReadyTask(t: int)
      requires Valid()
      modifies this`suspendedTasks, this`delayed, this`overflow, this`ready, this`top
      ensures RingsOk(Unlist(old(View()), t)) && Valid() && View() == AddReady(Unlist(old(View()), t), t)
    {
      hide Wrap, Epoch, Joined, QueueOk, Wrapped, Waiting, EventsOk, Unlist, AddReady;
      UnlistTask(t);
      AddTaskToReadyList(t);
    }

    /** The end of the drain: with a task moved, the next unblock time is taken afresh. */
    method Refresh()
      requires Valid()
      modifies this`nextUnblock
      ensures Valid() && View() == old(View())
    {
      DelayedSorted();
      ResetNextTaskUnblockTime();
    }

    /** The loop of xTaskResumeAll over the ticks pended meanwhile. */
    method ReplayTicks(pended: nat)
      requires Valid() && suspended == 0
      modifies this
      ensures Valid() && View() == Replayed(old(View()), pended) && suspended == 0
    {
      hide Wrap, Epoch, Joined, QueueOk, Tick, TickSwitches, Wrapped, Replayed, Waiting, EventsOk;
      var counts := pended;
      ghost var v, n := View(), 0;
      ReplayStep(v, 0);
      while counts > 0
        invariant 0 <= counts && n + counts == pended && suspended == 0
        invariant Valid() && View() == Replayed(v, n)
        decreases counts
      {
        TickKeepsQueue(View());
        ReplayStep(v, n);
        var switchRequired := IncrementTick();
        if switchRequired {
          yieldPending := true;
        }
        counts := counts - 1;
        n := n + 1;
      }
    }

    /** xTaskResumeAll */
    method ResumeAll() returns (alreadyYielded: bool)
      requires Valid() && suspended > 0
      modifies this
      ensures Valid() && View() == Resume(old(View()))
      ensures alreadyYielded <==> old(suspended) == 1 && View().yieldPending
    {
      hide Wrap, Epoch, Joined, QueueOk, Tick, TickSwitches, Drained, Wrapped, Replayed, Waiting, EventsOk;
      alreadyYielded := false;
      suspended := suspended - 1;
      if suspended == 0 {
        var moved := DrainPendingReady();
        if moved {
          Refresh();
        }
        ReplayTicks(pendedTicks);
        pendedTicks := 0;
        alreadyYielded := yieldPending;
      }
    }

    /**
     What xTaskDelayUntil does while the scheduler is suspended, whatever has been pended before and may
     be after: the caller is put to sleep until previous + increment exactly when that lies ahead (less
     than a full turn after previous), and the next reference time advances by the increment either way.
     */
    method DecideDelay(ghost previous: nat, previousWakeTime: int, increment: int) returns (wake: int, sleeps: bool)
      requires Valid() && suspended > 0
      requires previousWakeTime == Wrap(previous) && previous <= now && 0 < increment < M
      requires Find(ready[PrioOf(prio, current)].items, current) >= 0
      modifies this`ready, this`suspendedTasks, this`delayed, this`overflow, this`nextUnblock
      ensures Valid() && wake == Wrap(previous + increment)
      ensures sleeps <==> Wrap(now - previous) < increment
      ensures now - previous < M ==> (sleeps <==> previous + increment > now)
      ensures View() ==
        if sleeps then Block(old(View()), increment - Wrap(now - previous), false, false) else old(View())
    {
      hide Wrap, Epoch, Joined, QueueOk, WithoutRing, Wrapped, Find, Block, EventsOk, Waiting;
      Deadlines.DelayUntilDecision(previous, increment, now);
      WaitParts(previous, increment);
      wake := Wrap(previousWakeTime + increment);
      sleeps := Deadlines.ShouldDelay(previousWakeTime, increment, tick);
      if sleeps {
        AddCurrentTaskToDelayedList(Wrap(wake - tick), false);
      }
    }

    /** n tick interrupts while the scheduler is suspended */
    method PendTicks(n: nat)
      requires Valid() && suspended > 0
      modifies this
      ensures Valid() && View() == Pended(old(View()), n) && suspended == old(suspended)
      ensures current == old(current) && now == old(now)
    {
      hide Wrap, Epoch, Joined, QueueOk, Tick, TickSwitches, EventsOk, Waiting;
      var i := 0;
      while i < n
        invariant 0 <= i <= n && Valid() && View() == Pended(old(View()), i)
      {
        var _ := IncrementTick();
        i := i + 1;
      }
    }

    /**
     xTaskDelayUntil, with ticks arriving before and after the decision: they are pended, and replayed
     when the scheduler resumes. With none, the whole call is one block (UndisturbedDelay).
     */
    method DelayUntil(ghost previous: nat, previousWakeTime: int, increment: int, before: nat, after: nat)
      returns (wake: int, sleeps: bool, yielded: bool)
      requires Valid() && suspended == 0
      requires previousWakeTime == Wrap(previous) && previous <= now && 0 < increment < M
      requires Find(ready[PrioOf(prio, current)].items, current) >= 0
      modifies this
      ensures Valid() && wake == Wrap(previous + increment)
      ensures sleeps <==> Wrap(old(now) - previous) < increment
      ensures old(now) - previous < M ==> (sleeps <==> previous + increment > old(now))
      ensures View() == Delayed(old(View()), sleeps, increment - Wrap(old(now) - previous), before + after)
    {
      hide Wrap, Epoch, Joined, QueueOk, WithoutRing, Wrapped, Find, Block, Resume, EventsOk, Waiting, Pended, RingsOk,
           Delayed;
      ghost var s, k := View(), increment - Wrap(now - previous);
      ghost var v := s.(suspended := 1);
      DelayPended(s, before, after, k);
      SuspendAll();
      PendTicks(before);
      wake, sleeps := DecideDelay(previous, previousWakeTime, increment);
      assert View() == if sleeps then Block(Pended(v, before), k, false, false) else Pended(v, before);
      PendTicks(after);
      yielded := ResumeAll();
    }

    /** The search down from uxTopReadyPriority in taskSELECT_HIGHEST_PRIORITY_TASK */
    method HighestReady() returns (p: nat)
      requires top < |ready| && exists p :: 0 <= p <= top && ready[p].items != []
      ensures p <= top && p == TopFrom(ready, top) && ready[p].items != []
    {
      p := top;
      while ready[p].items == []
        invariant 0 <= p <= top && TopFrom(ready, p) == TopFrom(ready, top)
        invariant exists q :: 0 <= q <= p && ready[q].items != []
        decreases p
      {
        p := p - 1;
      }
    }

    /** vTaskSwitchContext */
    method SwitchContext()
      requires Valid() && top < |ready| && (suspended == 0 ==> exists p :: 0 <= p <= top && ready[p].items != [])
      modifies this`yieldPending, this`top, this`ready, this`current
      ensures Valid() && View() == Switch(old(View()))
    {
      hide Wrap, Epoch, Joined, QueueOk, Wrapped, Waiting, EventsOk, TopFrom;
      if suspended != 0 {
        yieldPending := true;
      } else {
        yieldPending := false;
        var p := HighestReady();
        current := Picked(ready[p]).owner;
        ready := ready[p := Advance(ready[p])];
        top := p;
      }
    }
  }

  lemma ReplayStep(s: State, n: nat)
    requires RingsOk(s)
    ensures Replayed(s, 0) == s
    ensures Replayed(s, n + 1) == Tick(Replayed(s, n)).(yieldPending := TickSwitches(Replayed(s, n)))
    ensures Replayed(s, n).yieldPending ==> TickSwitches(Replayed(s, n))
  {
  }

  /** Where the wake time of a task blocking now for ticks goes, and what that means for the queue. */
  lemma InsertWake(now: int, delayed: seq<Item>, overflow: seq<Item>, ticks: int, t: int)
    requires QueueOk(now, Joined(now, delayed, overflow)) && Wrapped(delayed) && Wrapped(overflow) && 0 <= ticks < M
    ensures var w := Wrap(Wrap(now) + ticks);
            && (w < Wrap(now) ==>
                  Joined(now, delayed, InsertSorted(overflow, Item(w, t)))
                  == InsertSorted(Joined(now, delayed, overflow), Item(now + ticks, t)))
            && (w >= Wrap(now) ==>
                  Joined(now, InsertSorted(delayed, Item(w, t)), overflow)
                  == InsertSorted(Joined(now, delayed, overflow), Item(now + ticks, t)))
            && Wrapped(InsertSorted(delayed, Item(w, t))) && Wrapped(InsertSorted(overflow, Item(w, t)))
            && var h := InsertSorted(delayed, Item(w, t))[0];
                 h.value == w || (delayed != [] && h == delayed[0] && h.value <= w)
  {
    hide InsertSorted, Joined;
    var w := Wrap(Wrap(now) + ticks);
    WaitParts(now, ticks);
    Parts(now + ticks);
    InsertJoined(now, delayed, overflow, Item(w, t));
    InsertHead(delayed, Item(w, t));
    InsertHead(overflow, Item(w, t));
  }

  /** Blocking between vTaskSuspendAll and xTaskResumeAll, with no tick or event in between, is just blocking. */
  lemma SuspendedBlock(s: State, ticks: int)
    requires RingsOk(s) && CountsOk(s) && s.suspended == 0
    ensures Resume(s.(suspended := 1)) == s
    ensures RingsOk(Block(s.(suspended := 1), ticks, false, false))
    ensures Resume(Block(s.(suspended := 1), ticks, false, false)) == Block(s, ticks, false, false)
    ensures Block(s, ticks, false, false).now == s.now
    ensures Block(s.(suspended := 1), ticks, false, false).suspended == 1
  {
    hide InsertSorted;
  }

  /** Ticks counted while the scheduler is suspended. */
  function Pended(s: State, n: nat): (r: State)
    requires RingsOk(s) && s.suspended > 0
    ensures r == s.(pended := r.pended, lost := r.lost)
  {
    if n == 0 then s else Increment(Pended(s, n - 1))
  }

  lemma {:induction false} PendedSum(s: State, a: nat, b: nat)
    requires RingsOk(s) && s.suspended > 0
    ensures Pended(s, 0) == s && Pended(Pended(s, a), b) == Pended(s, a + b)
  {
    hide RingsOk;
    if b > 0 {
      PendedSum(s, a, b - 1);
    }
  }

  /** Blocking does not look at the pended count. */
  lemma {:induction false} PendedBlock(s: State, n: nat, ticks: int)
    requires RingsOk(s) && s.suspended > 0
    ensures RingsOk(Block(s, ticks, false, false)) && Block(s, ticks, false, false).suspended > 0
    ensures Block(Pended(s, n), ticks, false, false) == Pended(Block(s, ticks, false, false), n)
  {
    hide InsertSorted, WithoutRing;
    BlockRings(s, ticks);
    if n > 0 {
      PendedBlock(s, n - 1, ticks);
    }
  }

  /** The caller blocks or not with the scheduler suspended, n ticks are pended, and the scheduler resumes. */
  function Delayed(s: State, sleeps: bool, ticks: int, n: nat): State
    requires RingsOk(s)
  {
    hide Block, Resume, RingsOk, Pended;
    DelayRings(s, ticks, n);
    var v := s.(suspended := 1);
    if sleeps then Resume(Pended(Block(v, ticks, false, false), n)) else Resume(Pended(v, n))
  }

  lemma DelayRings(s: State, ticks: int, n: nat)
    requires RingsOk(s)
    ensures var v := s.(suspended := 1);
            && RingsOk(v) && RingsOk(Block(v, ticks, false, false)) && Block(v, ticks, false, false).suspended == 1
            && RingsOk(Pended(v, n)) && RingsOk(Pended(Block(v, ticks, false, false), n))
  {
    hide RingsOk;
    var v := s.(suspended := 1);
    KernelRuns.SameRings(s, v);
    BlockRings(v, ticks);
    PendedRings(v, n);
    PendedRings(Block(v, ticks, false, false), n);
  }

  /** With no tick in between, a delay is just a block. */
  lemma UndisturbedDelay(s: State, sleeps: bool, ticks: int)
    requires RingsOk(s) && CountsOk(s) && s.suspended == 0
    ensures Delayed(s, sleeps, ticks, 0) == if sleeps then Block(s, ticks, false, false) else s
  {
    hide Block, Resume, RingsOk;
    SuspendedBlock(s, ticks);
    DelayRings(s, ticks, 0);
  }

  /** When the ticks are pended makes no difference. */
  lemma DelayPended(s: State, before: nat, after: nat, ticks: int)
    requires RingsOk(s) && s.suspended == 0
    ensures var v := s.(suspended := 1);
            && RingsOk(v) && RingsOk(Pended(v, before)) && RingsOk(Block(Pended(v, before), ticks, false, false))
            && Block(Pended(v, before), ticks, false, false).suspended > 0
            && Delayed(s, false, ticks, before + after) == Resume(Pended(Pended(v, before), after))
            && Delayed(s, true, ticks, before + after) ==
                 Resume(Pended(Block(Pended(v, before), ticks, false, false), after))
  {
    hide Block, Resume, RingsOk;
    var v := s.(suspended := 1);
    DelayRings(s, ticks, before);
    PendedBlock(v, before, ticks);
    PendedSum(v, before, after);
    PendedSum(Block(v, ticks, false, false), before, after);
  }

  lemma PendedRings(s: State, n: nat)
    requires RingsOk(s) && s.suspended > 0
    ensures RingsOk(Pended(s, n)) && Pended(s, 0) == s
  {
  }

  lemma BlockRings(s: State, ticks: int)
    requires RingsOk(s)
    ensures RingsOk(Block(s, ticks, false, false))
  {
  }

  /** Event, in the order the code does it: the pending yield is noted last. */
  lemma EventAsCode(s: State, t: int)
    requires RingsOk(s)
    ensures var u := s.(onEvent := s.onEvent - {t});
            var v := if s.suspended == 0 then AddReady(Unlist(u, t), t) else u.(pendingReady := u.pendingReady + [t]);
            RingsOk(Unlist(u, t)) && Event(s, t) ==
              v.(yieldPending := s.yieldPending || PrioOf(s.prio, t) > PrioOf(s.prio, s.current))
            && v.yieldPending == s.yieldPending && v.current == s.current
  {
  }

  lemma WrapStep(n: int)
    requires 0 <= n < M
    ensures Wrap(n + 1) == if n + 1 == M then 0 else n + 1
  {
  }

  /** Tick, in the order the code does it. */
  lemma TickAsCode(s: State)
    requires RingsOk(s)
    ensures RingsOk(s.(now := s.now + 1)) && Tick(s) == DueWoken(s.(now := s.now + 1))
  {
    hide ReadyAll, RingsOk, Pos;
    var u, k := s.(now := s.now + 1), Pos(s.queue, s.now + 1);
    KernelRuns.SameRings(s, u);
    KernelRuns.SameRings(s, u.(queue := s.queue[k..]));
    ReadyAllQueue(u, s.queue[..k], s.queue[k..]);
  }

  lemma TickKeepsQueue(s: State)
    requires RingsOk(s) && QueueOk(s.now, s.queue)
    ensures QueueOk(Tick(s).now, Tick(s).queue) && RingsOk(Tick(s)) && Tick(s).prio == s.prio
    ensures Tick(s).current == s.current
    ensures |Tick(s).ready| == |s.ready| && Tick(s).yieldPending == s.yieldPending
    ensures Tick(s).suspended == s.suspended && Tick(s).pended == s.pended
  {
  }

  lemma SwitchesAsCode(s: State, woken: bool)
    requires RingsOk(s)
    requires woken <==> DueOutranks(s.(now := s.now + 1))
    ensures TickSwitches(s) <==> woken || |Tick(s).ready[PrioOf(s.prio, s.current)].items| > 1 || s.yieldPending
  {
  }
}
