/**
 The priority inheritance code on task control blocks, ready lists and mutexes. Every critical section
 is proved to be the step of module MutexSpec of the same name.
 */
module Mutexes {
  import opened Basics
  import opened ListSpec
  import opened KernelSpec
  import opened MutexSpec
  import KernelRuns

  /** taskEVENT_LIST_ITEM_VALUE_IN_USE: item values from here on belong to an event group wait. */
  const VALUE_IN_USE: int := 0x8000_0000

  class TaskTable {
    var prio: map<int, nat>       // uxPriority
    var base: map<int, nat>       // uxBasePriority
    var held: map<int, nat>       // uxMutexesHeld
    var eventValue: map<int, int> // event list item values
    var ready: seq<Ring>
    var top: nat
    var current: int
    var mutexes: map<int, Mutex>
    var phases: map<int, Phase>
    ghost var rest: KernelSpec.State

    ghost function Kernel(): KernelSpec.State
      reads this
    {
      rest.(ready := ready, top := top, current := current, prio := prio)
    }

    ghost function View(): MutexSpec.State
      reads this
    {
      MutexSpec.State.State(Kernel(), base, held, mutexes, phases)
    }

    /** An item value that no event group wait is using files the task under its priority. */
    ghost predicate ValuesOk()
      reads this`prio, this`ready, this`eventValue
    {
      forall t :: t in prio ==> t in eventValue && (eventValue[t] >= VALUE_IN_USE || eventValue[t] == |ready| - prio[t])
    }

    /** Every task is created and ready, and no mutex is taken. */
    constructor (prio: map<int, nat>, limit: nat, tasks: seq<int>, mutexes: set<int>)
      requires limit > 0 && forall t :: t in prio ==> prio[t] < limit
      requires tasks != [] && (forall i, j :: 0 <= i < j < |tasks| ==> tasks[i] != tasks[j])
      requires forall t :: t in tasks <==> t in prio
      ensures Good(View()) && ValuesOk() && Kernel() == Created(prio, limit, tasks)
    {
      hide Created, KernelRuns.Good, Good;
      KernelRuns.FreshGood(prio, limit, tasks);
      var start := Created(prio, limit, tasks);
      FreshGood(start, mutexes);
      this.prio, base, held := prio, prio, map t | t in prio :: 0;
      eventValue := map t | t in prio :: limit - prio[t];
      ready, top, current := start.ready, start.top, start.current;
      this.mutexes := map m | m in mutexes :: Mutex(None, true, [], {});
      phases := map[];
      rest := start;
    }

    /** prvAddTaskToReadyList */
    method AddTaskToReadyList(t: int)
      requires RingsOk(Kernel())
      modifies this`top, this`ready
      ensures Kernel() == AddReady(old(Kernel()), t) && RingsOk(Kernel())
    {
      AddReadyRings(Kernel(), t);
      var p := PrioOf(prio, t);
      if p > top {
        top := p;
      }
      ready := ready[p := InsertEnd(ready[p], Item(0, t))];
    }

    /** The common part of the three inheritance functions: a new priority, and a new ready list if ready. */
    method ChangePriority(t: int, p: nat)
      requires RingsOk(Kernel()) && t in prio && p < |ready|
      modifies this`prio, this`top, this`ready
      ensures Kernel() == SetPrio(old(Kernel()), t, p) && RingsOk(Kernel())
    {
      hide AddReady, InsertEnd, Remove;
      var q := prio[t];
      var i := Find(ready[q].items, t);
      PrioRings(Kernel(), t, p);
      PrioRings(Unready(Kernel(), t), t, p);
      if i >= 0 {
        ready := ready[q := Remove(ready[q], i)];
        prio := prio[t := p];
        AddTaskToReadyList(t);
      } else {
        prio := prio[t := p];
      }
    }

    /** xTaskPriorityInherit */
    method PriorityInherit(holder: Option<int>) returns (occurred: bool)
      requires RingsOk(Kernel()) && current in prio
      requires (holder.Some? ==> holder.value in prio && holder.value in base) && ValuesOk()
      modifies this`prio, this`top, this`ready, this`eventValue
      ensures holder.None? ==> !occurred && Kernel() == old(Kernel())
      ensures ValuesOk() && ValuesKept(old(eventValue), eventValue, if holder.Some? then {holder.value} else {})
      ensures holder.Some? ==>
        && Kernel() == Inherit(old(Kernel()), holder.value, current) && RingsOk(Kernel())
        && (occurred <==> InheritanceOccurred(old(Kernel()), base, holder.value, current))
    {
      hide SetPrio;
      occurred := false;
      if holder.Some? {
        var h := holder.value;
        if prio[h] < prio[current] {
          if eventValue[h] < VALUE_IN_USE {
            eventValue := eventValue[h := |ready| - prio[current]];
          }
          ChangePriority(h, prio[current]);
          occurred := true;
        } else if base[h] < prio[current] {
          occurred := true;
        }
      }
    }

    /** xTaskPriorityDisinherit by the running task, which gives a mutex back */
    method PriorityDisinherit(h: int) returns (yieldRequired: bool)
      requires RingsOk(Kernel()) && h == current && h in prio && h in base && h in held
      requires held[h] > 0 && base[h] < |ready|
      requires ValuesOk() && eventValue[h] < VALUE_IN_USE
      modifies this`prio, this`top, this`ready, this`held, this`eventValue
      ensures ValuesOk() && ValuesKept(old(eventValue), eventValue, {h})
      ensures held == old(held)[h := old(held)[h] - 1]
      ensures Kernel() == Disinherit(old(Kernel()), base, held[h], h) && RingsOk(Kernel())
      ensures yieldRequired <==> old(prio)[h] != base[h] && held[h] == 0
    {
      hide SetPrio;
      yieldRequired := false;
      held := held[h := held[h] - 1];
      if prio[h] != base[h] {
        if held[h] == 0 {
          ChangePriority(h, base[h]);
          eventValue := eventValue[h := |ready| - prio[h]];
          yieldRequired := true;
        }
      }
    }

    /** vTaskPriorityDisinheritAfterTimeout */
    method PriorityDisinheritAfterTimeout(holder: Option<int>, highest: int)
      requires RingsOk(Kernel()) && 0 <= highest < |ready|
      requires holder.Some? ==> var h := holder.value;
        h in prio && h in base && h in held && held[h] > 0 && base[h] < |ready|
      requires ValuesOk()
      modifies this`prio, this`top, this`ready, this`eventValue
      ensures ValuesOk() && ValuesKept(old(eventValue), eventValue, if holder.Some? then {holder.value} else {})
      ensures holder.None? ==> Kernel() == old(Kernel())
      ensures holder.Some? ==> Kernel() == DisinheritTo(old(Kernel()), base, held[holder.value], holder.value, highest)
    {
      hide SetPrio;
      if holder.Some? {
        var h := holder.value;
        var priorityToUse := if base[h] < highest then highest else base[h];
        if prio[h] != priorityToUse {
          if held[h] == 1 {
            ChangePriority(h, priorityToUse);
            if eventValue[h] < VALUE_IN_USE {
              eventValue := eventValue[h := |ready| - priorityToUse];
            }
          }
        }
      }
    }

    /** prvGetDisinheritPriorityAfterTimeout: the priority of a most urgent waiter, or the idle priority. */
    method GetDisinheritPriorityAfterTimeout(m: int) returns (highest: int)
      requires Good(View()) && m in mutexes
      ensures forall i :: 0 <= i < |mutexes[m].waiters| ==> Prio(Kernel(), mutexes[m].waiters[i].owner) <= highest
      ensures mutexes[m].waiters != [] ==>
        exists i :: 0 <= i < |mutexes[m].waiters| && Prio(Kernel(), mutexes[m].waiters[i].owner) == highest
      ensures mutexes[m].waiters == [] ==> highest == 0
    {
      hide Good, Prio;
      HighestIsMost(View(), m);
      var waiters := mutexes[m].waiters;
      if |waiters| > 0 {
        highest := |ready| - waiters[0].value;
      } else {
        highest := 0;
      }
    }

    /** The first critical section of xQueueSemaphoreTake on a mutex. */
    method TryTake() returns (taken: bool)
      requires Good(View()) && current in phases && phases[current].Trying?
      modifies this`mutexes, this`held, this`phases
      ensures taken <==> old(mutexes)[old(phases)[current].mutex].available
      ensures taken ==> View() == Apply(old(View()), Take(current)) && Good(View())
      ensures !taken ==> View() == old(View())
    {
      hide Good, Apply;
      TryingKnown(View(), current);
      var m := phases[current].mutex;
      taken := mutexes[m].available;
      if taken {
        StepGood(View(), Take(current));
        TakeWritten(View(), current);
        mutexes := mutexes[m := mutexes[m].(available := false)];
        held := held[current := held[current] + 1];
        mutexes := mutexes[m := mutexes[m].(holder := Some(current), since := {})];
        phases := phases[current := Idle];
      }
    }

    /** Inheritance, and going onto the event list, with the scheduler suspended and the mutex not available. */
    method BlockOnMutex()
      requires Good(View()) && Enabled(View(), Block(current)) && ValuesOk() && eventValue[current] < VALUE_IN_USE
      modifies this`mutexes, this`phases, this`prio, this`top, this`ready, this`eventValue
      ensures View() == Apply(old(View()), Block(current)) && Good(View()) && ValuesOk()
    {
      hide Good, Enabled, Apply, Inherit, InsertSorted, InheritanceOccurred, ValuesKept, RingsOk;
      StepGood(View(), Block(current));
      BlockWritten(View(), current);
      var m := phases[current].mutex;
      var value := eventValue[current];
      var occurred := PriorityInherit(mutexes[m].holder);
      var x := mutexes[m];
      mutexes := mutexes[m := x.(waiters := InsertSorted(x.waiters, Item(value, current)),
        since := x.since + {current})];
      phases := phases[current := Waiting(m, occurred)];
    }

    /** The last part of xQueueSemaphoreTake after a timeout: what the wait made the holder inherit is undone. */
    method LeaveAfterTimeout()
      requires Good(View()) && Enabled(View(), Leave(current)) && ValuesOk()
      modifies this`phases, this`prio, this`top, this`ready, this`eventValue
      ensures View() == Apply(old(View()), Leave(current)) && Good(View()) && ValuesOk()
    {
      hide Good, Enabled, Apply, DisinheritTo, HighestWaiting, ValuesKept, ValuesOk, RingsOk, Prio;
      StepGood(View(), Leave(current));
      LeaveWritten(View(), current);
      var m := phases[current].mutex;
      if phases[current].inherited {
        var highest := GetDisinheritPriorityAfterTimeout(m);
        HighestUnique(View(), m, highest);
        PriorityDisinheritAfterTimeout(mutexes[m].holder, highest);
      }
      phases := phases[current := Idle];
    }

    /** xQueueGenericSend on a mutex: prvCopyDataToQueue disinherits, then the head waiter is woken. */
    method GiveMutex(m: int) returns (yieldRequired: bool)
      requires Good(View()) && Enabled(View(), Give(current, m)) && ValuesOk() && eventValue[current] < VALUE_IN_USE
      modifies this`mutexes, this`held, this`phases, this`prio, this`top, this`ready, this`eventValue
      ensures View() == Apply(old(View()), Give(current, m)) && Good(View()) && ValuesOk()
    {
      hide Good, Apply, Disinherit, ValuesKept, ValuesOk, RingsOk;
      StepGood(View(), Give(current, m));
      GiveWritten(View(), current, m);
      yieldRequired := PriorityDisinherit(current);
      mutexes := mutexes[m := mutexes[m].(holder := None, available := true)];
      var x := mutexes[m];
      if x.waiters != [] {
        var t := x.waiters[0].owner;
        mutexes := mutexes[m := x.(waiters := x.waiters[1..])];
        phases := phases[t := Trying(phases[t].mutex, phases[t].inherited)];
      }
    }
  }

  /** Only the values of some tasks have changed, and none that an event group wait is using. */
  ghost predicate ValuesKept(a: map<int, int>, b: map<int, int>, tasks: set<int>) {
    b.Keys == a.Keys && forall t :: t in a && (t !in tasks || a[t] >= VALUE_IN_USE) ==> b[t] == a[t]
  }
}
