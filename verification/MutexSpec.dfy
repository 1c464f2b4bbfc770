/**
 Mutexes and priority inheritance on top of the scheduler: taking, blocking with inheritance, giving
 with disinheritance, and giving up after a timeout. Proved over all runs in which a task that blocks
 on a mutex holds none.
 */
module MutexSpec {
  import opened Basics
  import opened ListSpec
  import opened KernelSpec
  import opened KernelRuns

  datatype Mutex = Mutex(
    holder: Option<int>,
    available: bool,         // uxMessagesWaiting
    waiters: seq<Item>,      // xTasksWaitingToReceive: MAX_PRIORITIES - priority, and task
    since: set<int>          // tasks that blocked on the mutex since its holder took it
  )

  /** Where a task is in a call of xQueueSemaphoreTake, and its xInheritanceOccurred. */
  datatype Phase =
    | Idle
    | Trying(mutex: int, inherited: bool)
    | Waiting(mutex: int, inherited: bool)
    | Expired(mutex: int, inherited: bool)  // out of time and the mutex was not available

  datatype State = State(
    kernel: KernelSpec.State,
    base: map<int, nat>,
    held: map<int, nat>,
    mutexes: map<int, Mutex>,
    phases: map<int, Phase>
  )

  // ---------------------------------------------------------------- priorities

  function Unready(k: KernelSpec.State, t: int): (r: KernelSpec.State)
    requires RingsOk(k)
    ensures RingsOk(r) && |r.ready| == |k.ready| && r.prio == k.prio
  {
    k.(ready := k.ready[Prio(k, t) := WithoutRing(k.ready[Prio(k, t)], t)])
  }

  lemma AddReadyRings(k: KernelSpec.State, t: int)
    requires RingsOk(k)
    ensures RingsOk(AddReady(k, t)) && |AddReady(k, t).ready| == |k.ready|
  {
  }

  lemma PrioRings(k: KernelSpec.State, t: int, p: nat)
    requires RingsOk(k) && p < |k.ready|
    ensures RingsOk(k.(prio := k.prio[t := p]))
  {
  }

  /** A task's priority changes; if it is ready it moves to the end of its new ready list. */
  function SetPrio(k: KernelSpec.State, t: int, p: nat): (r: KernelSpec.State)
    requires RingsOk(k) && p < |k.ready|
    ensures RingsOk(r) && r.prio == k.prio[t := p] && |r.ready| == |k.ready|
  {
    PrioRings(k, t, p);
    if Find(k.ready[Prio(k, t)].items, t) >= 0 then
      PrioRings(Unready(k, t), t, p);
      AddReadyRings(Unready(k, t).(prio := k.prio[t := p]), t);
      AddReady(Unready(k, t).(prio := k.prio[t := p]), t)
    else k.(prio := k.prio[t := p])
  }

  /** xTaskPriorityInherit for task t about to block on a mutex held by h. */
  function Inherit(k: KernelSpec.State, h: int, t: int): (r: KernelSpec.State)
    requires RingsOk(k) && h in k.prio && t in k.prio
    ensures RingsOk(r) && r.prio.Keys == k.prio.Keys && |r.ready| == |k.ready|
  {
    if Prio(k, h) < Prio(k, t) then SetPrio(k, h, Prio(k, t)) else k
  }

  predicate InheritanceOccurred(k: KernelSpec.State, base: map<int, nat>, h: int, t: int) {
    Prio(k, h) < Prio(k, t) || PrioOf(base, h) < Prio(k, t)
  }

  /** xTaskPriorityDisinherit, after the count of held mutexes has gone down to held. */
  function Disinherit(k: KernelSpec.State, base: map<int, nat>, held: nat, h: int): (r: KernelSpec.State)
    requires RingsOk(k) && h in k.prio && PrioOf(base, h) < |k.ready|
    ensures RingsOk(r) && r.prio.Keys == k.prio.Keys && |r.ready| == |k.ready|
  {
    if Prio(k, h) != PrioOf(base, h) && held == 0 then SetPrio(k, h, PrioOf(base, h)) else k
  }

  /** prvGetDisinheritPriorityAfterTimeout */
  function HighestWaiting(limit: nat, m: Mutex): int {
    if m.waiters == [] then 0 else limit - m.waiters[0].value
  }

  /** vTaskPriorityDisinheritAfterTimeout */
  function DisinheritTo(k: KernelSpec.State, base: map<int, nat>, held: nat, h: int,
                        highest: int): (r: KernelSpec.State)
    requires RingsOk(k) && h in k.prio && PrioOf(base, h) < |k.ready| && highest < |k.ready|
    ensures RingsOk(r) && r.prio.Keys == k.prio.Keys && |r.ready| == |k.ready|
  {
    var p := if PrioOf(base, h) < highest then highest else PrioOf(base, h);
    if Prio(k, h) != p && held == 1 then SetPrio(k, h, p) else k
  }

  /** Nobody on the ready lists is task t. */
  lemma NotReady(k: KernelSpec.State, t: int)
    requires t !in OnRings(k.ready)
    ensures forall p, i :: 0 <= p < |k.ready| && 0 <= i < |k.ready[p].items| ==> k.ready[p].items[i].owner != t
  {
    hide On, OnRings;
    forall p, i | 0 <= p < |k.ready| && 0 <= i < |k.ready[p].items|
      ensures k.ready[p].items[i].owner != t
    {
      OnRingsHas(k.ready, p, i);
    }
  }

  /** A task that is on no ready list may change its priority. */
  lemma PrioUnlisted(k: KernelSpec.State, t: int, p: nat)
    requires RingsOk(k) && ReadyOk(k.top, k.ready, k.prio) && t in k.prio && p < |k.ready| && t !in OnRings(k.ready)
    ensures RingsOk(k.(prio := k.prio[t := p])) && ReadyOk(k.top, k.ready, k.prio[t := p])
  {
    hide On, OnRings;
    NotReady(k, t);
  }

  /** A change of priority keeps every scheduler invariant, and every task where it is. */
  lemma SetPrioGood(k: KernelSpec.State, t: int, p: nat)
    requires KernelRuns.Good(k) && t in k.prio && p < |k.ready|
    ensures KernelRuns.Good(SetPrio(k, t, p)) && Tally(SetPrio(k, t, p)) == Tally(k)
  {
    hide On, OnRings, ReadyOk, QueueOk, BlockedOk, WithoutRing, InsertEnd;
    var q := Prio(k, t);
    FindOn(k.ready[q].items, t);
    assert Tally(k)[t] == 1;
    if Find(k.ready[q].items, t) >= 0 {
      var u := Unready(k, t);
      WithoutRingTally(k, t);
      BlockReadyOk(k, t);
      assert t !in OnRings(u.ready);
      PrioUnlisted(u, t, p);
      AddReadyOk(u.(prio := k.prio[t := p]), t);
      AddReadyTally(u.(prio := k.prio[t := p]), t);
    } else {
      ReadyUnderOwn(k, t);
      PrioUnlisted(k, t, p);
    }
  }

  // ---------------------------------------------------------------- steps

  datatype Step =
    | Call(task: int, mutex: int)
    | Take(task: int)
    | Poll(task: int)       // not available, and no block time
    | Block(task: int)
    | Timeout(task: int)    // the tick interrupt takes the task off the mutex's event list
    | Expire(task: int)     // out of time, and the mutex is not available
    | Leave(task: int)
    | Give(task: int, mutex: int)
    | Elsewhere(op: Op)     // any scheduler step

  function PhaseOf(s: State, t: int): Phase {
    if t in s.phases then s.phases[t] else Idle
  }

  function Limit(s: State): nat { |s.kernel.ready| }

  /** The critical section in which xQueueSemaphoreTake succeeds. */
  function Taken(s: State, t: int, m: int): State
    requires m in s.mutexes
  {
    s.(mutexes := s.mutexes[m := s.mutexes[m].(holder := Some(t), available := false, since := {})],
       held := s.held[t := PrioOf(s.held, t) + 1])
  }

  /** Inheritance, then the task goes onto the mutex's event list. */
  function Blocked(s: State, t: int, m: int): State
    requires RingsOk(s.kernel) && m in s.mutexes && t in s.kernel.prio
    requires s.mutexes[m].holder.Some? ==> s.mutexes[m].holder.value in s.kernel.prio
  {
    var x := s.mutexes[m];
    var y := x.(waiters := InsertSorted(x.waiters, Item(Limit(s) - Prio(s.kernel, t), t)), since := x.since + {t});
    match x.holder
    case None => s.(mutexes := s.mutexes[m := y], phases := s.phases[t := Waiting(m, false)])
    case Some(h) => s.(kernel := Inherit(s.kernel, h, t), mutexes := s.mutexes[m := y],
                       phases := s.phases[t := Waiting(m, InheritanceOccurred(s.kernel, s.base, h, t))])
  }

  /** The head waiter is woken and will try again. */
  function Roused(phases: map<int, Phase>, waiters: seq<Item>): map<int, Phase> {
    if waiters != [] && waiters[0].owner in phases && phases[waiters[0].owner].Waiting?
    then phases[waiters[0].owner := Trying(phases[waiters[0].owner].mutex, phases[waiters[0].owner].inherited)]
    else phases
  }

  /** xQueueGenericSend on a mutex by its holder */
  function Given(s: State, t: int, m: int): State
    requires RingsOk(s.kernel) && m in s.mutexes && t in s.kernel.prio
    requires PrioOf(s.base, t) < Limit(s) && PrioOf(s.held, t) > 0
  {
    var x := s.mutexes[m];
    var n := PrioOf(s.held, t) - 1;
    s.(kernel := Disinherit(s.kernel, s.base, n, t), held := s.held[t := n],
       mutexes := s.mutexes[m := x.(holder := None, available := true,
         waiters := if x.waiters == [] then [] else x.waiters[1..])],
       phases := Roused(s.phases, x.waiters))
  }

  /** What a task that ran out of time undoes. */
  function Relieved(s: State, m: int): KernelSpec.State
    requires RingsOk(s.kernel) && m in s.mutexes
    requires s.mutexes[m].holder.Some?
      ==> s.mutexes[m].holder.value in s.kernel.prio && PrioOf(s.base, s.mutexes[m].holder.value) < Limit(s)
    requires HighestWaiting(Limit(s), s.mutexes[m]) < Limit(s)
  {
    match s.mutexes[m].holder
    case None => s.kernel
    case Some(h) => DisinheritTo(s.kernel, s.base, PrioOf(s.held, h), h, HighestWaiting(Limit(s), s.mutexes[m]))
  }

  // ---------------------------------------------------------------- invariant

  ghost predicate PrioOk(prio: map<int, nat>, base: map<int, nat>, held: map<int, nat>, limit: nat) {
    && base.Keys == prio.Keys && held.Keys == prio.Keys
    && (forall t :: t in prio ==> base[t] < limit && base[t] <= prio[t] && (held[t] == 0 ==> prio[t] == base[t]))
  }

  ghost function HeldBy(mutexes: map<int, Mutex>, t: int): set<int> {
    set m | m in mutexes && mutexes[m].holder == Some(t)
  }

  /** uxMutexesHeld counts the mutexes a task holds. */
  ghost predicate HeldOk(held: map<int, nat>, mutexes: map<int, Mutex>) {
    forall t :: t in held ==> held[t] == |HeldBy(mutexes, t)|
  }

  ghost predicate HolderOk(mutexes: map<int, Mutex>, tasks: set<int>) {
    forall m :: m in mutexes ==>
      (mutexes[m].available <==> mutexes[m].holder == None)
        && (mutexes[m].holder.Some? ==> mutexes[m].holder.value in tasks)
  }

  /** A mutex's waiters are in priority order, each waiting for that mutex. */
  ghost predicate WaitersOk(m: int, xs: seq<Item>, phases: map<int, Phase>, base: map<int, nat>, limit: nat) {
    && Sorted(xs) && Distinct(xs)
    && (forall i :: 0 <= i < |xs| ==>
          var t := xs[i].owner;
          t in base && xs[i].value == limit - base[t] && t in phases && phases[t].Waiting? && phases[t].mutex == m)
  }

  ghost predicate ListsOk(mutexes: map<int, Mutex>, phases: map<int, Phase>, base: map<int, nat>, limit: nat) {
    forall m :: m in mutexes ==> WaitersOk(m, mutexes[m].waiters, phases, base, limit)
  }

  /** A task that waits, or whose wait made somebody inherit, holds nothing. */
  ghost predicate PhasesOk(phases: map<int, Phase>, held: map<int, nat>, mutexes: set<int>) {
    forall t :: t in phases && !phases[t].Idle? ==>
      t in held && phases[t].mutex in mutexes && (phases[t].Waiting? || phases[t].inherited ==> held[t] == 0)
  }

  /** The holder is at least as urgent as every waiter that blocked while it held the mutex. */
  ghost predicate Protected(x: Mutex, prio: map<int, nat>, limit: nat) {
    x.holder.Some? ==> forall i :: 0 <= i < |x.waiters| && x.waiters[i].owner in x.since ==>
      limit - x.waiters[i].value <= PrioOf(prio, x.holder.value)
  }

  ghost predicate ProtectedAll(mutexes: map<int, Mutex>, prio: map<int, nat>, limit: nat) {
    forall m :: m in mutexes ==> Protected(mutexes[m], prio, limit)
  }

  ghost predicate Good(s: State) {
    && KernelRuns.Good(s.kernel)
    && PrioOk(s.kernel.prio, s.base, s.held, Limit(s))
    && HeldOk(s.held, s.mutexes)
    && HolderOk(s.mutexes, s.kernel.prio.Keys)
    && ListsOk(s.mutexes, s.phases, s.base, Limit(s))
    && PhasesOk(s.phases, s.held, s.mutexes.Keys)
    && ProtectedAll(s.mutexes, s.kernel.prio, Limit(s))
  }

  ghost predicate Enabled(s: State, e: Step)
    requires Good(s)
  {
    match e
    case Call(t, m) => s.kernel.current == t && t in s.kernel.prio && PhaseOf(s, t).Idle? && m in s.mutexes
    case Take(t) => s.kernel.current == t && PhaseOf(s, t).Trying? && s.mutexes[PhaseOf(s, t).mutex].available
    case Poll(t) => s.kernel.current == t && PhaseOf(s, t).Trying? && !PhaseOf(s, t).inherited
      && !s.mutexes[PhaseOf(s, t).mutex].available
    case Block(t) =>
      && s.kernel.current == t && PhaseOf(s, t).Trying? && !s.mutexes[PhaseOf(s, t).mutex].available
      && PrioOf(s.held, t) == 0
    case Timeout(t) => PhaseOf(s, t).Waiting?
    case Expire(t) => s.kernel.current == t && PhaseOf(s, t).Trying? && !s.mutexes[PhaseOf(s, t).mutex].available
    case Leave(t) => s.kernel.current == t && PhaseOf(s, t).Expired?
    case Give(t, m) => s.kernel.current == t && PhaseOf(s, t).Idle? && m in s.mutexes && s.mutexes[m].holder == Some(t)
    case Elsewhere(op) => KernelRuns.Enabled(s.kernel, op)
  }

  lemma HighestFits(s: State, m: int)
    requires Good(s) && m in s.mutexes
    ensures HighestWaiting(Limit(s), s.mutexes[m]) < Limit(s)
    ensures s.mutexes[m].holder.Some?
      ==> s.mutexes[m].holder.value in s.kernel.prio && PrioOf(s.base, s.mutexes[m].holder.value) < Limit(s)
  {
  }

  lemma HolderCounts(s: State, t: int, m: int)
    requires Good(s) && m in s.mutexes && s.mutexes[m].holder == Some(t)
    ensures t in s.held && PrioOf(s.held, t) > 0 && t in s.kernel.prio && PrioOf(s.base, t) < Limit(s)
  {
    hide KernelRuns.Good, ListsOk, PhasesOk, ProtectedAll;
    assert m in HeldBy(s.mutexes, t);
  }

  /** What a step needs to know about the tasks and mutexes it names. */
  lemma StepKnown(s: State, e: Step)
    requires Good(s) && Enabled(s, e)
    ensures RingsOk(s.kernel)
    ensures forall m :: m in s.mutexes && s.mutexes[m].holder.Some? ==> s.mutexes[m].holder.value in s.kernel.prio
    ensures e.Take? || e.Poll? || e.Block? || e.Timeout? || e.Expire? || e.Leave? ==>
      e.task in s.phases && s.phases[e.task].mutex in s.mutexes && e.task in s.kernel.prio
  {
    hide KernelRuns.Good, HeldOk, ListsOk, ProtectedAll;
    KernelRings(s.kernel);
  }

  lemma KernelRings(k: KernelSpec.State)
    requires KernelRuns.Good(k)
    ensures RingsOk(k)
  {
  }

  function Apply(s: State, e: Step): State
    requires Good(s) && Enabled(s, e)
  {
    hide Good, KernelRuns.Good, RingsOk;
    StepKnown(s, e);
    match e
    case Call(t, m) => s.(phases := s.phases[t := Trying(m, false)])
    case Take(t) => Taken(s, t, s.phases[t].mutex).(phases := s.phases[t := Idle])
    case Poll(t) => s.(phases := s.phases[t := Idle])
    case Block(t) => Blocked(s, t, s.phases[t].mutex)
    case Timeout(t) =>
      var m := s.phases[t].mutex;
      s.(mutexes := s.mutexes[m := s.mutexes[m].(waiters := Without(s.mutexes[m].waiters, t))],
         phases := s.phases[t := Trying(m, s.phases[t].inherited)])
    case Expire(t) => s.(phases := s.phases[t := Expired(s.phases[t].mutex, s.phases[t].inherited)])
    case Leave(t) =>
      HighestFits(s, s.phases[t].mutex);
      s.(phases := s.phases[t := Idle],
        kernel := if s.phases[t].inherited then Relieved(s, s.phases[t].mutex) else s.kernel)
    case Give(t, m) =>
      HolderCounts(s, t, m);
      Given(s, t, m)
    case Elsewhere(op) => s.(kernel := KernelRuns.Apply(s.kernel, op))
  }

  // ---------------------------------------------------------------- every step keeps it

  /** The phase of a task that is on no mutex's list does not matter to the lists. */
  lemma ListsPhase(mutexes: map<int, Mutex>, phases: map<int, Phase>, base: map<int, nat>, limit: nat, t: int, p: Phase)
    requires ListsOk(mutexes, phases, base, limit) && (t in phases ==> !phases[t].Waiting?)
    ensures ListsOk(mutexes, phases[t := p], base, limit)
  {
  }

  lemma MoveGood(s: State, e: Step)
    requires Good(s) && Enabled(s, e) && (e.Call? || e.Poll? || e.Expire?)
    ensures Good(Apply(s, e))
  {
    hide KernelRuns.Good, PrioOk, HeldOk, HolderOk, ListsOk, ProtectedAll;
    var u := Apply(s, e);
    assert e.Call? ==> e.task in s.held by {
      SameKeys(s);
    }
    ListsPhase(s.mutexes, s.phases, s.base, Limit(s), e.task, u.phases[e.task]);
  }

  lemma SameKeys(s: State)
    requires Good(s)
    ensures s.base.Keys == s.kernel.prio.Keys && s.held.Keys == s.kernel.prio.Keys
    ensures RingsOk(s.kernel) && s.kernel.prio.Keys == s.held.Keys
  {
  }

  lemma HeldTaken(mutexes: map<int, Mutex>, m: int, x: Mutex, t: int)
    requires m in mutexes && mutexes[m].holder == None
    ensures HeldBy(mutexes[m := x.(holder := Some(t))], t) == HeldBy(mutexes, t) + {m} && m !in HeldBy(mutexes, t)
    ensures forall u :: u != t ==> HeldBy(mutexes[m := x.(holder := Some(t))], u) == HeldBy(mutexes, u)
  {
  }

  lemma HeldGiven(mutexes: map<int, Mutex>, m: int, x: Mutex, t: int)
    requires m in mutexes && mutexes[m].holder == Some(t)
    ensures HeldBy(mutexes[m := x.(holder := None)], t) == HeldBy(mutexes, t) - {m} && m in HeldBy(mutexes, t)
    ensures forall u :: u != t ==> HeldBy(mutexes[m := x.(holder := None)], u) == HeldBy(mutexes, u)
  {
  }

  lemma HeldSame(mutexes: map<int, Mutex>, m: int, x: Mutex)
    requires m in mutexes && mutexes[m].holder == x.holder
    ensures forall u :: HeldBy(mutexes[m := x], u) == HeldBy(mutexes, u)
  {
  }

  lemma TakenHeld(held: map<int, nat>, mutexes: map<int, Mutex>, m: int, x: Mutex, t: int)
    requires HeldOk(held, mutexes) && t in held && m in mutexes && mutexes[m].holder == None && x.holder == Some(t)
    ensures HeldOk(held[t := held[t] + 1], mutexes[m := x])
  {
    hide HeldBy;
    HeldTaken(mutexes, m, x, t);
  }

  lemma GivenHeld(held: map<int, nat>, mutexes: map<int, Mutex>, m: int, x: Mutex, t: int)
    requires HeldOk(held, mutexes) && t in held && held[t] > 0 && m in mutexes
    requires mutexes[m].holder == Some(t) && x.holder == None
    ensures HeldOk(held[t := held[t] - 1], mutexes[m := x])
    ensures held[t] == 1 ==> forall l :: l in mutexes && l != m ==> mutexes[l].holder != Some(t)
  {
    hide HeldBy;
    HeldGiven(mutexes, m, x, t);
    if held[t] == 1 {
      OnlyOne(mutexes, m, t);
    }
  }

  lemma OnlyOne(mutexes: map<int, Mutex>, m: int, t: int)
    requires m in mutexes && mutexes[m].holder == Some(t) && |HeldBy(mutexes, t)| == 1
    ensures forall l :: l in mutexes && l != m ==> mutexes[l].holder != Some(t)
  {
    assert m in HeldBy(mutexes, t) && |HeldBy(mutexes, t) - {m}| == 0;
    assert HeldBy(mutexes, t) - {m} == {};
    forall l | l in mutexes && l != m
      ensures mutexes[l].holder != Some(t)
    {
      assert l !in HeldBy(mutexes, t) - {m};
    }
  }

  lemma SameHeld(held: map<int, nat>, mutexes: map<int, Mutex>, m: int, x: Mutex)
    requires HeldOk(held, mutexes) && m in mutexes && mutexes[m].holder == x.holder
    ensures HeldOk(held, mutexes[m := x])
  {
    hide HeldBy;
    HeldSame(mutexes, m, x);
  }

  /** One mutex changes. */
  lemma ListsMutex(mutexes: map<int, Mutex>, phases: map<int, Phase>, base: map<int, nat>, limit: nat, m: int, x: Mutex)
    requires ListsOk(mutexes, phases, base, limit) && m in mutexes && WaitersOk(m, x.waiters, phases, base, limit)
    ensures ListsOk(mutexes[m := x], phases, base, limit)
  {
  }

  lemma ProtectedMutex(mutexes: map<int, Mutex>, prio: map<int, nat>, limit: nat, m: int, x: Mutex)
    requires ProtectedAll(mutexes, prio, limit) && m in mutexes && Protected(x, prio, limit)
    ensures ProtectedAll(mutexes[m := x], prio, limit)
  {
  }

  lemma TakeGood(s: State, t: int)
    requires Good(s) && Enabled(s, Take(t))
    ensures Good(Apply(s, Take(t)))
  {
    hide KernelRuns.Good, HeldOk, ListsOk, ProtectedAll, WaitersOk;
    var m := s.phases[t].mutex;
    var u := Apply(s, Take(t));
    SameKeys(s);
    TakenHeld(s.held, s.mutexes, m, u.mutexes[m], t);
    assert WaitersOk(m, s.mutexes[m].waiters, s.phases, s.base, Limit(s)) by {
      ListAt(s, m);
    }
    ListsMutex(s.mutexes, s.phases, s.base, Limit(s), m, u.mutexes[m]);
    ListsPhase(u.mutexes, s.phases, s.base, Limit(s), t, Idle);
    ProtectedMutex(s.mutexes, s.kernel.prio, Limit(s), m, u.mutexes[m]);
  }

  /** The steps of the protocol, written out as the changes they make. */
  lemma TakeWritten(s: State, t: int)
    requires Good(s) && Enabled(s, Take(t))
    ensures t in s.phases && t in s.held && s.phases[t].mutex in s.mutexes
    ensures var m := s.phases[t].mutex;
            Apply(s, Take(t)) == s.(
              held := s.held[t := s.held[t] + 1], phases := s.phases[t := Idle],
              mutexes := s.mutexes[m := s.mutexes[m].(available := false, holder := Some(t), since := {})])
  {
    hide KernelRuns.Good, HeldOk, ListsOk, ProtectedAll;
  }

  lemma BlockWritten(s: State, t: int)
    requires Good(s) && Enabled(s, Block(t))
    ensures t in s.phases && s.phases[t].Trying? && s.phases[t].mutex in s.mutexes
    ensures RingsOk(s.kernel) && t in s.kernel.prio && t in s.base
    ensures var m := s.phases[t].mutex;
            var x := s.mutexes[m];
            && x.holder.Some? && x.holder.value in s.kernel.prio && x.holder.value in s.base
            && Apply(s, Block(t)) == s.(
                 kernel := Inherit(s.kernel, x.holder.value, t),
                 mutexes := s.mutexes[m := x.(
                   waiters := InsertSorted(x.waiters, Item(Limit(s) - s.kernel.prio[t], t)), since := x.since + {t})],
                 phases := s.phases[t := Waiting(m, InheritanceOccurred(s.kernel, s.base, x.holder.value, t))])
  {
    hide KernelRuns.Good, HeldOk, ListsOk, ProtectedAll, Inherit, InsertSorted;
    StepKnown(s, Block(t));
    SameKeys(s);
  }

  lemma GiveWritten(s: State, t: int, m: int)
    requires Good(s) && Enabled(s, Give(t, m))
    ensures m in s.mutexes && RingsOk(s.kernel) && t in s.kernel.prio && t in s.base && s.base[t] < Limit(s)
    ensures t in s.held && s.held[t] > 0
    ensures var xs := s.mutexes[m].waiters; xs != [] ==> xs[0].owner in s.phases && s.phases[xs[0].owner].Waiting?
    ensures var x, n := s.mutexes[m], s.held[t] - 1;
            Apply(s, Give(t, m)) == s.(
              kernel := Disinherit(s.kernel, s.base, n, t), held := s.held[t := n],
              mutexes := s.mutexes[m := x.(
                holder := None, available := true, waiters := if x.waiters == [] then [] else x.waiters[1..])],
              phases := if x.waiters == [] then s.phases
                        else var p := s.phases[x.waiters[0].owner];
                             s.phases[x.waiters[0].owner := Trying(p.mutex, p.inherited)])
  {
    hide KernelRuns.Good, HeldOk, ListsOk, ProtectedAll, Disinherit;
    HolderCounts(s, t, m);
    SameKeys(s);
    ListAt(s, m);
  }

  lemma LeaveWritten(s: State, t: int)
    requires Good(s) && Enabled(s, Leave(t))
    ensures t in s.phases && s.phases[t].Expired? && s.phases[t].mutex in s.mutexes && RingsOk(s.kernel)
    ensures var m := s.phases[t].mutex;
            var h := s.mutexes[m].holder;
            && 0 <= HighestWaiting(Limit(s), s.mutexes[m]) < Limit(s)
            && (h.Some? ==> h.value in s.kernel.prio && h.value in s.base && s.base[h.value] < Limit(s)
                            && h.value in s.held && s.held[h.value] > 0)
            && Apply(s, Leave(t)) == s.(
                 phases := s.phases[t := Idle],
                 kernel := if s.phases[t].inherited && h.Some?
                           then DisinheritTo(s.kernel, s.base, s.held[h.value], h.value,
                             HighestWaiting(Limit(s), s.mutexes[m]))
                           else s.kernel)
  {
    hide KernelRuns.Good, HeldOk, ListsOk, ProtectedAll, DisinheritTo;
    var m := s.phases[t].mutex;
    StepKnown(s, Leave(t));
    SameKeys(s);
    HighestFits(s, m);
    NotNegative(s, m);
    if s.mutexes[m].holder.Some? {
      HolderCounts(s, s.mutexes[m].holder.value, m);
    }
  }

  lemma NotNegative(s: State, m: int)
    requires Good(s) && m in s.mutexes
    ensures HighestWaiting(Limit(s), s.mutexes[m]) >= 0
  {
  }

  /** Whatever bounds the waiters, and is the priority of one of them, is the priority of the head. */
  lemma HighestUnique(s: State, m: int, highest: int)
    requires Good(s) && m in s.mutexes
    requires var xs := s.mutexes[m].waiters;
             && (forall i :: 0 <= i < |xs| ==> Prio(s.kernel, xs[i].owner) <= highest)
             && (xs != [] ==> exists i :: 0 <= i < |xs| && Prio(s.kernel, xs[i].owner) == highest)
             && (xs == [] ==> highest == 0)
    ensures highest == HighestWaiting(Limit(s), s.mutexes[m])
  {
    hide Good, Prio;
    HighestIsMost(s, m);
  }

  lemma ListAt(s: State, m: int)
    requires Good(s) && m in s.mutexes
    ensures WaitersOk(m, s.mutexes[m].waiters, s.phases, s.base, Limit(s))
    ensures Protected(s.mutexes[m], s.kernel.prio, Limit(s))
  {
  }

  lemma Inserted(xs: seq<Item>, x: Item, i: int)
    requires 0 <= i < |InsertSorted(xs, x)|
    ensures var r, p := InsertSorted(xs, x), Pos(xs, x.value);
            |r| == |xs| + 1 && r[i] == if i < p then xs[i] else if i == p then x else xs[i - 1]
  {
  }

  /** A task blocks: it goes onto the list of one mutex. */
  lemma WaiterAdded(m: int, xs: seq<Item>, phases: map<int, Phase>, base: map<int, nat>, limit: nat, t: int,
                    inherited: bool)
    requires WaitersOk(m, xs, phases, base, limit) && t in base && (t in phases ==> !phases[t].Waiting?)
    ensures WaitersOk(m, InsertSorted(xs, Item(limit - base[t], t)), phases[t := Waiting(m, inherited)], base, limit)
  {
    hide InsertSorted, Sorted;
    var x := Item(limit - base[t], t);
    var r := InsertSorted(xs, x);
    InsertKeepsSorted(xs, x);
    NotWaiting(m, xs, phases, base, limit, t);
    forall i, j | 0 <= i < j < |r|
      ensures r[i].owner != r[j].owner
    {
      Inserted(xs, x, i);
      Inserted(xs, x, j);
    }
    forall i | 0 <= i < |r|
      ensures r[i] == x || (t != r[i].owner && r[i] in xs)
    {
      Inserted(xs, x, i);
    }
  }

  /** Raising a priority protects no less. */
  lemma ProtectedRaised(mutexes: map<int, Mutex>, prio: map<int, nat>, limit: nat, h: int, p: nat)
    requires ProtectedAll(mutexes, prio, limit) && PrioOf(prio, h) <= p
    ensures ProtectedAll(mutexes, prio[h := p], limit)
  {
  }

  lemma WaiterProtected(x: Mutex, prio: map<int, nat>, limit: nat, t: int, p: nat)
    requires Protected(x, prio, limit) && x.holder.Some? && p <= PrioOf(prio, x.holder.value)
    requires forall i :: 0 <= i < |x.waiters| ==> x.waiters[i].owner != t
    ensures Protected(x.(waiters := InsertSorted(x.waiters, Item(limit - p, t)), since := x.since + {t}), prio, limit)
  {
  }

  lemma InheritGood(s: State, h: int, t: int)
    requires Good(s) && h in s.kernel.prio && t in s.kernel.prio && PrioOf(s.held, h) > 0
    ensures var k := Inherit(s.kernel, h, t);
            && KernelRuns.Good(k) && PrioOk(k.prio, s.base, s.held, Limit(s))
            && ProtectedAll(s.mutexes, k.prio, Limit(s))
            && Prio(k, h) >= Prio(s.kernel, t) && |k.ready| == Limit(s)
  {
    hide KernelRuns.Good, HeldOk, ListsOk, ProtectedAll, WaitersOk, SetPrio;
    SameKeys(s);
    if Prio(s.kernel, h) < Prio(s.kernel, t) {
      SetPrioGood(s.kernel, h, Prio(s.kernel, t));
      ProtectedRaised(s.mutexes, s.kernel.prio, Limit(s), h, Prio(s.kernel, t));
    }
  }

  lemma BlockGood(s: State, t: int)
    requires Good(s) && Enabled(s, Block(t))
    ensures Good(Apply(s, Block(t)))
  {
    hide KernelRuns.Good, HeldOk, ListsOk, ProtectedAll, WaitersOk, Protected, Inherit, InsertSorted;
    var m := s.phases[t].mutex;
    var x := s.mutexes[m];
    var h := x.holder.value;
    var u := Apply(s, Block(t));
    SameKeys(s);
    HolderCounts(s, h, m);
    InheritGood(s, h, t);
    ListAt(s, m);
    NotWaiting(m, x.waiters, s.phases, s.base, Limit(s), t);
    WaiterAdded(m, x.waiters, s.phases, s.base, Limit(s), t, u.phases[t].inherited);
    ListsPhase(s.mutexes, s.phases, s.base, Limit(s), t, u.phases[t]);
    ListsMutex(s.mutexes, u.phases, s.base, Limit(s), m, u.mutexes[m]);
    SameHeld(s.held, s.mutexes, m, u.mutexes[m]);
    ProtectedAt(s.mutexes, u.kernel.prio, Limit(s), m);
    WaiterProtected(x, u.kernel.prio, Limit(s), t, Prio(s.kernel, t));
    ProtectedMutex(s.mutexes, u.kernel.prio, Limit(s), m, u.mutexes[m]);
  }

  lemma NotWaiting(m: int, xs: seq<Item>, phases: map<int, Phase>, base: map<int, nat>, limit: nat, t: int)
    requires WaitersOk(m, xs, phases, base, limit) && (t in phases ==> !phases[t].Waiting?)
    ensures forall i :: 0 <= i < |xs| ==> xs[i].owner != t
  {
  }

  lemma ProtectedAt(mutexes: map<int, Mutex>, prio: map<int, nat>, limit: nat, m: int)
    requires ProtectedAll(mutexes, prio, limit) && m in mutexes
    ensures Protected(mutexes[m], prio, limit)
  {
  }

  /** A waiter leaves its mutex's list and its waiting phase. */
  lemma WaiterRemoved(m: int, l: int, xs: seq<Item>, phases: map<int, Phase>, base: map<int, nat>, limit: nat, t: int,
                      p: Phase)
    requires WaitersOk(l, xs, phases, base, limit) && t in phases && phases[t].Waiting? && phases[t].mutex == m
    ensures WaitersOk(l, if l == m then Without(xs, t) else xs, phases[t := p], base, limit)
  {
    hide Without, Sorted, Distinct;
    if l == m {
      WithoutKeepsSorted(xs, t);
      WithoutKeepsDistinct(xs, t);
    }
  }

  lemma ListsWithout(mutexes: map<int, Mutex>, phases: map<int, Phase>, base: map<int, nat>, limit: nat, m: int,
                     x: Mutex, t: int, p: Phase)
    requires ListsOk(mutexes, phases, base, limit) && m in mutexes && t in phases
    requires phases[t].Waiting? && phases[t].mutex == m
    requires x.waiters == Without(mutexes[m].waiters, t)
    ensures ListsOk(mutexes[m := x], phases[t := p], base, limit)
  {
    hide WaitersOk, Without;
    forall l | l in mutexes
      ensures WaitersOk(l, mutexes[m := x][l].waiters, phases[t := p], base, limit)
    {
      WaiterRemoved(m, l, mutexes[l].waiters, phases, base, limit, t, p);
    }
  }

  lemma ProtectedFewer(x: Mutex, prio: map<int, nat>, limit: nat, t: int)
    requires Protected(x, prio, limit)
    ensures Protected(x.(waiters := Without(x.waiters, t)), prio, limit)
  {
  }

  lemma TimeoutGood(s: State, t: int)
    requires Good(s) && Enabled(s, Timeout(t))
    ensures Good(Apply(s, Timeout(t)))
  {
    hide KernelRuns.Good, PrioOk, HeldOk, ListsOk, ProtectedAll, Without, Protected;
    var m := s.phases[t].mutex;
    var u := Apply(s, Timeout(t));
    ListAt(s, m);
    ListsWithout(s.mutexes, s.phases, s.base, Limit(s), m, u.mutexes[m], t, u.phases[t]);
    ProtectedFewer(s.mutexes[m], s.kernel.prio, Limit(s), t);
    ProtectedMutex(s.mutexes, s.kernel.prio, Limit(s), m, u.mutexes[m]);
    SameHeld(s.held, s.mutexes, m, u.mutexes[m]);
  }

  /** The priority of a task that holds nothing protects nobody. */
  lemma ProtectedOther(mutexes: map<int, Mutex>, prio: map<int, nat>, limit: nat, t: int, p: nat)
    requires ProtectedAll(mutexes, prio, limit) && forall l :: l in mutexes ==> mutexes[l].holder != Some(t)
    ensures ProtectedAll(mutexes, prio[t := p], limit)
  {
  }

  lemma RousedLists(s: State, m: int, x: Mutex)
    requires Good(s) && m in s.mutexes && x.waiters ==
      if s.mutexes[m].waiters == [] then [] else s.mutexes[m].waiters[1..]
    ensures ListsOk(s.mutexes[m := x], Roused(s.phases, s.mutexes[m].waiters), s.base, Limit(s))
    ensures forall held :: PhasesOk(s.phases, held, s.mutexes.Keys) ==>
      PhasesOk(Roused(s.phases, s.mutexes[m].waiters), held, s.mutexes.Keys)
  {
    hide KernelRuns.Good, PrioOk, HeldOk, HolderOk, ListsOk, ProtectedAll, Without, Protected, Sorted;
    var xs := s.mutexes[m].waiters;
    ListAt(s, m);
    if xs == [] {
      ListsMutex(s.mutexes, s.phases, s.base, Limit(s), m, x);
    } else {
      var t := xs[0].owner;
      HeadWithout(xs);
      ListsWithout(s.mutexes, s.phases, s.base, Limit(s), m, x, t, Trying(m, s.phases[t].inherited));
    }
  }

  /** Lowering the giver's priority, once it holds nothing more. */
  lemma DisinheritGood(s: State, t: int, m: int, x: Mutex)
    requires Good(s) && m in s.mutexes && s.mutexes[m].holder == Some(t) && x.holder == None
    requires t in s.held && PrioOf(s.held, t) > 0 && t in s.kernel.prio && PrioOf(s.base, t) < Limit(s)
    ensures var n := PrioOf(s.held, t) - 1;
            var k := Disinherit(s.kernel, s.base, n, t);
            && KernelRuns.Good(k) && |k.ready| == Limit(s)
            && PrioOk(k.prio, s.base, s.held[t := n], Limit(s))
            && HeldOk(s.held[t := n], s.mutexes[m := x])
            && ProtectedAll(s.mutexes[m := x], k.prio, Limit(s))
  {
    hide KernelRuns.Good, HeldOk, HolderOk, ListsOk, ProtectedAll, WaitersOk, SetPrio, PhasesOk;
    var n := PrioOf(s.held, t) - 1;
    SameKeys(s);
    GivenHeld(s.held, s.mutexes, m, x, t);
    ProtectedMutex(s.mutexes, s.kernel.prio, Limit(s), m, x);
    if Prio(s.kernel, t) != PrioOf(s.base, t) && n == 0 {
      SetPrioGood(s.kernel, t, PrioOf(s.base, t));
      ProtectedOther(s.mutexes[m := x], s.kernel.prio, Limit(s), t, PrioOf(s.base, t));
    }
  }

  lemma GiveGood(s: State, t: int, m: int)
    requires Good(s) && Enabled(s, Give(t, m))
    ensures Good(Apply(s, Give(t, m)))
  {
    hide KernelRuns.Good, PrioOk, HeldOk, ListsOk, ProtectedAll, Protected, Disinherit, Roused;
    var u := Apply(s, Give(t, m));
    HolderCounts(s, t, m);
    DisinheritGood(s, t, m, u.mutexes[m]);
    RousedLists(s, m, u.mutexes[m]);
    assert PhasesOk(s.phases, u.held, s.mutexes.Keys);
  }

  /** After a timeout the holder of this one mutex is still as urgent as its most urgent waiter. */
  lemma RelievedGood(s: State, m: int)
    requires Good(s) && m in s.mutexes
    requires HighestWaiting(Limit(s), s.mutexes[m]) < Limit(s)
    requires s.mutexes[m].holder.Some?
      ==> s.mutexes[m].holder.value in s.kernel.prio && PrioOf(s.base, s.mutexes[m].holder.value) < Limit(s)
    ensures var k := Relieved(s, m);
            KernelRuns.Good(k) && |k.ready| == Limit(s) && PrioOk(k.prio, s.base, s.held, Limit(s))
              && ProtectedAll(s.mutexes, k.prio, Limit(s))
            && k.prio.Keys == s.kernel.prio.Keys
  {
    hide KernelRuns.Good, HeldOk, HolderOk, ListsOk, ProtectedAll, WaitersOk, SetPrio, PhasesOk, HeldBy;
    SameKeys(s);
    var x := s.mutexes[m];
    if x.holder.Some? {
      var h, highest := x.holder.value, HighestWaiting(Limit(s), x);
      var p := if PrioOf(s.base, h) < highest then highest else PrioOf(s.base, h);
      if Prio(s.kernel, h) != p && PrioOf(s.held, h) == 1 {
        SetPrioGood(s.kernel, h, p);
        OneHeld(s.held, s.mutexes, h);
        OnlyOne(s.mutexes, m, h);
        HeadHighest(s, m, p);
        ProtectedExcept(s.mutexes, s.kernel.prio, Limit(s), m, h, p);
      }
    }
  }

  /** A waiter's item value stands for its priority, which nobody has raised. */
  lemma WaiterPriority(s: State, m: int, i: nat)
    requires Good(s) && m in s.mutexes && i < |s.mutexes[m].waiters|
    ensures Limit(s) - s.mutexes[m].waiters[i].value == Prio(s.kernel, s.mutexes[m].waiters[i].owner)
  {
    hide KernelRuns.Good, HeldOk, HolderOk, ListsOk, ProtectedAll;
    ListAt(s, m);
  }

  /** The head waiter is a most urgent one. */
  lemma HighestIsMost(s: State, m: int)
    requires Good(s) && m in s.mutexes
    ensures var xs, p := s.mutexes[m].waiters, HighestWaiting(Limit(s), s.mutexes[m]);
            && (forall i :: 0 <= i < |xs| ==> Prio(s.kernel, xs[i].owner) <= p)
            && (xs != [] ==> Prio(s.kernel, xs[0].owner) == p)
  {
    hide KernelRuns.Good, HeldOk, HolderOk, PrioOk, PhasesOk, ListsOk, ProtectedAll, Prio;
    var xs := s.mutexes[m].waiters;
    ListAt(s, m);
    forall i | 0 <= i < |xs|
      ensures Limit(s) - xs[i].value == Prio(s.kernel, xs[i].owner)
    {
      WaiterPriority(s, m, i);
    }
  }

  lemma OneHeld(held: map<int, nat>, mutexes: map<int, Mutex>, h: int)
    requires HeldOk(held, mutexes) && h in held
    ensures held[h] == |HeldBy(mutexes, h)|
  {
  }

  lemma HeadHighest(s: State, m: int, p: nat)
    requires Good(s) && m in s.mutexes && HighestWaiting(Limit(s), s.mutexes[m]) <= p
    requires s.mutexes[m].holder.Some?
    ensures Protected(s.mutexes[m], s.kernel.prio[s.mutexes[m].holder.value := p], Limit(s))
  {
  }

  lemma ProtectedExcept(mutexes: map<int, Mutex>, prio: map<int, nat>, limit: nat, m: int, h: int, p: nat)
    requires ProtectedAll(mutexes, prio, limit) && m in mutexes && Protected(mutexes[m], prio[h := p], limit)
    requires forall l :: l in mutexes && l != m ==> mutexes[l].holder != Some(h)
    ensures ProtectedAll(mutexes, prio[h := p], limit)
  {
  }

  lemma LeaveGood(s: State, t: int)
    requires Good(s) && Enabled(s, Leave(t))
    ensures Good(Apply(s, Leave(t)))
  {
    hide KernelRuns.Good, PrioOk, HeldOk, ListsOk, ProtectedAll, Protected, Relieved;
    var m := s.phases[t].mutex;
    HighestFits(s, m);
    RelievedGood(s, m);
    ListsPhase(s.mutexes, s.phases, s.base, Limit(s), t, Idle);
  }

  /** No scheduler step changes the number of priorities. */
  lemma SamePriorities(k: KernelSpec.State, op: Op)
    requires KernelRuns.Good(k) && KernelRuns.Enabled(k, op)
    ensures |KernelRuns.Apply(k, op).ready| == |k.ready|
  {
    hide QueueOk, BlockedOk, OnePlace, Drained, Replayed, ReadyAll;
    match op
    case OpTick =>
    case OpSuspend =>
    case OpResume =>
    case OpSwitch =>
    case OpEvent(_) =>
    case OpRelease(_) =>
    case OpBlock(_, _, _) =>
  }

  lemma ElsewhereGood(s: State, op: Op)
    requires Good(s) && Enabled(s, Elsewhere(op))
    ensures Good(Apply(s, Elsewhere(op)))
  {
    hide KernelRuns.Good, KernelRuns.Apply, KernelRuns.Enabled, PrioOk, HeldOk, HolderOk, ListsOk, ProtectedAll,
         PhasesOk;
    KernelRuns.StepGood(s.kernel, op);
    SamePriorities(s.kernel, op);
  }

  lemma StepGood(s: State, e: Step)
    requires Good(s) && Enabled(s, e)
    ensures Good(Apply(s, e))
  {
    hide Good, Apply, Enabled;
    match e
    case Take(t) => TakeGood(s, t);
    case Block(t) => BlockGood(s, t);
    case Timeout(t) => TimeoutGood(s, t);
    case Leave(t) => LeaveGood(s, t);
    case Give(t, m) => GiveGood(s, t, m);
    case Elsewhere(op) => ElsewhereGood(s, op);
    case _ => MoveGood(s, e);
  }

  // ---------------------------------------------------------------- runs

  ghost predicate Follows(s: State, e: Step, u: State) {
    Good(s) ==> Enabled(s, e) && u == Apply(s, e)
  }

  ghost predicate Run(states: seq<State>, steps: seq<Step>) {
    && |states| == |steps| + 1 && Good(states[0])
    && (forall k :: 0 <= k < |steps| ==> Follows(states[k], steps[k], states[k + 1]))
  }

  lemma {:induction false} RunGood(states: seq<State>, steps: seq<Step>, k: nat)
    requires Run(states, steps) && k <= |steps|
    ensures Good(states[k])
    ensures k < |steps| ==> Enabled(states[k], steps[k]) && states[k + 1] == Apply(states[k], steps[k])
  {
    hide Good, Enabled, Apply;
    if k > 0 {
      RunGood(states, steps, k - 1);
      StepGood(states[k - 1], steps[k - 1]);
    }
    assert k < |steps| ==> Follows(states[k], steps[k], states[k + 1]);
  }

  /**
   Priority inheritance over every run: held counts are right, a mutex is available exactly when it
   has no holder, nobody runs below its base priority or above it without holding a mutex, and the
   holder of a mutex is at least as urgent as every waiter that blocked since it took the mutex.
   */
  lemma InheritanceHolds(states: seq<State>, steps: seq<Step>, k: nat)
    requires Run(states, steps) && k <= |steps|
    ensures var s := states[k];
            && (forall t :: t in s.held ==> s.held[t] == |HeldBy(s.mutexes, t)|)
            && (forall m :: m in s.mutexes ==> (s.mutexes[m].available <==> s.mutexes[m].holder == None))
            && (forall t :: t in s.held ==> PrioOf(s.base, t) <= Prio(s.kernel, t))
            && (forall t :: t in s.held && HeldBy(s.mutexes, t) == {} ==> Prio(s.kernel, t) == PrioOf(s.base, t))
  {
    hide KernelRuns.Good, ListsOk, PhasesOk, ProtectedAll, HeldBy, Follows;
    RunGood(states, steps, k);
  }

  lemma HolderIsUrgent(states: seq<State>, steps: seq<Step>, k: nat, m: int, i: nat)
    requires Run(states, steps) && k <= |steps| && m in states[k].mutexes
    requires states[k].mutexes[m].holder.Some? && i < |states[k].mutexes[m].waiters|
    requires states[k].mutexes[m].waiters[i].owner in states[k].mutexes[m].since
    ensures var s := states[k];
            Prio(s.kernel, s.mutexes[m].holder.value) >= Prio(s.kernel, s.mutexes[m].waiters[i].owner)
  {
    hide KernelRuns.Good, HeldOk, HolderOk, ListsOk, ProtectedAll, Follows;
    var s := states[k];
    RunGood(states, steps, k);
    ListAt(s, m);
  }

  // ---------------------------------------------------------------- waiters of an earlier holding

  /** The holder is at least as urgent as every waiter, whenever that blocked. */
  ghost predicate Urgent(x: Mutex, prio: map<int, nat>, limit: nat) {
    x.holder.Some? ==> forall i :: 0 <= i < |x.waiters| ==> limit - x.waiters[i].value <= PrioOf(prio, x.holder.value)
  }

  ghost predicate AllUrgentIn(mutexes: map<int, Mutex>, prio: map<int, nat>, limit: nat) {
    forall m :: m in mutexes ==> Urgent(mutexes[m], prio, limit)
  }

  ghost predicate AllUrgent(s: State) { AllUrgentIn(s.mutexes, s.kernel.prio, Limit(s)) }

  /** The mutex a task is about to take has no waiter more urgent than the task. */
  predicate TakesOverNobody(s: State, t: int) {
    PhaseOf(s, t).Trying? && PhaseOf(s, t).mutex in s.mutexes ==>
      var xs := s.mutexes[PhaseOf(s, t).mutex].waiters;
      xs == [] || Limit(s) - xs[0].value <= Prio(s.kernel, t)
  }

  lemma UrgentMutex(mutexes: map<int, Mutex>, prio: map<int, nat>, limit: nat, m: int, x: Mutex)
    requires AllUrgentIn(mutexes, prio, limit) && m in mutexes
    ensures AllUrgentIn(mutexes[m := x], prio, limit) <==> Urgent(x, prio, limit)
  {
    hide Urgent;
    assert m in mutexes[m := x];
  }

  lemma UrgentRaised(mutexes: map<int, Mutex>, prio: map<int, nat>, limit: nat, h: int, p: nat)
    requires AllUrgentIn(mutexes, prio, limit) && PrioOf(prio, h) <= p
    ensures AllUrgentIn(mutexes, prio[h := p], limit)
  {
  }

  lemma UrgentOther(mutexes: map<int, Mutex>, prio: map<int, nat>, limit: nat, h: int, p: nat)
    requires AllUrgentIn(mutexes, prio, limit) && forall l :: l in mutexes ==> mutexes[l].holder != Some(h)
    ensures AllUrgentIn(mutexes, prio[h := p], limit)
  {
  }

  lemma UrgentExcept(mutexes: map<int, Mutex>, prio: map<int, nat>, limit: nat, m: int, h: int, p: nat)
    requires AllUrgentIn(mutexes, prio, limit) && m in mutexes && Urgent(mutexes[m], prio[h := p], limit)
    requires forall l :: l in mutexes && l != m ==> mutexes[l].holder != Some(h)
    ensures AllUrgentIn(mutexes, prio[h := p], limit)
  {
  }

  lemma UrgentAt(mutexes: map<int, Mutex>, prio: map<int, nat>, limit: nat, m: int)
    requires AllUrgentIn(mutexes, prio, limit) && m in mutexes
    ensures Urgent(mutexes[m], prio, limit)
  {
  }

  /** The head of a list in priority order speaks for all of it. */
  lemma UrgentHead(x: Mutex, prio: map<int, nat>, limit: nat)
    requires Sorted(x.waiters) && x.holder.Some?
    ensures Urgent(x, prio, limit) <==> x.waiters == [] || limit - x.waiters[0].value <= PrioOf(prio, x.holder.value)
  {
  }

  /**
   Taking a mutex leaves every holder at least as urgent as all its waiters if and only if no waiter of
   that mutex, left over from an earlier holding, is more urgent than the taker.
   */
  lemma TakeUrgent(s: State, t: int)
    requires Good(s) && Enabled(s, Take(t)) && AllUrgent(s)
    ensures AllUrgent(Apply(s, Take(t))) <==> TakesOverNobody(s, t)
  {
    hide KernelRuns.Good, HeldOk, PrioOk, HolderOk, PhasesOk, ListsOk, ProtectedAll, Protected, AllUrgentIn, Urgent,
         Sorted;
    var m := s.phases[t].mutex;
    var u := Apply(s, Take(t));
    TryingKnown(s, t);
    ListAt(s, m);
    UrgentHead(u.mutexes[m], s.kernel.prio, Limit(s));
    UrgentMutex(s.mutexes, s.kernel.prio, Limit(s), m, u.mutexes[m]);
  }

  lemma TryingKnown(s: State, t: int)
    requires Good(s) && PhaseOf(s, t) != Idle
    ensures t in s.phases && s.phases[t].mutex in s.mutexes
  {
  }

  lemma WaiterUrgent(x: Mutex, prio: map<int, nat>, limit: nat, t: int, p: nat)
    requires Urgent(x, prio, limit) && x.holder.Some? && p <= PrioOf(prio, x.holder.value)
    ensures Urgent(x.(waiters := InsertSorted(x.waiters, Item(limit - p, t)), since := x.since + {t}), prio, limit)
  {
    hide InsertSorted;
    var r := InsertSorted(x.waiters, Item(limit - p, t));
    forall i | 0 <= i < |r|
      ensures limit - r[i].value <= PrioOf(prio, x.holder.value)
    {
      Inserted(x.waiters, Item(limit - p, t), i);
    }
  }

  /** Inheritance sees to it for a task that blocks. */
  lemma BlockUrgent(s: State, t: int)
    requires Good(s) && Enabled(s, Block(t)) && AllUrgent(s)
    ensures AllUrgent(Apply(s, Block(t)))
  {
    hide KernelRuns.Good, HeldOk, PrioOk, ListsOk, ProtectedAll, Protected, AllUrgentIn, Urgent, SetPrio, InsertSorted;
    var m := s.phases[t].mutex;
    var x := s.mutexes[m];
    var h := x.holder.value;
    var u := Apply(s, Block(t));
    SameKeys(s);
    HolderCounts(s, h, m);
    if Prio(s.kernel, h) < Prio(s.kernel, t) {
      UrgentRaised(s.mutexes, s.kernel.prio, Limit(s), h, Prio(s.kernel, t));
    }
    UrgentAt(s.mutexes, u.kernel.prio, Limit(s), m);
    WaiterUrgent(x, u.kernel.prio, Limit(s), t, Prio(s.kernel, t));
    UrgentMutex(s.mutexes, u.kernel.prio, Limit(s), m, u.mutexes[m]);
  }

  /** A mutex given back has no holder, and the giver is lowered only when it holds nothing more. */
  lemma GiveUrgent(s: State, t: int, m: int)
    requires Good(s) && Enabled(s, Give(t, m)) && AllUrgent(s)
    ensures AllUrgent(Apply(s, Give(t, m)))
  {
    hide KernelRuns.Good, HeldOk, PrioOk, ListsOk, ProtectedAll, Protected, AllUrgentIn, SetPrio, Roused;
    var u := Apply(s, Give(t, m));
    SameKeys(s);
    HolderCounts(s, t, m);
    UrgentMutex(s.mutexes, s.kernel.prio, Limit(s), m, u.mutexes[m]);
    if u.kernel != s.kernel {
      assert HeldOk(s.held, s.mutexes);
      GivenHeld(s.held, s.mutexes, m, u.mutexes[m], t);
      UrgentOther(u.mutexes, s.kernel.prio, Limit(s), t, PrioOf(s.base, t));
    }
  }

  /** After a timeout the holder drops no further than its most urgent waiter. */
  lemma LeaveUrgent(s: State, t: int)
    requires Good(s) && Enabled(s, Leave(t)) && AllUrgent(s)
    ensures AllUrgent(Apply(s, Leave(t)))
  {
    hide KernelRuns.Good, HeldOk, PrioOk, ListsOk, ProtectedAll, Protected, AllUrgentIn, Urgent, SetPrio, HeldBy,
         Sorted;
    var m := s.phases[t].mutex;
    var u := Apply(s, Leave(t));
    var x := s.mutexes[m];
    SameKeys(s);
    HighestFits(s, m);
    ListAt(s, m);
    if u.kernel != s.kernel {
      var h := x.holder.value;
      OneHeld(s.held, s.mutexes, h);
      OnlyOne(s.mutexes, m, h);
      UrgentHead(x, u.kernel.prio, Limit(s));
      UrgentExcept(s.mutexes, s.kernel.prio, Limit(s), m, h, Prio(u.kernel, h));
    }
  }

  /**
   A timeout even makes up for a mutex that was taken over: when a task leaves whose wait made somebody
   inherit, a holder of just this mutex ends up at least as urgent as every waiter, raised if need be.
   */
  lemma LeaveMakesUrgent(s: State, t: int)
    requires Good(s) && Enabled(s, Leave(t)) && s.phases[t].inherited
    requires var x := s.mutexes[s.phases[t].mutex]; x.holder.Some? ==> PrioOf(s.held, x.holder.value) == 1
    ensures var u := Apply(s, Leave(t)); Urgent(u.mutexes[s.phases[t].mutex], u.kernel.prio, Limit(u))
  {
    hide KernelRuns.Good, HeldOk, PrioOk, ListsOk, ProtectedAll, Protected, Urgent, SetPrio, HeldBy, Sorted;
    var m := s.phases[t].mutex;
    SameKeys(s);
    HighestFits(s, m);
    ListAt(s, m);
    if s.mutexes[m].holder.Some? {
      UrgentHead(s.mutexes[m], Apply(s, Leave(t)).kernel.prio, Limit(s));
    } else {
      NobodyUrgent(s.mutexes[m], Apply(s, Leave(t)).kernel.prio, Limit(s));
    }
  }

  lemma NobodyUrgent(x: Mutex, prio: map<int, nat>, limit: nat)
    requires x.holder.None?
    ensures Urgent(x, prio, limit)
  {
  }

  lemma FewerUrgent(x: Mutex, prio: map<int, nat>, limit: nat, t: int)
    requires Urgent(x, prio, limit)
    ensures Urgent(x.(waiters := Without(x.waiters, t)), prio, limit)
  {
  }

  lemma ElsewhereUrgent(s: State, op: Op)
    requires Good(s) && Enabled(s, Elsewhere(op)) && AllUrgent(s)
    ensures AllUrgent(Apply(s, Elsewhere(op)))
  {
    hide KernelRuns.Good, KernelRuns.Apply, KernelRuns.Enabled, AllUrgentIn;
    SamePriorities(s.kernel, op);
  }

  lemma StepUrgent(s: State, e: Step)
    requires Good(s) && Enabled(s, e) && AllUrgent(s) && (e.Take? ==> TakesOverNobody(s, e.task))
    ensures AllUrgent(Apply(s, e))
  {
    hide KernelRuns.Good, HeldOk, PrioOk, HolderOk, PhasesOk, ListsOk, ProtectedAll, AllUrgentIn, Urgent,
         TakesOverNobody, Without;
    match e
    case Take(t) => TakeUrgent(s, t);
    case Block(t) => BlockUrgent(s, t);
    case Leave(t) => LeaveUrgent(s, t);
    case Give(t, m) => GiveUrgent(s, t, m);
    case Elsewhere(op) => ElsewhereUrgent(s, op);
    case Timeout(t) =>
      var m := s.phases[t].mutex;
      TryingKnown(s, t);
      UrgentAt(s.mutexes, s.kernel.prio, Limit(s), m);
      FewerUrgent(s.mutexes[m], s.kernel.prio, Limit(s), t);
      UrgentMutex(s.mutexes, s.kernel.prio, Limit(s), m, Apply(s, e).mutexes[m]);
    case _ =>
  }

  lemma {:induction false} UrgentAlong(states: seq<State>, steps: seq<Step>, k: nat)
    requires Run(states, steps) && k <= |steps| && AllUrgent(states[0])
    requires forall j :: 0 <= j < k && steps[j].Take? ==> TakesOverNobody(states[j], steps[j].task)
    ensures AllUrgent(states[k])
  {
    hide Good, Enabled, Apply, AllUrgent, TakesOverNobody;
    if k > 0 {
      UrgentAlong(states, steps, k - 1);
      RunGood(states, steps, k - 1);
      StepUrgent(states[k - 1], steps[k - 1]);
    }
  }

  /**
   In every run in which no mutex is taken over the head of a more urgent waiter, every holder is at
   least as urgent as every waiter of its mutex, in every state and whenever the waiter blocked.
   */
  lemma HolderIsMostUrgent(states: seq<State>, steps: seq<Step>, k: nat, m: int, i: nat)
    requires Run(states, steps) && k <= |steps| && AllUrgent(states[0])
    requires forall j :: 0 <= j < k && steps[j].Take? ==> TakesOverNobody(states[j], steps[j].task)
    requires m in states[k].mutexes && states[k].mutexes[m].holder.Some? && i < |states[k].mutexes[m].waiters|
    ensures var s := states[k];
            Prio(s.kernel, s.mutexes[m].holder.value) >= Prio(s.kernel, s.mutexes[m].waiters[i].owner)
  {
    hide KernelRuns.Good, HeldOk, HolderOk, ListsOk, ProtectedAll, Follows, TakesOverNobody;
    var s := states[k];
    UrgentAlong(states, steps, k);
    RunGood(states, steps, k);
    ListAt(s, m);
  }

  /** Task 1 holds mutex 0 with the priority 5 of task 2, which waits for it in front of task 3; its own is 1. */
  function Contended(): State {
    var prio := map[1 := 5, 2 := 5, 3 := 4];
    State.State(
      Created(prio, 6, [2, 3, 1]), map[1 := 1, 2 := 5, 3 := 4], map[1 := 1, 2 := 0, 3 := 0],
      map[0 := Mutex(Some(1), false, [Item(1, 2), Item(2, 3)], {2, 3})],
      map[2 := Waiting(0, true), 3 := Waiting(0, true)])
  }

  lemma ContendedCounts()
    ensures var s := Contended();
            && PrioOk(s.kernel.prio, s.base, s.held, 6) && HeldOk(s.held, s.mutexes)
            && HolderOk(s.mutexes, s.kernel.prio.Keys) && PhasesOk(s.phases, s.held, s.mutexes.Keys)
  {
    hide Created, KernelRuns.Good;
    var s := Contended();
    assert HeldBy(s.mutexes, 1) == {0} && HeldBy(s.mutexes, 2) == {} && HeldBy(s.mutexes, 3) == {};
  }

  lemma ContendedLists()
    ensures var s := Contended();
            && ListsOk(s.mutexes, s.phases, s.base, 6) && AllUrgentIn(s.mutexes, s.kernel.prio, 6)
            && ProtectedAll(s.mutexes, s.kernel.prio, 6)
  {
    hide Created;
  }

  lemma ContendedGood()
    ensures var s := Contended(); Good(s) && AllUrgent(s) && Limit(s) == 6 && s.kernel.current == 1
  {
    hide Created, KernelRuns.Good, PrioOk, HeldOk, HolderOk, PhasesOk, ListsOk, ProtectedAll, AllUrgentIn;
    var prio := map[1 := 5, 2 := 5, 3 := 4];
    KernelRuns.FreshGood(prio, 6, [2, 3, 1]);
    CreatedLast(prio);
    ContendedCounts();
    ContendedLists();
  }

  /** Of equally urgent tasks the last one created runs first. */
  lemma CreatedLast(prio: map<int, nat>)
    requires prio == map[1 := 5, 2 := 5, 3 := 4]
    ensures Created(prio, 6, [2, 3, 1]).current == 1
  {
    hide RingsOk, InsertEnd;
    assert [2, 3, 1][..2] == [2, 3] && [2, 3][..1] == [2] && [2][..0] == [];
  }

  lemma ContendedGiven() returns (u: State)
    ensures Good(Contended()) && Enabled(Contended(), Give(1, 0)) && u == Apply(Contended(), Give(1, 0)) && Good(u)
    ensures u.mutexes == map[0 := Mutex(None, true, [Item(2, 3)], {2, 3})] && PhaseOf(u, 1) == Idle
    ensures u.kernel.current == 1 && u.kernel.prio == map[1 := 1, 2 := 5, 3 := 4] && Limit(u) == 6 && AllUrgent(u)
  {
    hide KernelRuns.Good, Created, AddReady, ListsOk, ProtectedAll, Protected, PrioOk, HeldOk, HolderOk, PhasesOk,
         AllUrgentIn;
    var s := Contended();
    ContendedGood();
    HolderCounts(s, 1, 0);
    StepGood(s, Give(1, 0));
    GiveUrgent(s, 1, 0);
    u := Apply(s, Give(1, 0));
    assert s.mutexes[0].waiters[1..] == [Item(2, 3)];
    SetPrioRest(s.kernel, 1, 1);
  }

  lemma SetPrioRest(k: KernelSpec.State, t: int, p: nat)
    requires RingsOk(k) && p < |k.ready|
    ensures SetPrio(k, t, p).current == k.current
  {
  }

  /**
   A run in which a holder gives the mutex back and takes it again before the woken task has run: the
   second waiter is left over, and more urgent than the holder.
   */
  lemma RetakeLeavesWaiter() returns (states: seq<State>)
    ensures |states| == 4 && states[0] == Contended() && Run(states, [Give(1, 0), Call(1, 0), Take(1)])
    ensures AllUrgent(states[0]) && AllUrgent(states[1]) && AllUrgent(states[2]) && !TakesOverNobody(states[2], 1)
    ensures var w := states[3];
            && 0 in w.mutexes && w.mutexes[0].holder == Some(1) && w.mutexes[0].waiters == [Item(2, 3)]
            && Prio(w.kernel, 1) == 1 && Prio(w.kernel, 3) == 4 && !AllUrgent(w)
  {
    hide KernelRuns.Good, Contended, AllUrgentIn, ListsOk, ProtectedAll, PrioOk, HeldOk, HolderOk, PhasesOk;
    var u := ContendedGiven();
    ContendedGood();
    StepGood(u, Call(1, 0));
    var v := Apply(u, Call(1, 0));
    StepUrgent(u, Call(1, 0));
    TakeUrgent(v, 1);
    states := [Contended(), u, v, Apply(v, Take(1))];
  }

  /** A scheduler state with no mutex in use starts a run. */
  lemma FreshGood(k: KernelSpec.State, mutexes: set<int>)
    requires KernelRuns.Good(k)
    ensures Good(State.State(k, k.prio, map t | t in k.prio :: 0, map m | m in mutexes :: Mutex(None, true, [], {}),
      map[]))
  {
  }
}
