/**
 The scheduler in unbounded time: one queue of blocked tasks ordered by true wake time,
 instead of two lists of wrapped ones. Module Kernel proves that the 32-bit code behaves
 like this; the run properties are proved here.
 */
module KernelSpec {
  import opened Ticks
  import opened ListSpec

  datatype State = State(
    now: nat,                // ticks processed since start
    pended: int,             // ticks counted while the scheduler was suspended (32-bit)
    lost: int,               // ticks that disappeared because that count wrapped
    suspended: nat,          // nesting depth of vTaskSuspendAll
    queue: seq<Item>,        // blocked with a deadline: true wake time and task
    forever: seq<Item>,      // blocked without a deadline
    pendingReady: seq<int>,  // readied by an event while suspended
    onEvent: set<int>,       // tasks whose event list item is on an event list
    ready: seq<Ring>,        // one ring per priority
    top: nat,                // uxTopReadyPriority
    current: int,
    yieldPending: bool,
    prio: map<int, nat>
  )

  function PrioOf(prio: map<int, nat>, t: int): nat {
    if t in prio then prio[t] else 0
  }

  function Prio(s: State, t: int): nat {
    PrioOf(s.prio, t)
  }

  function WithoutRing(r: Ring, t: int): Ring
    requires r.Ok()
  {
    var i := Find(r.items, t);
    if i < 0 then r else Remove(r, i)
  }

  // ---------------------------------------------------------------- state invariant

  ghost predicate RingsOk(s: State) {
    && (forall p :: 0 <= p < |s.ready| ==> s.ready[p].Ok())
    && |s.ready| > 0
    && (forall t :: t in s.prio ==> s.prio[t] < |s.ready|)
  }

  /** uxTopReadyPriority bounds every ready priority, and every ready task is filed under its own. */
  ghost predicate ReadyOk(top: int, ready: seq<Ring>, prio: map<int, nat>) {
    && 0 <= top < |ready|
    && (forall p :: top < p < |ready| ==> ready[p].items == [])
    && (forall p, i :: 0 <= p < |ready| && 0 <= i < |ready[p].items| ==> PrioOf(prio, ready[p].items[i].owner) == p)
  }

  /** Deadlines are ahead of time by less than a full tick turn. */
  ghost predicate DeadlineOk(now: int, d: int) {
    now <= d < now + M && (d == now ==> Wrap(now) != MAX_DELAY)
  }

  ghost predicate QueueOk(now: int, queue: seq<Item>) {
    && Sorted(queue)
    && (forall i :: 0 <= i < |queue| ==> DeadlineOk(now, queue[i].value))
  }

  ghost predicate CountsOk(s: State) {
    0 <= s.pended < M && 0 <= s.lost && s.lost % M == 0 && (s.suspended == 0 ==> s.pendingReady == [] && s.pended == 0)
  }

  // ---------------------------------------------------------------- creation

  /** prvInitialiseTaskLists, for tasks with the given priorities below limit */
  function NoTasks(prio: map<int, nat>, limit: nat): State {
    State(0, 0, 0, 0, [], [], [], {}, seq(limit, _ => EMPTY), 0, 0, false, prio)
  }

  /** The tasks created, in this order, before the scheduler starts: prvAddNewTaskToReadyList */
  function Created(prio: map<int, nat>, limit: nat, tasks: seq<int>): (r: State)
    requires limit > 0 && forall t :: t in prio ==> prio[t] < limit
    ensures RingsOk(r) && r.prio == prio && |r.ready| == limit
    decreases |tasks|
  {
    if tasks == [] then NoTasks(prio, limit)
    else
      var u, t := Created(prio, limit, tasks[..|tasks| - 1]), tasks[|tasks| - 1];
      AddReady(u.(current := if |tasks| == 1 || Prio(u, u.current) <= Prio(u, t) then t else u.current), t)
  }

  // ---------------------------------------------------------------- steps

  /** prvAddTaskToReadyList */
  function AddReady(s: State, t: int): (r: State)
    requires RingsOk(s)
    ensures r.prio == s.prio && |r.ready| == |s.ready|
  {
    var p := Prio(s, t);
    s.(top := if p > s.top then p else s.top, ready := s.ready[p := InsertEnd(s.ready[p], Item(0, t))])
  }

  /** Readies the owners of xs in order, taking them off their event lists. */
  function ReadyAll(s: State, xs: seq<Item>): (r: State)
    requires RingsOk(s)
    ensures RingsOk(r) && |r.ready| == |s.ready| && r.prio == s.prio
    ensures r.now == s.now && r.queue == s.queue && r.forever == s.forever && r.pended == s.pended && r.lost == s.lost
    ensures r.suspended == s.suspended && r.pendingReady == s.pendingReady && r.current == s.current
    ensures r.yieldPending == s.yieldPending
    decreases |xs|
  {
    if xs == [] then s
    else
      var q := ReadyAll(s, xs[..|xs| - 1]);
      var t := xs[|xs| - 1].owner;
      AddReady(q.(onEvent := q.onEvent - {t}), t)
  }

  /** One processed tick: everything due by the new time is readied, in queue order. */
  function Tick(s: State): (r: State)
    requires RingsOk(s)
    ensures r.prio == s.prio
  {
    var n := s.now + 1;
    var k := Pos(s.queue, n);
    ReadyAll(s.(now := n, queue := s.queue[k..]), s.queue[..k])
  }

  /** Whether that tick asks for a context switch. */
  predicate TickSwitches(s: State)
    requires RingsOk(s)
  {
    || (exists i :: 0 <= i < Pos(s.queue, s.now + 1) && Prio(s, s.queue[i].owner) >= Prio(s, s.current))
    || |Tick(s).ready[Prio(s, s.current)].items| > 1
    || s.yieldPending
  }

  /** n ticks replayed by xTaskResumeAll, remembering whether any of them asked for a switch. */
  function Replayed(s: State, n: nat): (r: State)
    requires RingsOk(s)
    ensures RingsOk(r) && |r.ready| == |s.ready| && r.prio == s.prio
  {
    if n == 0 then s
    else
      var u := Replayed(s, n - 1);
      Tick(u).(yieldPending := TickSwitches(u))
  }

  /** xTaskIncrementTick */
  function Increment(s: State): (r: State)
    requires RingsOk(s)
    ensures r.prio == s.prio
  {
    if s.suspended == 0 then Tick(s)
    else if s.pended + 1 == M then s.(pended := 0, lost := s.lost + M)
    else s.(pended := s.pended + 1)
  }

  /** Takes a task off the list its state item is on. */
  function Unlist(s: State, t: int): (r: State)
    ensures r.prio == s.prio
  {
    if Find(s.queue, t) >= 0 then s.(queue := Without(s.queue, t)) else s.(forever := Without(s.forever, t))
  }

  /** The pending ready list is drained, oldest first. */
  function Drained(s: State): (r: State)
    requires RingsOk(s)
    ensures RingsOk(r) && |r.ready| == |s.ready| && r.pended == s.pended && r.pendingReady == [] && r.prio == s.prio
    decreases |s.pendingReady|
  {
    if s.pendingReady == [] then s
    else
      var t := s.pendingReady[0];
      var u := AddReady(Unlist(s.(pendingReady := s.pendingReady[1..]), t), t);
      Drained(if Prio(s, t) >= Prio(s, s.current) then u.(yieldPending := true) else u)
  }

  /** xTaskResumeAll */
  function Resume(s: State): (r: State)
    requires RingsOk(s) && s.suspended > 0
    ensures r.prio == s.prio
  {
    var u := s.(suspended := s.suspended - 1);
    if u.suspended > 0 then u
    else
      var v := Drained(u);
      Replayed(v, if v.pended >= 0 then v.pended else 0).(pended := 0)
  }

  /** xTaskRemoveFromEventList for the task at the head of the event list. */
  function Event(s: State, t: int): (r: State)
    requires RingsOk(s)
    ensures r.prio == s.prio
  {
    var u := s.(onEvent := s.onEvent - {t}, yieldPending := s.yieldPending || Prio(s, t) > Prio(s, s.current));
    if s.suspended == 0 then AddReady(Unlist(u, t), t) else u.(pendingReady := u.pendingReady + [t])
  }

  /** vTaskRemoveFromUnorderedEventList: with the scheduler suspended, the task is readied at once. */
  function Release(s: State, t: int): (r: State)
    requires RingsOk(s)
    ensures r.prio == s.prio
  {
    AddReady(Unlist(s.(onEvent := s.onEvent - {t}, yieldPending := s.yieldPending || Prio(s, t) > Prio(s, s.current)),
      t), t)
  }

  /** prvAddCurrentTaskToDelayedList, optionally with the event list item on an event list. */
  function Block(s: State, ticks: int, indefinitely: bool, event: bool): (r: State)
    requires RingsOk(s)
    ensures r.prio == s.prio
  {
    var t := s.current;
    var p := Prio(s, t);
    var u := s.(ready := s.ready[p := WithoutRing(s.ready[p], t)],
      onEvent := if event then s.onEvent + {t} else s.onEvent);
    if ticks == MAX_DELAY && indefinitely then u.(forever := u.forever + [Item(0, t)])
    else u.(queue := InsertSorted(u.queue, Item(u.now + ticks, t)))
  }

  /** Highest priority with a ready task, searched downwards from p. */
  function TopFrom(ready: seq<Ring>, p: int): (r: int)
    requires -1 <= p < |ready|
    ensures -1 <= r <= p
    ensures forall q :: r < q <= p ==> ready[q].items == []
    ensures r >= 0 ==> ready[r].items != []
  {
    if p < 0 || ready[p].items != [] then p else TopFrom(ready, p - 1)
  }

  /** vTaskSwitchContext */
  function Switch(s: State): (r: State)
    requires RingsOk(s) && s.top < |s.ready|
    ensures r.prio == s.prio
  {
    if s.suspended > 0 then s.(yieldPending := true)
    else
      var p := TopFrom(s.ready, s.top);
      if p < 0 then s.(yieldPending := false)
      else s.(yieldPending := false, current := Picked(s.ready[p]).owner, top := p,
        ready := s.ready[p := Advance(s.ready[p])])
  }
}
