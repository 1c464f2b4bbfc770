/** What every run of the scheduler keeps: invariants, conservation of tasks, exact wake-up, choice. */
module KernelRuns {
  import opened Ticks
  import opened ListSpec
  import opened KernelSpec

  datatype Op = OpTick | OpSuspend | OpResume | OpSwitch
              | OpEvent(task: int)
              | OpRelease(task: int)  // by an event group
              | OpBlock(ticks: int, indefinitely: bool, event: bool)

  // ---------------------------------------------------------------- where tasks are

  function Owners(xs: seq<Item>): (r: seq<int>)
    ensures |r| == |xs| && forall i :: 0 <= i < |xs| ==> r[i] == xs[i].owner
  {
    seq(|xs|, i requires 0 <= i < |xs| => xs[i].owner)
  }

  function On(xs: seq<Item>): multiset<int> {
    multiset(Owners(xs))
  }

  function OnRings(rs: seq<Ring>): multiset<int> {
    if rs == [] then multiset{} else OnRings(rs[..|rs| - 1]) + On(rs[|rs| - 1].items)
  }

  /** How many state lists each task is on. */
  function Tally(s: State): multiset<int> {
    On(s.queue) + On(s.forever) + OnRings(s.ready)
  }

  function BlockedTasks(s: State): multiset<int> {
    On(s.queue) + On(s.forever)
  }

  lemma OnConcat(a: seq<Item>, b: seq<Item>)
    ensures On(a + b) == On(a) + On(b)
  {
    assert Owners(a + b) == Owners(a) + Owners(b);
  }

  lemma OnOne(x: Item)
    ensures On([x]) == multiset{x.owner}
  {
  }

  lemma OnInsert(s: seq<Item>, p: int, x: Item)
    requires 0 <= p <= |s|
    ensures On(InsertAt(s, p, x)) == On(s) + multiset{x.owner}
  {
    hide On;
    OnConcat(s[..p] + [x], s[p..]);
    OnConcat(s[..p], [x]);
    OnOne(x);
    OnConcat(s[..p], s[p..]);
    assert s == s[..p] + s[p..];
  }

  lemma OnRemove(s: seq<Item>, p: int)
    requires 0 <= p < |s|
    ensures On(s) == On(RemoveAt(s, p)) + multiset{s[p].owner}
  {
    hide On;
    OnInsert(RemoveAt(s, p), p, s[p]);
    assert InsertAt(RemoveAt(s, p), p, s[p]) == s;
  }

  lemma FindOn(s: seq<Item>, t: int)
    ensures Find(s, t) >= 0 <==> t in On(s)
  {
  }

  lemma OnWithout(s: seq<Item>, t: int)
    ensures t in On(s) ==> On(s) == On(Without(s, t)) + multiset{t}
    ensures t !in On(s) ==> Without(s, t) == s
  {
    hide On;
    FindOn(s, t);
    if Find(s, t) >= 0 {
      OnRemove(s, Find(s, t));
    }
  }

  lemma {:induction false} OnRingsUpdate(rs: seq<Ring>, p: int, r: Ring)
    requires 0 <= p < |rs|
    ensures OnRings(rs[p := r]) + On(rs[p].items) == OnRings(rs) + On(r.items)
  {
    hide On;
    var n := |rs| - 1;
    if p == n {
      assert rs[p := r][..n] == rs[..n];
    } else {
      OnRingsUpdate(rs[..n], p, r);
      assert rs[p := r][..n] == rs[..n][p := r];
      var a, b, l, x, y := OnRings(rs[..n][p := r]), OnRings(rs[..n]), On(rs[n].items), On(rs[p].items), On(r.items);
      assert (a + l) + x == (a + x) + l && (b + l) + y == (b + y) + l;
    }
  }

  lemma Cancel(a: multiset<int>, b: multiset<int>, x: multiset<int>, t: int)
    requires a + x == b + (x + multiset{t})
    ensures a == b + multiset{t}
  {
    forall k: int
      ensures a[k] == (b + multiset{t})[k]
    {
      assert (a + x)[k] == (b + (x + multiset{t}))[k];
    }
  }

  // ---------------------------------------------------------------- conservation

  lemma AddReadyTally(s: State, t: int)
    requires RingsOk(s)
    ensures OnRings(AddReady(s, t).ready) == OnRings(s.ready) + multiset{t}
  {
    hide On;
    var p, x := Prio(s, t), Item(0, t);
    var r := s.ready[p];
    OnRingsUpdate(s.ready, p, InsertEnd(r, x));
    if r.index == 0 {
      OnConcat(r.items, [x]);
      OnOne(x);
    } else {
      OnInsert(r.items, r.index - 1, x);
    }
    Cancel(OnRings(AddReady(s, t).ready), OnRings(s.ready), On(r.items), t);
  }

  lemma {:induction false} ReadyAllTally(s: State, xs: seq<Item>)
    requires RingsOk(s)
    ensures OnRings(ReadyAll(s, xs).ready) == OnRings(s.ready) + On(xs)
    decreases |xs|
  {
    hide On;
    if xs == [] {
      assert On(xs) == multiset{} by {
        OnEmpty();
      }
    } else {
      var n := |xs| - 1;
      ReadyAllTally(s, xs[..n]);
      var q := ReadyAll(s, xs[..n]);
      AddReadyTally(q.(onEvent := q.onEvent - {xs[n].owner}), xs[n].owner);
      OnConcat(xs[..n], [xs[n]]);
      OnOne(xs[n]);
      assert xs == xs[..n] + [xs[n]];
    }
  }

  lemma OnEmpty()
    ensures On([]) == multiset{}
  {
  }

  lemma OnSplit(q: seq<Item>, k: nat)
    requires k <= |q|
    ensures On(q) == On(q[..k]) + On(q[k..])
  {
    hide On;
    Halves(q, k);
    OnConcat(q[..k], q[k..]);
  }

  /** What one processed tick leaves alone, and where it puts what is due. */
  lemma TickedFields(s: State)
    requires RingsOk(s)
    ensures var u, k := Tick(s), Pos(s.queue, s.now + 1);
            && u.now == s.now + 1 && u.queue == s.queue[k..] && u.forever == s.forever && u.prio == s.prio
            && u.pended == s.pended && u.lost == s.lost && u.suspended == s.suspended
            && u.pendingReady == s.pendingReady
            && u.current == s.current && RingsOk(u) && RingsOk(s.(now := s.now + 1, queue := s.queue[k..]))
            && u.ready == ReadyAll(s.(now := s.now + 1, queue := s.queue[k..]), s.queue[..k]).ready
  {
    hide ReadyAll, RingsOk, Pos;
    SameRings(s, s.(now := s.now + 1, queue := s.queue[Pos(s.queue, s.now + 1)..]));
  }

  lemma MoveFirst(a: multiset<int>, b: multiset<int>, c: multiset<int>)
    ensures (a + b) + c == (b + c) + a
  {
  }

  lemma TickBlocked(s: State)
    requires RingsOk(s)
    ensures BlockedTasks(s) == BlockedTasks(Tick(s)) + On(s.queue[..Pos(s.queue, s.now + 1)])
    ensures OnRings(Tick(s).ready) == OnRings(s.ready) + On(s.queue[..Pos(s.queue, s.now + 1)])
  {
    hide ReadyAll, On, OnRings, Tick, Pos, RingsOk;
    var k := Pos(s.queue, s.now + 1);
    TickedFields(s);
    OnSplit(s.queue, k);
    MoveFirst(On(s.queue[..k]), On(s.queue[k..]), On(s.forever));
    ReadyAllTally(s.(now := s.now + 1, queue := s.queue[k..]), s.queue[..k]);
  }

  lemma MoveSum(b: multiset<int>, x: multiset<int>, r: multiset<int>)
    ensures (b + x) + r == b + (r + x)
  {
  }

  lemma TickTally(s: State)
    requires RingsOk(s)
    ensures Tally(Tick(s)) == Tally(s)
  {
    hide On, OnRings, Tick;
    TickBlocked(s);
    MoveSum(BlockedTasks(Tick(s)), On(s.queue[..Pos(s.queue, s.now + 1)]), OnRings(s.ready));
  }

  lemma UnlistTally(s: State, t: int)
    requires t in BlockedTasks(s)
    ensures BlockedTasks(s) == BlockedTasks(Unlist(s, t)) + multiset{t}
  {
    hide On;
    FindOn(s.queue, t);
    OnWithout(s.queue, t);
    OnWithout(s.forever, t);
  }

  lemma WithoutRingTally(s: State, t: int)
    requires RingsOk(s) && t in On(s.ready[Prio(s, t)].items)
    ensures OnRings(s.ready) == OnRings(s.ready[Prio(s, t) := WithoutRing(s.ready[Prio(s, t)], t)]) + multiset{t}
  {
    hide On;
    var p := Prio(s, t);
    OnRingsUpdate(s.ready, p, WithoutRing(s.ready[p], t));
    FindOn(s.ready[p].items, t);
    OnRemove(s.ready[p].items, Find(s.ready[p].items, t));
    var r := WithoutRing(s.ready[p], t);
    Cancel(OnRings(s.ready), OnRings(s.ready[p := r]), On(r.items), t);
  }

  lemma BlockTally(s: State, ticks: int, indefinitely: bool, event: bool)
    requires RingsOk(s) && s.current in On(s.ready[Prio(s, s.current)].items)
    ensures Tally(Block(s, ticks, indefinitely, event)) == Tally(s)
    ensures BlockedTasks(Block(s, ticks, indefinitely, event)) == BlockedTasks(s) + multiset{s.current}
  {
    hide On, OnRings;
    var t := s.current;
    WithoutRingTally(s, t);
    OnConcat(s.forever, [Item(0, t)]);
    OnOne(Item(0, t));
    var x := Item(s.now + ticks, t);
    OnInsert(s.queue, Pos(s.queue, x.value), x);
  }

  /** Readying a blocked task moves it from the blocked lists to a ready list. */
  lemma ReadyBlockedTally(s: State, t: int)
    requires RingsOk(s) && t in BlockedTasks(s)
    ensures Tally(AddReady(Unlist(s, t), t)) == Tally(s)
    ensures BlockedTasks(s) == BlockedTasks(AddReady(Unlist(s, t), t)) + multiset{t}
  {
    hide On, OnRings;
    UnlistTally(s, t);
    AddReadyTally(Unlist(s, t), t);
  }

  // ---------------------------------------------------------------- invariant over steps

  /** Tasks waiting to be readied are blocked, each once. */
  ghost predicate BlockedOk(onEvent: set<int>, pendingReady: seq<int>, blocked: multiset<int>) {
    && (forall t :: t in onEvent ==> t in blocked && t !in pendingReady)
    && (forall i :: 0 <= i < |pendingReady| ==> pendingReady[i] in blocked)
    && (forall i, j :: 0 <= i < j < |pendingReady| ==> pendingReady[i] != pendingReady[j])
  }

  /** Every task's state item is on exactly one list. */
  ghost predicate OnePlace(tally: multiset<int>, tasks: set<int>) {
    && (forall t :: t in tasks ==> tally[t] == 1)
    && (forall t :: t in tally ==> t in tasks)
  }

  ghost predicate Core(s: State) {
    && RingsOk(s)
    && ReadyOk(s.top, s.ready, s.prio)
    && QueueOk(s.now, s.queue)
    && BlockedOk(s.onEvent, s.pendingReady, BlockedTasks(s))
    && OnePlace(Tally(s), s.prio.Keys)
  }

  /** The invariant of every reachable scheduler state. */
  ghost predicate Good(s: State) {
    Core(s) && CountsOk(s)
  }

  ghost predicate Enabled(s: State, op: Op)
    requires RingsOk(s)
  {
    match op
    case OpTick => true
    case OpSuspend => true
    case OpResume => s.suspended > 0
    case OpSwitch => exists p :: 0 <= p < |s.ready| && s.ready[p].items != []
    case OpEvent(t) => t in s.onEvent
    case OpRelease(t) => t in s.onEvent && s.suspended > 0
    case OpBlock(k, _, _) =>
      && s.current in s.prio && s.current in On(s.ready[Prio(s, s.current)].items)
      && 0 <= k < M && (k == 0 ==> Wrap(s.now) != MAX_DELAY)
  }

  function Apply(s: State, op: Op): (r: State)
    requires Good(s) && Enabled(s, op)
    ensures r.prio == s.prio
  {
    match op
    case OpTick => Increment(s)
    case OpSuspend => s.(suspended := s.suspended + 1)
    case OpResume => Resume(s)
    case OpSwitch => Switch(s)
    case OpEvent(t) => Event(s, t)
    case OpRelease(t) => Release(s, t)
    case OpBlock(k, indefinitely, event) => Block(s, k, indefinitely, event)
  }

  lemma AddReadyOk(s: State, t: int)
    requires RingsOk(s) && ReadyOk(s.top, s.ready, s.prio)
    ensures var u := AddReady(s, t); RingsOk(u) && ReadyOk(u.top, u.ready, u.prio)
  {
    var p := Prio(s, t);
    var r := InsertEnd(s.ready[p], Item(0, t));
    forall i | 0 <= i < |r.items|
      ensures Prio(s, r.items[i].owner) == p
    {
      assert r.items[i] == Item(0, t) || r.items[i] in s.ready[p].items;
    }
  }

  lemma {:induction false} ReadyAllOk(s: State, xs: seq<Item>)
    requires RingsOk(s) && ReadyOk(s.top, s.ready, s.prio)
    ensures var u := ReadyAll(s, xs); ReadyOk(u.top, u.ready, u.prio)
    ensures forall t :: t in ReadyAll(s, xs).onEvent <==> t in s.onEvent && t !in On(xs)
    decreases |xs|
  {
    hide On, ReadyOk;
    if xs == [] {
      OnEmpty();
    } else {
      var n := |xs| - 1;
      ReadyAllOk(s, xs[..n]);
      var q := ReadyAll(s, xs[..n]);
      AddReadyOk(q.(onEvent := q.onEvent - {xs[n].owner}), xs[n].owner);
      OnConcat(xs[..n], [xs[n]]);
      OnOne(xs[n]);
      assert xs == xs[..n] + [xs[n]];
    }
  }

  lemma TickQueueOk(now: int, queue: seq<Item>)
    requires QueueOk(now, queue)
    ensures QueueOk(now + 1, queue[Pos(queue, now + 1)..])
  {
  }

  lemma TickCore(s: State)
    requires Core(s) && s.pendingReady == []
    ensures Core(Tick(s)) && Tick(s).pendingReady == []
  {
    hide On, OnRings, ReadyOk, QueueOk, OnePlace, Tally, BlockedTasks, ReadyAll;
    var k := Pos(s.queue, s.now + 1);
    TickTally(s);
    TickBlocked(s);
    TickQueueOk(s.now, s.queue);
    ReadyAllOk(s.(now := s.now + 1, queue := s.queue[k..]), s.queue[..k]);
  }

  lemma Halves<T>(s: seq<T>, k: int)
    requires 0 <= k <= |s|
    ensures s == s[..k] + s[k..]
  {
  }

  lemma UnlistQueueOk(s: State, t: int)
    requires QueueOk(s.now, s.queue)
    ensures Sorted(s.queue) && QueueOk(s.now, Unlist(s, t).queue)
  {
  }

  lemma ReadyBlockedCore(s: State, t: int)
    requires RingsOk(s) && ReadyOk(s.top, s.ready, s.prio) && QueueOk(s.now, s.queue) && OnePlace(Tally(s), s.prio.Keys)
    requires t in BlockedTasks(s)
    ensures var u := AddReady(Unlist(s, t), t);
            RingsOk(u) && ReadyOk(u.top, u.ready, u.prio) && QueueOk(u.now, u.queue) && OnePlace(Tally(u), u.prio.Keys)
    ensures BlockedTasks(s) == BlockedTasks(AddReady(Unlist(s, t), t)) + multiset{t}
  {
    hide On, OnRings, ReadyOk, QueueOk, OnePlace;
    UnlistQueueOk(s, t);
    AddReadyOk(Unlist(s, t), t);
    ReadyBlockedTally(s, t);
  }

  /** One task of the pending ready list is readied. */
  lemma DrainStep(s: State) returns (u: State)
    requires RingsOk(s) && s.pendingReady != []
    ensures var t := s.pendingReady[0];
            var v := s.(pendingReady := s.pendingReady[1..]);
            RingsOk(v) && RingsOk(Unlist(v, t)) && RingsOk(AddReady(Unlist(v, t), t))
            && u == AddReady(Unlist(v, t), t).(yieldPending := u.yieldPending) && RingsOk(u)
            && u.yieldPending == (s.yieldPending || Prio(s, t) >= Prio(s, s.current))
            && u.pendingReady == s.pendingReady[1..] && Drained(s) == Drained(u)
  {
    var t := s.pendingReady[0];
    u := AddReady(Unlist(s.(pendingReady := s.pendingReady[1..]), t), t);
    if Prio(s, t) >= Prio(s, s.current) {
      u := u.(yieldPending := true);
    }
  }

  lemma DrainStepCore(s: State, u: State)
    requires Core(s) && s.pendingReady != []
    requires var t := s.pendingReady[0];
             var v := s.(pendingReady := s.pendingReady[1..]);
             RingsOk(v) && RingsOk(Unlist(v, t)) && RingsOk(u)
               && u == AddReady(Unlist(v, t), t).(yieldPending := u.yieldPending)
    ensures Core(u)
  {
    hide On, OnRings, ReadyOk, QueueOk, OnePlace, Tally, BlockedTasks, AddReady, Unlist, RingsOk, BlockedOk;
    var t := s.pendingReady[0];
    var v := s.(pendingReady := s.pendingReady[1..]);
    SameLists(s, v);
    BlockedNext(s.onEvent, s.pendingReady, BlockedTasks(s));
    ReadyBlockedCore(v, t);
    SameLists(AddReady(Unlist(v, t), t), u);
    ReadiedFields(v, t);
    BlockedFewer(v.onEvent, v.pendingReady, BlockedTasks(u), t);
  }

  lemma {:induction false} DrainedCore(s: State)
    requires Core(s)
    ensures Core(Drained(s))
    decreases |s.pendingReady|
  {
    hide Core, Drained, AddReady, Unlist, RingsOk;
    CoreRings(s);
    if s.pendingReady != [] {
      var u := DrainStep(s);
      DrainStepCore(s, u);
      DrainedCore(u);
    } else {
      DrainEnd(s);
    }
  }

  lemma CoreRings(s: State)
    requires Core(s)
    ensures RingsOk(s)
  {
  }

  lemma DrainEnd(s: State)
    requires RingsOk(s) && s.pendingReady == []
    ensures Drained(s) == s
  {
  }

  lemma ReadiedFields(s: State, t: int)
    requires RingsOk(s) && RingsOk(Unlist(s, t))
    ensures var u := AddReady(Unlist(s, t), t);
            u.onEvent == s.onEvent && u.pendingReady == s.pendingReady && u.current == s.current && u.now == s.now
  {
  }

  lemma BlockedNext(onEvent: set<int>, pendingReady: seq<int>, blocked: multiset<int>)
    requires BlockedOk(onEvent, pendingReady, blocked) && pendingReady != []
    ensures pendingReady[0] in blocked && pendingReady[0] !in onEvent && pendingReady[0] !in pendingReady[1..]
    ensures BlockedOk(onEvent, pendingReady[1..], blocked)
  {
    var rest := pendingReady[1..];
    assert pendingReady[0] in pendingReady;
    forall i | 0 <= i < |rest|
      ensures rest[i] == pendingReady[i + 1] && rest[i] in pendingReady && rest[i] != pendingReady[0]
    {
    }
    forall t | t in rest
      ensures t in pendingReady
    {
    }
  }

  lemma BlockedFewer(onEvent: set<int>, pendingReady: seq<int>, blocked: multiset<int>, t: int)
    requires BlockedOk(onEvent, pendingReady, blocked + multiset{t}) && t !in onEvent && t !in pendingReady
    ensures BlockedOk(onEvent, pendingReady, blocked)
  {
    forall x | x in onEvent
      ensures x in blocked
    {
      assert x in blocked + multiset{t};
    }
    forall i | 0 <= i < |pendingReady|
      ensures pendingReady[i] in blocked
    {
      assert pendingReady[i] in blocked + multiset{t};
    }
  }

  lemma SameLists(s: State, u: State)
    requires u.queue == s.queue && u.forever == s.forever && u.ready == s.ready
    ensures Tally(u) == Tally(s) && BlockedTasks(u) == BlockedTasks(s)
  {
  }

  lemma {:induction false} ReplayedCore(s: State, n: nat)
    requires Core(s) && s.pendingReady == []
    ensures Core(Replayed(s, n)) && Replayed(s, n).pendingReady == []
  {
    hide On, OnRings, ReadyOk, QueueOk, OnePlace, Tally, BlockedTasks, Tick, BlockedOk;
    if n > 0 {
      ReplayedCore(s, n - 1);
      var u := Replayed(s, n - 1);
      TickCore(u);
      SameLists(Tick(u), Replayed(s, n));
    }
  }

  lemma EventCore(s: State, t: int)
    requires Core(s) && t in s.onEvent
    ensures Core(Event(s, t))
  {
    hide On, OnRings, ReadyOk, QueueOk, OnePlace, Tally, BlockedTasks;
    var u := s.(onEvent := s.onEvent - {t}, yieldPending := s.yieldPending || Prio(s, t) > Prio(s, s.current));
    SameLists(s, u);
    if s.suspended == 0 {
      ReadyBlockedCore(u, t);
    } else {
      SameLists(s, Event(s, t));
    }
  }

  lemma ReleaseCore(s: State, t: int)
    requires Core(s) && t in s.onEvent
    ensures Core(Release(s, t))
  {
    hide On, OnRings, ReadyOk, QueueOk, OnePlace, Tally, BlockedTasks;
    var u := s.(onEvent := s.onEvent - {t}, yieldPending := s.yieldPending || Prio(s, t) > Prio(s, s.current));
    SameLists(s, u);
    ReadyBlockedCore(u, t);
  }

  lemma BlockReadyOk(s: State, t: int)
    requires RingsOk(s) && ReadyOk(s.top, s.ready, s.prio)
    ensures var p := Prio(s, t); ReadyOk(s.top, s.ready[p := WithoutRing(s.ready[p], t)], s.prio)
  {
  }

  /**
   A task may block for k ticks unless k is 0 in the last tick of an epoch: only then would its wake
   time still be in the delayed list when the lists change places.
   */
  lemma BlockQueueOk(s: State, k: int)
    requires QueueOk(s.now, s.queue) && 0 <= k < M
    ensures QueueOk(s.now, InsertSorted(s.queue, Item(s.now + k, s.current))) <==> k > 0 || Wrap(s.now) != MAX_DELAY
  {
    var x := Item(s.now + k, s.current);
    InsertKeepsSorted(s.queue, x);
    assert InsertSorted(s.queue, x)[Pos(s.queue, x.value)] == x;
  }

  lemma BlockCore(s: State, k: int, indefinitely: bool, event: bool)
    requires Core(s) && Enabled(s, OpBlock(k, indefinitely, event))
    ensures Core(Block(s, k, indefinitely, event))
  {
    hide On, OnRings, ReadyOk, QueueOk, BlockedOk, OnePlace, Tally, BlockedTasks, WithoutRing, InsertSorted;
    BlockFields(s, k, indefinitely, event);
    BlockTally(s, k, indefinitely, event);
    BlockReadyOk(s, s.current);
    BlockQueueOk(s, k);
    CurrentNotBlocked(s);
    BlockedMore(s.onEvent, s.pendingReady, BlockedTasks(s), s.current, event);
  }

  lemma BlockFields(s: State, k: int, indefinitely: bool, event: bool)
    requires RingsOk(s)
    ensures var u, p := Block(s, k, indefinitely, event), Prio(s, s.current);
            && RingsOk(u) && u.prio == s.prio && u.now == s.now && u.top == s.top && u.suspended == s.suspended
            && u.pended == s.pended && u.lost == s.lost
            && u.ready == s.ready[p := WithoutRing(s.ready[p], s.current)] && u.pendingReady == s.pendingReady
            && u.onEvent == (if event then s.onEvent + {s.current} else s.onEvent)
            && (u.queue == s.queue || u.queue == InsertSorted(s.queue, Item(s.now + k, s.current)))
  {
  }

  lemma BlockedMore(onEvent: set<int>, pendingReady: seq<int>, blocked: multiset<int>, t: int, event: bool)
    requires BlockedOk(onEvent, pendingReady, blocked) && t !in blocked
    ensures BlockedOk(if event then onEvent + {t} else onEvent, pendingReady, blocked + multiset{t})
  {
  }

  /** A ready task is not blocked. */
  lemma CurrentNotBlocked(s: State)
    requires RingsOk(s) && OnePlace(Tally(s), s.prio.Keys) && s.current in On(s.ready[Prio(s, s.current)].items)
    ensures s.current !in BlockedTasks(s)
  {
    var p := Prio(s, s.current);
    hide On;
    WithoutRingTally(s, s.current);
    assert Tally(s)[s.current] <= 1;
  }

  lemma SwitchCore(s: State)
    requires Core(s)
    ensures Core(Switch(s))
  {
    hide On, OnRings, QueueOk, BlockedOk, OnePlace, ReadyOk, RingsOk, Advance;
    TopKnown(s);
    var p := TopFrom(s.ready, s.top);
    if s.suspended == 0 && p >= 0 {
      AdvanceKeeps(s, p);
      OnRingsUpdate(s.ready, p, Advance(s.ready[p]));
      SameSum(OnRings(Switch(s).ready), OnRings(s.ready), On(s.ready[p].items));
      SwitchLists(s);
    } else {
      SwitchLists(s);
    }
  }

  lemma TopKnown(s: State)
    requires RingsOk(s) && ReadyOk(s.top, s.ready, s.prio)
    ensures s.top < |s.ready| && forall p :: 0 <= p < |s.ready| ==> s.ready[p].Ok()
  {
  }

  lemma AdvanceKeeps(s: State, p: int)
    requires RingsOk(s) && ReadyOk(s.top, s.ready, s.prio) && p == TopFrom(s.ready, s.top) && p >= 0
    ensures Advance(s.ready[p]).items == s.ready[p].items
  {
  }

  lemma SwitchLists(s: State)
    requires RingsOk(s) && ReadyOk(s.top, s.ready, s.prio)
    ensures var u := Switch(s); RingsOk(u) && ReadyOk(u.top, u.ready, u.prio)
  {
  }

  lemma SameSum(a: multiset<int>, b: multiset<int>, x: multiset<int>)
    requires a + x == b + x
    ensures a == b
  {
    forall k: int
      ensures a[k] == b[k]
    {
      assert (a + x)[k] == (b + x)[k];
    }
  }

  // ---------------------------------------------------------------- runs

  ghost predicate Follows(s: State, op: Op, u: State) {
    Good(s) ==> Enabled(s, op) && u == Apply(s, op)
  }

  /** A run starts in a good state; that every later one is good too is proved, not assumed. */
  ghost predicate Run(states: seq<State>, ops: seq<Op>) {
    && |states| == |ops| + 1 && Good(states[0])
    && (forall k :: 0 <= k < |ops| ==> Follows(states[k], ops[k], states[k + 1]))
  }

  /** Each step keeps the invariant: lists, priorities, deadlines and tick counts. */
  lemma StepGood(s: State, op: Op)
    requires Good(s) && Enabled(s, op)
    ensures Good(Apply(s, op))
  {
    hide OnRings, On, ReadyOk, QueueOk, OnePlace, Tally, BlockedTasks, BlockedOk;
    SameLists(s, Apply(s, op).(queue := s.queue, forever := s.forever, ready := s.ready));
    match op
    case OpTick =>
      if s.suspended == 0 {
        TickCore(s);
      } else {
        SameLists(s, Increment(s));
      }
    case OpSuspend => SameLists(s, s.(suspended := s.suspended + 1));
    case OpResume => ResumeGood(s);
    case OpSwitch => SwitchCore(s);
    case OpEvent(t) => EventCore(s, t);
    case OpRelease(t) => ReleaseCore(s, t);
    case OpBlock(k, i, e) => BlockCore(s, k, i, e);
  }

  lemma ResumeGood(s: State)
    requires Good(s) && s.suspended > 0
    ensures Good(Resume(s))
  {
    hide OnRings, On, ReadyOk, QueueOk, OnePlace, Tally, BlockedTasks, BlockedOk;
    var u := s.(suspended := s.suspended - 1);
    SameLists(s, u);
    if u.suspended == 0 {
      DrainedCore(u);
      DrainedCounts(u);
      var v := Drained(u);
      ReplayedCore(v, v.pended);
      ReplayedCounts(v, v.pended);
      SameLists(Replayed(v, v.pended), Resume(s));
    }
  }

  lemma {:induction false} DrainedCounts(s: State)
    requires RingsOk(s)
    ensures var u := Drained(s);
      u.now == s.now && u.lost == s.lost && u.suspended == s.suspended && u.current == s.current && u.prio == s.prio
    decreases |s.pendingReady|
  {
    if s.pendingReady != [] {
      var t := s.pendingReady[0];
      var u := AddReady(Unlist(s.(pendingReady := s.pendingReady[1..]), t), t);
      DrainedCounts(if Prio(s, t) >= Prio(s, s.current) then u.(yieldPending := true) else u);
    }
  }

  lemma {:induction false} ReplayedCounts(s: State, n: nat)
    requires RingsOk(s)
    ensures var u := Replayed(s, n);
            && u.now == s.now + n && u.lost == s.lost && u.suspended == s.suspended && u.pended == s.pended
            && u.pendingReady == s.pendingReady && u.current == s.current && u.prio == s.prio
  {
    hide TickSwitches, Tick, RingsOk;
    if n > 0 {
      ReplayedCounts(s, n - 1);
      TickedFields(Replayed(s, n - 1));
    }
  }

  /** The invariant holds all along a run. */
  lemma {:induction false} RunGood(states: seq<State>, ops: seq<Op>, k: nat)
    requires Run(states, ops) && k <= |ops|
    ensures Good(states[k])
    ensures k < |ops| ==> Enabled(states[k], ops[k]) && states[k + 1] == Apply(states[k], ops[k])
  {
    hide Good, Enabled, Apply;
    if k > 0 {
      RunGood(states, ops, k - 1);
      StepGood(states[k - 1], ops[k - 1]);
    }
    assert k < |ops| ==> Follows(states[k], ops[k], states[k + 1]);
  }

  lemma {:induction false} CreatedLists(prio: map<int, nat>, limit: nat, tasks: seq<int>)
    requires limit > 0 && forall t :: t in prio ==> prio[t] < limit
    ensures var s := Created(prio, limit, tasks);
            && ReadyOk(s.top, s.ready, prio) && OnRings(s.ready) == multiset(tasks)
            && s == NoTasks(prio, limit).(top := s.top, ready := s.ready, current := s.current)
    decreases |tasks|
  {
    hide OnRings, AddReady, ReadyOk, RingsOk, NoTasks, Prio;
    if tasks == [] {
      NoTasksLists(prio, limit);
    } else {
      var n := |tasks| - 1;
      var t := tasks[n];
      CreatedLists(prio, limit, tasks[..n]);
      var u := Created(prio, limit, tasks[..n]);
      var v := u.(current := if |tasks| == 1 || Prio(u, u.current) <= Prio(u, t) then t else u.current);
      SameRings(u, v);
      AddReadyOk(v, t);
      AddReadyTally(v, t);
      AddReadyRest(v, t);
      assert tasks == tasks[..n] + [t];
    }
  }

  lemma SameRings(s: State, u: State)
    requires RingsOk(s) && u.ready == s.ready && u.prio == s.prio
    ensures RingsOk(u)
  {
  }

  /** The last created of the most urgent tasks is current. */
  lemma {:induction false} CreatedCurrent(prio: map<int, nat>, limit: nat, tasks: seq<int>)
    requires limit > 0 && (forall t :: t in prio ==> prio[t] < limit) && tasks != []
    ensures var c := Created(prio, limit, tasks).current;
      c in tasks && forall t :: t in tasks ==> PrioOf(prio, t) <= PrioOf(prio, c)
    decreases |tasks|
  {
    hide RingsOk, InsertEnd, NoTasks;
    var n := |tasks| - 1;
    assert tasks == tasks[..n] + [tasks[n]];
    if n > 0 {
      CreatedCurrent(prio, limit, tasks[..n]);
    }
  }

  lemma AddReadyRest(s: State, t: int)
    requires RingsOk(s)
    ensures var u := AddReady(s, t); u == s.(top := u.top, ready := u.ready)
  {
  }

  lemma {:induction false} EmptyRings(rs: seq<Ring>)
    requires forall p :: 0 <= p < |rs| ==> rs[p] == EMPTY
    ensures OnRings(rs) == multiset{}
  {
    if rs != [] {
      EmptyRings(rs[..|rs| - 1]);
      OnEmpty();
    }
  }

  lemma NoTasksLists(prio: map<int, nat>, limit: nat)
    requires limit > 0
    ensures var s := NoTasks(prio, limit); ReadyOk(s.top, s.ready, prio) && OnRings(s.ready) == multiset{}
  {
    EmptyRings(NoTasks(prio, limit).ready);
  }

  /**
   When the scheduler starts, every created task is ready, and the most urgent of them is about to run: a run
   can begin.
   */
  lemma FreshGood(prio: map<int, nat>, limit: nat, tasks: seq<int>)
    requires limit > 0 && forall t :: t in prio ==> prio[t] < limit
    requires tasks != [] && (forall i, j :: 0 <= i < j < |tasks| ==> tasks[i] != tasks[j])
    requires forall t :: t in tasks <==> t in prio
    ensures var s := Created(prio, limit, tasks);
            && Good(s) && (forall t :: t in prio ==> t in OnRings(s.ready) && Prio(s, t) <= Prio(s, s.current))
            && s.current in prio && Enabled(s, OpSwitch)
  {
    hide ReadyOk, OnRings, AddReady, Created, On, RingsOk;
    var s := Created(prio, limit, tasks);
    CreatedLists(prio, limit, tasks);
    CreatedCurrent(prio, limit, tasks);
    OnEmpty();
    OnceEach(tasks);
    assert tasks[0] in multiset(tasks);
    var q, i := OnRingsMember(s.ready, tasks[0]);
  }

  lemma {:induction false} OnceEach(tasks: seq<int>)
    requires forall i, j :: 0 <= i < j < |tasks| ==> tasks[i] != tasks[j]
    ensures forall t :: multiset(tasks)[t] == if t in tasks then 1 else 0
  {
    if tasks != [] {
      var n := |tasks| - 1;
      OnceEach(tasks[..n]);
      assert tasks == tasks[..n] + [tasks[n]];
    }
  }

  // ---------------------------------------------------------------- tick accounting

  /** Ticks delivered to the kernel during a run. */
  function Delivered(ops: seq<Op>): nat {
    if ops == [] then 0 else Delivered(ops[..|ops| - 1]) + (if ops[|ops| - 1] == OpTick then 1 else 0)
  }

  lemma StepAccounts(s: State, op: Op)
    requires Good(s) && Enabled(s, op)
    ensures var u := Apply(s, op);
      u.now + u.pended + u.lost == s.now + s.pended + s.lost + (if op == OpTick then 1 else 0)
  {
    hide ReadyOk, QueueOk, BlockedOk, OnePlace, Tally, BlockedTasks, On, OnRings, Drained, Replayed, Tick, RingsOk;
    hide Event, Release, Block, Switch, Resume;
    match op
    case OpTick => TickedFields(s);
    case OpResume => ResumeAccounts(s);
    case OpBlock(k, i, e) => BlockFields(s, k, i, e);
    case OpEvent(t) => EventFields(s, t);
    case OpRelease(t) => EventFields(s, t);
    case OpSwitch =>
      TopKnown(s);
      SwitchFields(s);
    case OpSuspend =>
  }

  lemma EventFields(s: State, t: int)
    requires RingsOk(s)
    ensures var u := Event(s, t); u.now == s.now && u.pended == s.pended && u.lost == s.lost
    ensures var u := Release(s, t); u.now == s.now && u.pended == s.pended && u.lost == s.lost
  {
  }

  lemma SwitchFields(s: State)
    requires RingsOk(s) && s.top < |s.ready|
    ensures var u := Switch(s);
            && u.now == s.now && u.pended == s.pended && u.lost == s.lost
            && u.queue == s.queue && u.forever == s.forever && u.pendingReady == s.pendingReady
  {
  }

  lemma ResumeAccounts(s: State)
    requires Good(s) && s.suspended > 0
    ensures var u := Resume(s); u.now + u.pended + u.lost == s.now + s.pended + s.lost
  {
    hide ReadyOk, QueueOk, BlockedOk, OnePlace, Tally, BlockedTasks, On, OnRings, Drained, Replayed, Tick, RingsOk;
    var u := s.(suspended := s.suspended - 1);
    SameRings(s, u);
    if u.suspended == 0 {
      DrainedCounts(u);
      ReplayedCounts(Drained(u), s.pended);
    }
  }

  lemma {:induction false} RunCounts(states: seq<State>, ops: seq<Op>)
    requires Run(states, ops)
    ensures var a, z := states[0], states[|ops|];
            z.now + z.pended + z.lost == a.now + a.pended + a.lost + Delivered(ops)
  {
    hide Good, Enabled, Apply;
    if ops != [] {
      var n := |ops| - 1;
      RunGood(states, ops, n);
      RunCounts(states[..n + 1], ops[..n]);
      StepAccounts(states[n], ops[n]);
    }
  }

  lemma WrapEqual(x: int, lx: int, y: int, ly: int)
    requires x + lx == y + ly && lx % M == 0 && ly % M == 0
    ensures Wrap(x) == Wrap(y)
  {
  }

  lemma LostOk(s: State)
    requires Good(s)
    ensures s.lost % M == 0
  {
  }

  /** No tick is lost but by a full wrap of the pended counter: the counts add up modulo 2^32. */
  lemma RunAccounts(states: seq<State>, ops: seq<Op>)
    requires Run(states, ops)
    ensures var a, z := states[0], states[|ops|];
            && Wrap(z.now + z.pended) == Wrap(a.now + a.pended + Delivered(ops))
            && (z.lost == a.lost ==> z.now + z.pended == a.now + a.pended + Delivered(ops))
  {
    hide Good, Delivered, Wrap;
    var a, z := states[0], states[|ops|];
    RunCounts(states, ops);
    RunGood(states, ops, 0);
    RunGood(states, ops, |ops|);
    LostOk(a);
    LostOk(z);
    WrapEqual(z.now + z.pended, z.lost, a.now + a.pended + Delivered(ops), a.lost);
  }

  // ---------------------------------------------------------------- exact wake-up

  /** Task t is blocked with deadline d exactly as long as d lies ahead. */
  ghost predicate Waits(s: State, t: int, d: int) {
    && t !in s.pendingReady
    && (s.now < d ==> Item(d, t) in s.queue)
    && (s.now >= d ==> t !in BlockedTasks(s))
  }

  /** The queue of a ticked state. */
  lemma TickQueue(s: State, e: Item)
    requires RingsOk(s) && Sorted(s.queue) && e in s.queue
    ensures e.value <= s.now + 1 <==> e in s.queue[..Pos(s.queue, s.now + 1)]
    ensures e.value > s.now + 1 <==> e in s.queue[Pos(s.queue, s.now + 1)..]
  {
  }

  /** One processed tick readies exactly the tasks whose time has come, and nobody else. */
  lemma TickReadiesExactlyDue(s: State, e: Item)
    requires RingsOk(s) && QueueOk(s.now, s.queue) && OnePlace(Tally(s), s.prio.Keys) && e in s.queue
    ensures e.value <= s.now + 1 <==> e !in Tick(s).queue
    ensures e.value <= s.now + 1 <==> e.owner !in BlockedTasks(Tick(s))
    ensures e.value <= s.now + 1 <==> e.owner in OnRings(Tick(s).ready)
  {
    hide On, OnRings, Tick, Pos;
    TickQueue(s, e);
    TickBlocked(s);
    TickTally(s);
    OwnerOn(s.queue, e);
    assert Tally(s)[e.owner] <= 1;
    assert Tick(s).queue == s.queue[Pos(s.queue, s.now + 1)..] by {
      TickedFields(s);
    }
    if e.value <= s.now + 1 {
      OwnerOn(s.queue[..Pos(s.queue, s.now + 1)], e);
    } else {
      OwnerOn(Tick(s).queue, e);
    }
  }

  lemma TickWaits(s: State, t: int, d: int)
    requires Core(s) && s.pendingReady == [] && Waits(s, t, d)
    ensures Waits(Tick(s), t, d)
  {
    hide On, OnRings, Tick, Tally, BlockedTasks, ReadyOk, BlockedOk, OnePlace;
    TickedFields(s);
    if s.now < d {
      TickReadiesExactlyDue(s, Item(d, t));
    } else {
      TickBlocked(s);
    }
  }

  lemma OwnerOn(xs: seq<Item>, e: Item)
    requires e in xs
    ensures e.owner in On(xs)
  {
  }

  /** Readying another blocked task does not concern t. */
  lemma OtherReadied(s: State, x: int, t: int, d: int)
    requires RingsOk(s) && x in BlockedTasks(s) && x != t && Waits(s, t, d)
    ensures RingsOk(Unlist(s, x)) && Waits(AddReady(Unlist(s, x), x), t, d)
  {
    hide On, OnRings, Without, BlockedTasks, Tally;
    WithoutKeeps(s.queue, x, Item(d, t));
    ReadyBlockedTally(s, x);
  }

  lemma {:induction false} DrainedWaits(s: State, t: int, d: int)
    requires Core(s) && Waits(s, t, d)
    ensures Waits(Drained(s), t, d)
    decreases |s.pendingReady|
  {
    hide On, OnRings, ReadyOk, QueueOk, OnePlace, Tally, BlockedTasks, Waits, Drained, AddReady, Unlist, RingsOk,
         BlockedOk;
    if s.pendingReady != [] {
      var x := s.pendingReady[0];
      var v := s.(pendingReady := s.pendingReady[1..]);
      var u := DrainStep(s);
      DrainStepCore(s, u);
      SameLists(s, v);
      WaitsNext(s, t, d);
      BlockedNext(s.onEvent, s.pendingReady, BlockedTasks(s));
      OtherReadied(v, x, t, d);
      WaitsSame(AddReady(Unlist(v, x), x), u, t, d);
      DrainedWaits(u, t, d);
    } else {
      DrainEnd(s);
    }
  }

  lemma {:induction false} ReplayedWaits(s: State, n: nat, t: int, d: int)
    requires Core(s) && s.pendingReady == [] && Waits(s, t, d)
    ensures Waits(Replayed(s, n), t, d)
  {
    hide ReadyOk, QueueOk, BlockedOk, OnePlace, Tally, BlockedTasks, Waits, Tick, TickSwitches;
    if n > 0 {
      var u := Replayed(s, n - 1);
      ReplayedWaits(s, n - 1, t, d);
      ReplayedCore(s, n - 1);
      TickWaits(u, t, d);
      WaitsSame(Tick(u), Tick(u).(yieldPending := TickSwitches(u)), t, d);
    }
  }

  lemma WaitsNext(s: State, t: int, d: int)
    requires Waits(s, t, d) && s.pendingReady != []
    ensures s.pendingReady[0] != t && Waits(s.(pendingReady := s.pendingReady[1..]), t, d)
  {
  }

  lemma WaitsSame(s: State, u: State, t: int, d: int)
    requires Waits(s, t, d) && u.queue == s.queue && u.forever == s.forever && u.now == s.now
    requires u.pendingReady == s.pendingReady
    ensures Waits(u, t, d)
  {
  }

  lemma ResumeWaits(s: State, t: int, d: int)
    requires Good(s) && s.suspended > 0 && Waits(s, t, d)
    ensures Waits(Resume(s), t, d)
  {
    hide Waits, ReadyOk, QueueOk, BlockedOk, OnePlace, Tally, BlockedTasks;
    var u := s.(suspended := s.suspended - 1);
    WaitsSame(s, u, t, d);
    if u.suspended == 0 {
      SameLists(s, u);
      DrainedWaits(u, t, d);
      DrainedCore(u);
      var v := Drained(u);
      ReplayedWaits(v, s.pended, t, d);
      WaitsSame(Replayed(v, s.pended), Resume(s), t, d);
    }
  }

  /** The step neither wakes task t for an event nor blocks it. */
  predicate LeavesAlone(s: State, op: Op, t: int) {
    op != OpEvent(t) && op != OpRelease(t) && (op.OpBlock? ==> s.current != t)
  }

  /** Steps that neither deliver t's event nor block t again keep the equivalence. */
  lemma StepWaits(s: State, op: Op, t: int, d: int)
    requires Good(s) && Enabled(s, op) && Waits(s, t, d)
    requires LeavesAlone(s, op, t)
    ensures Waits(Apply(s, op), t, d)
  {
    hide On, OnRings, QueueOk, OnePlace, Tally, BlockedTasks, ReadyOk, BlockedOk, RingsOk, Waits;
    hide Event, Release, Block, Switch, Resume, Tick;
    match op
    case OpTick =>
      if s.suspended == 0 {
        TickWaits(s, t, d);
      } else {
        WaitsSame(s, Increment(s), t, d);
      }
    case OpSuspend => WaitsSame(s, s.(suspended := s.suspended + 1), t, d);
    case OpResume => ResumeWaits(s, t, d);
    case OpSwitch =>
      TopKnown(s);
      SwitchFields(s);
      WaitsSame(s, Switch(s), t, d);
    case OpEvent(x) => EventWaits(s, x, t, d);
    case OpRelease(x) => EventWaits(s, x, t, d);
    case OpBlock(k, i, e) => OtherBlocks(s, k, i, e, t, d);
  }

  /** Another task's event, or its release. */
  lemma EventWaits(s: State, x: int, t: int, d: int)
    requires Core(s) && Waits(s, t, d) && x != t && x in s.onEvent
    ensures Waits(Event(s, x), t, d) && Waits(Release(s, x), t, d)
  {
    hide On, OnRings, QueueOk, OnePlace, Tally, BlockedTasks, ReadyOk, RingsOk, Waits, AddReady, Unlist;
    var u := s.(onEvent := s.onEvent - {x}, yieldPending := s.yieldPending || Prio(s, x) > Prio(s, s.current));
    WaitsSame(s, u, t, d);
    SameLists(s, u);
    SameRings(s, u);
    OtherReadied(u, x, t, d);
    if s.suspended > 0 {
      OnePending(u, x, t, d);
    }
  }

  lemma OnePending(s: State, x: int, t: int, d: int)
    requires Waits(s, t, d) && x != t
    ensures Waits(s.(pendingReady := s.pendingReady + [x]), t, d)
  {
  }

  /** Another task blocks. */
  lemma OtherBlocks(s: State, k: int, i: bool, e: bool, t: int, d: int)
    requires Core(s) && Enabled(s, OpBlock(k, i, e)) && Waits(s, t, d) && s.current != t
    ensures Waits(Block(s, k, i, e), t, d)
  {
    hide On, OnRings, QueueOk, OnePlace, Tally, BlockedTasks, ReadyOk, BlockedOk, InsertSorted, Block;
    InsertMembers(s.queue, Item(s.now + k, s.current), Item(d, t));
    BlockTally(s, k, i, e);
    BlockFields(s, k, i, e);
  }

  /** Blocking for k >= 1 ticks starts the equivalence at the true deadline. */
  lemma BlockWaits(s: State, op: Op)
    requires Good(s) && Enabled(s, op) && op.OpBlock? && op.ticks >= 1 && !(op.ticks == MAX_DELAY && op.indefinitely)
    ensures Waits(Apply(s, op), s.current, s.now + op.ticks)
  {
    var x := Item(s.now + op.ticks, s.current);
    InsertMembers(s.queue, x, x);
    CurrentNotBlocked(s);
  }

  lemma ReadyUnlessBlocked(s: State, t: int)
    requires Good(s) && t in s.prio
    ensures t in BlockedTasks(s) <==> t !in OnRings(s.ready)
  {
  }

  lemma {:induction false} WaitsAlong(states: seq<State>, ops: seq<Op>, i: nat, j: nat)
    requires Run(states, ops) && i < j <= |ops|
    requires ops[i].OpBlock? && ops[i].ticks >= 1 && !(ops[i].ticks == MAX_DELAY && ops[i].indefinitely)
    requires forall l :: i < l < j ==> LeavesAlone(states[l], ops[l], states[i].current)
    ensures Waits(states[j], states[i].current, states[i].now + ops[i].ticks)
  {
    hide Good, Enabled, Waits, Apply;
    RunGood(states, ops, j - 1);
    if j == i + 1 {
      BlockWaits(states[i], ops[i]);
    } else {
      WaitsAlong(states, ops, i, j - 1);
      StepWaits(states[j - 1], ops[j - 1], states[i].current, states[i].now + ops[i].ticks);
    }
  }

  /**
   Exact wake-up. A task that blocks at tick T for k >= 1 ticks, and is neither woken by an event
   nor blocks again, is blocked in every later state before tick T + k is processed and ready in
   every state from then on -- across any number of tick wraps and scheduler suspensions.
   */
  lemma ExactWakeUp(states: seq<State>, ops: seq<Op>, i: nat, j: nat)
    requires Run(states, ops) && i < j <= |ops|
    requires ops[i].OpBlock? && ops[i].ticks >= 1 && !(ops[i].ticks == MAX_DELAY && ops[i].indefinitely)
    requires forall l :: i < l < j ==> LeavesAlone(states[l], ops[l], states[i].current)
    ensures var t, d := states[i].current, states[i].now + ops[i].ticks;
            && (Item(d, t) in states[j].queue <==> states[j].now < d)
            && (t in OnRings(states[j].ready) <==> states[j].now >= d)
  {
    hide Good, OnRings, On, Apply;
    var t, d := states[i].current, states[i].now + ops[i].ticks;
    WaitsAlong(states, ops, i, j);
    RunGood(states, ops, i);
    RunGood(states, ops, j);
    TasksKept(states, ops, i, j);
    ReadyUnlessBlocked(states[j], t);
    if Item(d, t) in states[j].queue {
      OwnerOn(states[j].queue, Item(d, t));
    }
  }

  lemma {:induction false} TasksKept(states: seq<State>, ops: seq<Op>, i: nat, j: nat)
    requires Run(states, ops) && i <= j <= |ops|
    ensures states[j].prio == states[i].prio
  {
    hide Good, Enabled, Apply;
    if i < j {
      RunGood(states, ops, j - 1);
      TasksKept(states, ops, i, j - 1);
    }
  }

  // ---------------------------------------------------------------- scheduling choice

  /** An unsuspended switch picks a task of maximal ready priority, next in its rotation. */
  lemma SwitchPicksHighest(s: State)
    requires Core(s) && s.suspended == 0 && Enabled(s, OpSwitch)
    ensures var u := Switch(s);
            && 0 <= u.top < |s.ready| && s.ready[u.top].items != [] && u.current == s.ready[u.top].Upcoming()[0].owner
            && Prio(s, u.current) == u.top
            && (forall t :: t in OnRings(s.ready) ==> Prio(s, t) <= Prio(s, u.current))
  {
    hide On;
    var p := TopFrom(s.ready, s.top);
    AdvanceRotates(s.ready[p]);
    forall t | t in OnRings(s.ready)
      ensures Prio(s, t) <= p
    {
      var q, i := OnRingsMember(s.ready, t);
    }
    OnEmpty();
  }

  lemma {:induction false} OnRingsMember(rs: seq<Ring>, t: int) returns (q: int, i: int)
    requires t in OnRings(rs)
    ensures 0 <= q < |rs| && 0 <= i < |rs[q].items| && rs[q].items[i].owner == t
  {
    var n := |rs| - 1;
    if t in On(rs[n].items) {
      FindOn(rs[n].items, t);
      q, i := n, Find(rs[n].items, t);
    } else {
      q, i := OnRingsMember(rs[..n], t);
    }
  }

  lemma {:induction false} OnRingsHas(rs: seq<Ring>, p: int, i: int)
    requires 0 <= p < |rs| && 0 <= i < |rs[p].items|
    ensures rs[p].items[i].owner in OnRings(rs)
  {
    hide On;
    var n := |rs| - 1;
    if p == n {
      OwnerOn(rs[n].items, rs[n].items[i]);
    } else {
      OnRingsHas(rs[..n], p, i);
    }
  }

  /** A ready task is on the list of its priority. */
  lemma ReadyUnderOwn(s: State, t: int)
    requires RingsOk(s) && ReadyOk(s.top, s.ready, s.prio)
    ensures t in OnRings(s.ready) <==> Find(s.ready[Prio(s, t)].items, t) >= 0
  {
    hide On, OnRings;
    if t in OnRings(s.ready) {
      var q, i := OnRingsMember(s.ready, t);
    }
    if Find(s.ready[Prio(s, t)].items, t) >= 0 {
      OnRingsHas(s.ready, Prio(s, t), Find(s.ready[Prio(s, t)].items, t));
    }
  }
}
