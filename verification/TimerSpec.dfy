/**
 The timer service in unbounded time: one queue of running timers ordered by true expiry time.
 Module Timers proves that the daemon's two wrapped lists behave like this; the run properties
 are proved here.
 */
module TimerSpec {
  import opened Basics
  import opened Ticks
  import opened ListSpec

  datatype Timer = Timer(period: int, reload: bool, permanent: bool, active: bool)

  datatype State = State(
    last: int,                // true time of the daemon's latest look at the tick count
    queue: seq<Item>,         // running timers: true expiry time and timer
    timers: map<int, Timer>,
    fired: seq<int>           // callbacks made so far, in order
  )

  function PeriodOf(timers: map<int, Timer>, t: int): (p: int)
    ensures p > 0
  {
    if t in timers && timers[t].period > 0 then timers[t].period else 1
  }

  function SetActive(timers: map<int, Timer>, t: int, active: bool): map<int, Timer> {
    if t in timers then timers[t := timers[t].(active := active)] else timers
  }

  function Reloads(timers: map<int, Timer>, t: int): bool {
    t in timers && timers[t].reload
  }

  function Repeat(t: int, n: nat): (r: seq<int>)
    ensures |r| == n && forall i :: 0 <= i < n ==> r[i] == t
  {
    seq(n, _ => t)
  }

  /** Whole periods between an expiry and a later time. */
  function Backlog(expired: int, period: int, now: int): nat
    requires period > 0 && expired <= now
  {
    (now - expired) / period
  }

  /** The first expiry after now on the grid expired, expired + period, ... */
  function NextExpiry(expired: int, period: int, now: int): int
    requires period > 0 && expired <= now
  {
    expired + (Backlog(expired, period, now) + 1) * period
  }

  lemma BacklogUnique(expired: int, period: int, now: int, n: int)
    requires period > 0 && expired <= now && 0 <= n && n * period <= now - expired < n * period + period
    ensures Backlog(expired, period, now) == n && NextExpiry(expired, period, now) == expired + n * period + period
  {
    var k, d := Backlog(expired, period, now), now - expired;
    assert k * period <= d < k * period + period;
    if k < n {
      TimesMonotone(k + 1, n, period);
    } else if k > n {
      TimesMonotone(n + 1, k, period);
    }
  }

  /** The next expiry is the least one on the grid that lies ahead. */
  lemma NextExpiryIsLeast(expired: int, period: int, now: int)
    requires period > 0 && expired <= now
    ensures NextExpiry(expired, period, now) - period <= now < NextExpiry(expired, period, now)
  {
  }

  // ---------------------------------------------------------------- steps

  /** A timer that expired at time x is dealt with at time now. */
  function Expire(s: State, t: int, x: int, now: int): State
    requires x <= now
  {
    var p := PeriodOf(s.timers, t);
    if Reloads(s.timers, t) then
      s.(queue := InsertSorted(s.queue, Item(NextExpiry(x, p, now), t)),
        fired := s.fired + Repeat(t, Backlog(x, p, now)) + [t])
    else
      s.(timers := SetActive(s.timers, t, false), fired := s.fired + [t])
  }

  /** prvProcessExpiredTimer */
  function ProcessHead(s: State, now: int): State
    requires s.queue != [] && s.queue[0].value <= now
  {
    Expire(s.(queue := s.queue[1..]), s.queue[0].owner, s.queue[0].value, now)
  }

  lemma HeadDone(s: State, now: int)
    requires Sorted(s.queue) && s.queue != [] && s.queue[0].value <= now
    ensures Sorted(ProcessHead(s, now).queue)
    ensures Pos(ProcessHead(s, now).queue, now) == Pos(s.queue, now) - 1
  {
    var t := s.queue[0].owner;
    var rest, x := s.queue[1..], Item(NextExpiry(s.queue[0].value, PeriodOf(s.timers, t), now), t);
    NextExpiryIsLeast(s.queue[0].value, PeriodOf(s.timers, t), now);
    if Reloads(s.timers, t) {
      InsertKeepsSorted(rest, x);
      PosInsertLater(rest, x, now);
    }
  }

  lemma PosInsertLater(q: seq<Item>, x: Item, now: int)
    requires Sorted(q) && x.value > now
    ensures Pos(InsertSorted(q, x), now) == Pos(q, now)
  {
    InsertKeepsSorted(q, x);
    PosUnique(InsertSorted(q, x), now, Pos(q, now));
  }

  /** Everything due by now is dealt with, in queue order. */
  function FlushTo(s: State, now: int): (r: State)
    requires Sorted(s.queue)
    ensures Sorted(r.queue)
    decreases Pos(s.queue, now)
  {
    if s.queue == [] || s.queue[0].value > now then s
    else
      HeadDone(s, now);
      FlushTo(ProcessHead(s, now), now)
  }

  function EpochEnd(n: int): int { Epoch(n) * M + MAX_DELAY }

  /** prvSampleTimeNow: with the first look in a new epoch, what was left of the old one is dealt with. */
  function Sample(s: State, now: int): (r: State)
    requires Sorted(s.queue)
    ensures Sorted(r.queue)
  {
    (if Epoch(now) != Epoch(s.last) then FlushTo(s, EpochEnd(s.last)) else s).(last := now)
  }

  /** prvProcessTimerOrBlockTask */
  function Process(s: State, now: int): State
    requires Sorted(s.queue)
  {
    var u := Sample(s, now);
    if Epoch(now) == Epoch(s.last) && u.queue != [] && u.queue[0].value <= now then ProcessHead(u, now) else u
  }

  datatype Command = Start(issued: int) | Stop | ChangePeriod(period: int) | Delete

  /** One turn of prvProcessReceivedCommands. */
  function Perform(s: State, now: int, t: int, c: Command): State
    requires Sorted(s.queue) && t in s.timers
  {
    WithoutKeepsSorted(s.queue, t);
    var u := Sample(s.(queue := Without(s.queue, t)), now);
    var p := PeriodOf(u.timers, t);
    match c
    case Start(issued) =>
      var v := u.(timers := SetActive(u.timers, t, true));
      if issued + p <= now then Expire(v, t, issued + p, now)
      else v.(queue := InsertSorted(v.queue, Item(issued + p, t)))
    case Stop => u.(timers := SetActive(u.timers, t, false))
    case ChangePeriod(period) =>
      u.(timers := if t in u.timers then u.timers[t := u.timers[t].(active := true, period := period)] else u.timers,
         queue := InsertSorted(u.queue, Item(now + period, t)))
    case Delete =>
      if t in u.timers && !u.timers[t].permanent then u.(timers := u.timers - {t})
      else u.(timers := SetActive(u.timers, t, false))
  }

  // ---------------------------------------------------------------- invariant

  /** A timer is in the queue, where it is once, exactly if it is marked active; those in away are off it. */
  ghost predicate Filed(timers: map<int, Timer>, queue: seq<Item>, away: set<int>) {
    && Distinct(queue)
    && (forall i :: 0 <= i < |queue| ==> queue[i].owner in timers)
    && (forall t :: t in timers ==> (Find(queue, t) >= 0 <==> timers[t].active && t !in away))
  }

  /** Running timers expire in the epoch of the latest look or in the next. */
  ghost predicate Near(last: int, queue: seq<Item>) {
    forall i :: 0 <= i < |queue| ==> Epoch(last) <= Epoch(queue[i].value) <= Epoch(last) + 1
  }

  ghost predicate Periods(timers: map<int, Timer>) {
    forall t :: t in timers ==> 0 < timers[t].period < M
  }

  ghost predicate GoodBut(s: State, away: set<int>) {
    Sorted(s.queue) && Near(s.last, s.queue) && Filed(s.timers, s.queue, away) && Periods(s.timers)
  }

  /** The invariant of every reachable state. */
  ghost predicate Good(s: State) {
    GoodBut(s, {})
  }

  datatype Op =
    | OpProcess(now: int)
    | OpCommand(now: int, timer: int, command: Command)
    | OpCreate(timer: int, period: int, reload: bool, permanent: bool)  // by any task, at any time

  /** The daemon looks at the clock at least once per turn while a timer runs. */
  ghost predicate InTime(s: State, now: int) {
    s.last <= now && (s.queue == [] || now - s.last < M)
  }

  /** Commands, too, are received in time. */
  ghost predicate Enabled(s: State, op: Op) {
    match op
    case OpProcess(now) => InTime(s, now)
    case OpCommand(now, t, c) =>
      && InTime(s, now) && t in s.timers
      && (c.Start? ==> 0 <= now - c.issued < M)
      && (c.ChangePeriod? ==> 0 < c.period < M)
    case OpCreate(t, period, _, _) => t !in s.timers && 0 < period < M
  }

  function Apply(s: State, op: Op): State
    requires Sorted(s.queue) && (op.OpCommand? ==> op.timer in s.timers)
  {
    match op
    case OpProcess(now) => Process(s, now)
    case OpCommand(now, t, c) => Perform(s, now, t, c)
    case OpCreate(t, period, reload, permanent) => s.(timers := s.timers[t := Timer(period, reload, permanent, false)])
  }

  // ---------------------------------------------------------------- the invariant is kept

  lemma InsertFind(q: seq<Item>, x: Item, t: int)
    ensures Find(InsertSorted(q, x), t) >= 0 <==> t == x.owner || Find(q, t) >= 0
  {
    hide Find, InsertSorted;
    var r := InsertSorted(q, x);
    if Find(r, t) >= 0 {
      InsertMembers(q, x, r[Find(r, t)]);
    }
    if t == x.owner {
      InsertMembers(q, x, x);
    }
    if Find(q, t) >= 0 {
      InsertMembers(q, x, q[Find(q, t)]);
    }
  }

  /** A timer that is off the queue and marked active may be filed. */
  lemma FileTimer(timers: map<int, Timer>, q: seq<Item>, away: set<int>, x: Item)
    requires x.owner in timers && timers[x.owner].active && x.owner !in away && Filed(timers, q, away + {x.owner})
    ensures Filed(timers, InsertSorted(q, x), away)
  {
    hide Find, InsertSorted;
    var r := InsertSorted(q, x);
    InsertDistinct(q, x);
    forall t
      ensures Find(r, t) >= 0 <==> t == x.owner || Find(q, t) >= 0
    {
      InsertFind(q, x, t);
    }
    forall i | 0 <= i < |r|
      ensures r[i].owner in timers
    {
      InsertMembers(q, x, r[i]);
    }
  }

  lemma RemovedAt(q: seq<Item>, i: int)
    requires 0 <= i < |q|
    ensures |RemoveAt(q, i)| == |q| - 1
    ensures forall k :: 0 <= k < |q| - 1 ==> RemoveAt(q, i)[k] == q[if k < i then k else k + 1]
  {
  }

  lemma WithoutFind(q: seq<Item>, t: int, u: int)
    requires Distinct(q)
    ensures Find(Without(q, t), u) >= 0 <==> u != t && Find(q, u) >= 0
  {
    hide RemoveAt, Find;
    var i, r := Find(q, t), Without(q, t);
    if i >= 0 {
      RemovedAt(q, i);
      var j := Find(q, u);
      if j >= 0 && u != t {
        assert r[if j < i then j else j - 1] == q[j];
      }
    }
  }

  lemma UnfileTimer(timers: map<int, Timer>, q: seq<Item>, away: set<int>, t: int)
    requires Filed(timers, q, away)
    ensures Filed(timers, Without(q, t), away + {t})
  {
    hide Find;
    var r := Without(q, t);
    forall u
      ensures Find(r, u) >= 0 <==> u != t && Find(q, u) >= 0
    {
      WithoutFind(q, t, u);
    }
  }

  lemma Deactivate(timers: map<int, Timer>, q: seq<Item>, away: set<int>, t: int)
    requires Filed(timers, q, away + {t}) && t !in away
    ensures Filed(SetActive(timers, t, false), q, away)
    ensures Filed(SetActive(timers, t, true), q, away + {t})
    ensures Periods(timers) ==> Periods(SetActive(timers, t, false)) && Periods(SetActive(timers, t, true))
  {
  }

  lemma InsertNear(last: int, q: seq<Item>, x: Item)
    requires Near(last, q) && Epoch(last) <= Epoch(x.value) <= Epoch(last) + 1
    ensures Near(last, InsertSorted(q, x))
  {
  }

  lemma EpochMonotone(a: int, b: int)
    requires a <= b
    ensures Epoch(a) <= Epoch(b)
    ensures b < a + M ==> Epoch(b) <= Epoch(a) + 1
    ensures Epoch(a) < Epoch(b) <==> EpochEnd(a) < b
    ensures a <= EpochEnd(a) && Epoch(EpochEnd(a)) == Epoch(a)
  {
  }

  lemma ExpireGood(s: State, away: set<int>, t: int, x: int, now: int)
    requires GoodBut(s, away + {t}) && t !in away && t in s.timers && s.timers[t].active
    requires x <= now && Epoch(now) == Epoch(s.last)
    ensures GoodBut(Expire(s, t, x, now), away)
  {
    hide Filed, Epoch, InsertSorted, Near, Sorted, Periods;
    var p := PeriodOf(s.timers, t);
    var e := Item(NextExpiry(x, p, now), t);
    NextExpiryIsLeast(x, p, now);
    Deactivate(s.timers, s.queue, away, t);
    if Reloads(s.timers, t) {
      PeriodBound(s.timers, t);
      FileAt(s, away, e, now);
    }
  }

  /** A timer filed less than a turn ahead. */
  lemma FileAt(s: State, away: set<int>, e: Item, now: int)
    requires GoodBut(s, away + {e.owner}) && e.owner !in away && e.owner in s.timers && s.timers[e.owner].active
    requires now < e.value < now + M && Epoch(now) == Epoch(s.last)
    ensures GoodBut(s.(queue := InsertSorted(s.queue, e)), away)
  {
    hide Filed, Epoch, InsertSorted, Near, Sorted, Periods;
    EpochMonotone(now, e.value);
    InsertKeepsSorted(s.queue, e);
    InsertNear(s.last, s.queue, e);
    FileTimer(s.timers, s.queue, away, e);
  }

  lemma PeriodBound(timers: map<int, Timer>, t: int)
    requires Periods(timers)
    ensures 0 < PeriodOf(timers, t) < M
  {
  }

  lemma HeadTaken(s: State, away: set<int>)
    requires GoodBut(s, away) && s.queue != []
    ensures var t := s.queue[0].owner;
      GoodBut(s.(queue := s.queue[1..]), away + {t}) && t !in away && t in s.timers && s.timers[t].active
  {
    HeadWithout(s.queue);
    UnfileTimer(s.timers, s.queue, away, s.queue[0].owner);
  }

  lemma ProcessHeadGood(s: State, away: set<int>, now: int)
    requires GoodBut(s, away) && s.queue != [] && s.queue[0].value <= now && Epoch(now) == Epoch(s.last)
    ensures GoodBut(ProcessHead(s, now), away) && ProcessHead(s, now).last == s.last
  {
    hide GoodBut, Expire;
    HeadTaken(s, away);
    ExpireGood(s.(queue := s.queue[1..]), away, s.queue[0].owner, s.queue[0].value, now);
    ExpireLast(s.(queue := s.queue[1..]), s.queue[0].owner, s.queue[0].value, now);
  }

  lemma ExpireLast(s: State, t: int, x: int, now: int)
    requires x <= now
    ensures Expire(s, t, x, now).last == s.last && Expire(s, t, x, now).timers.Keys == s.timers.Keys
  {
  }

  lemma {:induction false} FlushGood(s: State, away: set<int>, now: int)
    requires GoodBut(s, away) && Epoch(now) == Epoch(s.last)
    ensures GoodBut(FlushTo(s, now), away) && FlushTo(s, now).last == s.last
    ensures FlushTo(s, now).timers.Keys == s.timers.Keys
    ensures FlushTo(s, now).queue == [] || FlushTo(s, now).queue[0].value > now
    ensures s.queue == [] ==> FlushTo(s, now) == s
    decreases Pos(s.queue, now)
  {
    hide Near, Filed, Periods, Expire, Epoch;
    if s.queue != [] && s.queue[0].value <= now {
      HeadDone(s, now);
      ProcessHeadGood(s, away, now);
      ExpireLast(s.(queue := s.queue[1..]), s.queue[0].owner, s.queue[0].value, now);
      FlushGood(ProcessHead(s, now), away, now);
    }
  }

  /** With nothing left of the old epoch, every running timer belongs to the new one. */
  lemma NextEpochGood(s: State, away: set<int>, last: int)
    requires GoodBut(s, away) && (s.queue == [] || s.queue[0].value > EpochEnd(s.last))
    requires s.last <= last && (s.queue == [] || last - s.last < M) && Epoch(last) != Epoch(s.last)
    ensures GoodBut(s.(last := last), away)
  {
  }

  lemma SampleGood(s: State, away: set<int>, now: int)
    requires GoodBut(s, away) && s.last <= now && (s.queue == [] || now - s.last < M)
    ensures Sorted(s.queue) && GoodBut(Sample(s, now), away) && Sample(s, now).last == now
    ensures Sample(s, now).timers.Keys == s.timers.Keys
  {
    hide Filed, Periods, FlushTo, Epoch;
    if Epoch(now) != Epoch(s.last) {
      EpochMonotone(s.last, s.last);
      FlushGood(s, away, EpochEnd(s.last));
      NextEpochGood(FlushTo(s, EpochEnd(s.last)), away, now);
    }
  }

  lemma ProcessGood(s: State, now: int)
    requires Good(s) && Enabled(s, OpProcess(now))
    ensures Good(Process(s, now))
  {
    hide GoodBut, Sample, ProcessHead, Epoch;
    SampleGood(s, {}, now);
    var u := Sample(s, now);
    if Epoch(now) == Epoch(s.last) && u.queue != [] && u.queue[0].value <= now {
      ProcessHeadGood(u, {}, now);
    }
  }

  lemma PerformGood(s: State, now: int, t: int, c: Command)
    requires Good(s) && Enabled(s, OpCommand(now, t, c))
    ensures Good(Perform(s, now, t, c))
  {
    hide Filed, Near, Periods, Sample, Expire, Epoch, InsertSorted, Without;
    var v := s.(queue := Without(s.queue, t));
    assert {} + {t} == {t};
    WithoutKeepsSorted(s.queue, t);
    TakenGood(s, t);
    SampleGood(v, {t}, now);
    var u := Sample(v, now);
    var a := u.(timers := SetActive(u.timers, t, true));
    Deactivate(u.timers, u.queue, {}, t);
    PeriodBound(u.timers, t);
    match c
    case Start(issued) =>
      var p := PeriodOf(u.timers, t);
      if issued + p <= now {
        ExpireGood(a, {}, t, issued + p, now);
      } else {
        FileAt(a, {}, Item(issued + p, t), now);
      }
    case Stop =>
    case ChangePeriod(period) =>
      var b := u.(timers := u.timers[t := u.timers[t].(active := true, period := period)]);
      Repurpose(u.timers, u.queue, t, period);
      FileAt(b, {}, Item(now + period, t), now);
    case Delete => Remove(u.timers, u.queue, t);
  }

  lemma Repurpose(timers: map<int, Timer>, q: seq<Item>, t: int, period: int)
    requires t in timers && Filed(timers, q, {t}) && Periods(timers) && 0 < period < M
    ensures var r := timers[t := timers[t].(active := true, period := period)]; Filed(r, q, {t}) && Periods(r)
  {
  }

  lemma Remove(timers: map<int, Timer>, q: seq<Item>, t: int)
    requires t in timers && Filed(timers, q, {t}) && Periods(timers)
    ensures Filed(timers - {t}, q, {}) && Periods(timers - {t})
  {
  }

  lemma TakenGood(s: State, t: int)
    requires Good(s)
    ensures GoodBut(s.(queue := Without(s.queue, t)), {t})
    ensures Without(s.queue, t) == [] || s.queue != []
  {
    WithoutKeepsSorted(s.queue, t);
    UnfileTimer(s.timers, s.queue, {}, t);
    assert {} + {t} == {t};
  }

  // ---------------------------------------------------------------- runs

  ghost predicate Follows(s: State, op: Op, u: State) {
    Good(s) ==> Enabled(s, op) && u == Apply(s, op)
  }

  /** A run starts in a good state; that every later one is good too is proved, not assumed. */
  ghost predicate Run(states: seq<State>, ops: seq<Op>) {
    && |states| == |ops| + 1 && Good(states[0])
    && (forall k :: 0 <= k < |ops| ==> Follows(states[k], ops[k], states[k + 1]))
  }

  /** The invariant is kept by every step of the daemon, including list switches. */
  lemma StepGood(s: State, op: Op)
    requires Good(s) && Enabled(s, op)
    ensures Good(Apply(s, op)) && Apply(s, op).last == if op.OpCreate? then s.last else op.now
  {
    hide GoodBut, Process, Perform;
    match op
    case OpCreate(t, period, reload, permanent) => CreateGood(s, t, Timer(period, reload, permanent, false));
    case OpProcess(now) =>
      ProcessGood(s, now);
      StepLast(s, op);
    case OpCommand(now, t, c) =>
      PerformGood(s, now, t, c);
      StepLast(s, op);
  }

  /** A timer is created inactive. */
  lemma CreateGood(s: State, t: int, made: Timer)
    requires Good(s) && t !in s.timers && 0 < made.period < M && !made.active
    ensures Good(s.(timers := s.timers[t := made]))
  {
  }

  /** With no timer started yet, a run can begin. */
  lemma FreshGood(timers: map<int, Timer>)
    requires Periods(timers) && forall t :: t in timers ==> !timers[t].active
    ensures Good(State(0, [], timers, []))
  {
  }

  lemma StepLast(s: State, op: Op)
    requires Good(s) && Enabled(s, op) && !op.OpCreate?
    ensures Apply(s, op).last == op.now
  {
  }

  /** The invariant holds all along a run. */
  lemma {:induction false} RunGood(states: seq<State>, ops: seq<Op>, k: nat)
    requires Run(states, ops) && k <= |ops|
    ensures Good(states[k])
    ensures k < |ops| ==> Enabled(states[k], ops[k]) && states[k + 1] == Apply(states[k], ops[k])
  {
    hide Good, Enabled, Apply;
    if k > 0 {
      RunGood(states, ops, k - 1);
      StepGood(states[k - 1], ops[k - 1]);
    }
    assert k < |ops| ==> Follows(states[k], ops[k], states[k + 1]);
  }

  function Callbacks(s: State, t: int): nat {
    multiset(s.fired)[t]
  }

  /**
   Auto-reload timer t, which had c callbacks when its next expiry was d: each callback since then
   stands for one expiry on the grid d, d + p, ..., none of them later than limit.
   */
  ghost predicate OnGrid(s: State, t: int, d: int, p: int, c: nat, limit: int) {
    && t in s.timers && s.timers[t].reload && s.timers[t].period == p
    && Callbacks(s, t) >= c
    && Item(d + (Callbacks(s, t) - c) * p, t) in s.queue
    && (Callbacks(s, t) > c ==> d + (Callbacks(s, t) - c) * p - p <= limit)
  }

  lemma RepeatCount(f: seq<int>, t: int, n: nat, u: int)
    ensures multiset(f + Repeat(t, n) + [t])[u] == multiset(f)[u] + if u == t then n + 1 else 0
  {
    RepeatMultiset(t, n, u);
  }

  lemma {:induction false} RepeatMultiset(t: int, n: nat, u: int)
    ensures multiset(Repeat(t, n))[u] == if u == t then n else 0
  {
    if n > 0 {
      RepeatMultiset(t, n - 1, u);
      assert Repeat(t, n) == Repeat(t, n - 1) + [t];
    }
  }

  /** Another timer's expiry does not concern t. */
  lemma ExpireOther(s: State, u: int, x: int, now: int, t: int, d: int, p: int, c: nat, limit: int)
    requires OnGrid(s, t, d, p, c, limit) && u != t && x <= now
    ensures OnGrid(Expire(s, u, x, now), t, d, p, c, limit)
  {
    hide InsertSorted;
    var q := PeriodOf(s.timers, u);
    RepeatCount(s.fired, u, Backlog(x, q, now), t);
    InsertMembers(s.queue, Item(NextExpiry(x, q, now), u), Item(d + (Callbacks(s, t) - c) * p, t));
  }

  /** Its own expiry moves t along the grid by as many periods as it calls back. */
  lemma ExpireOwn(s: State, now: int, t: int, d: int, p: int, c: nat, n: nat)
    requires t in s.timers && s.timers[t].reload && s.timers[t].period == p && p > 0
    requires Callbacks(s, t) == c + n && d + n * p <= now
    ensures OnGrid(Expire(s, t, d + n * p, now), t, d, p, c, now)
  {
    hide InsertSorted;
    var x := d + n * p;
    var k := Backlog(x, p, now);
    RepeatCount(s.fired, t, k, t);
    NextExpiryIsLeast(x, p, now);
    var e := Item(NextExpiry(x, p, now), t);
    InsertMembers(s.queue, e, e);
    AddTimes(n, k + 1, p);
  }

  lemma AddTimes(a: int, b: int, p: int)
    ensures (a + b) * p == a * p + b * p
  {
  }

  lemma HeadOnGrid(s: State, away: set<int>, now: int, t: int, d: int, p: int, c: nat, limit: int)
    requires GoodBut(s, away) && s.queue != [] && s.queue[0].value <= now
    requires OnGrid(s, t, d, p, c, limit) && limit <= now && p > 0
    ensures OnGrid(ProcessHead(s, now), t, d, p, c, now)
  {
    hide Near, Periods, Expire;
    var n := Callbacks(s, t) - c;
    var u := s.queue[0].owner;
    var e := Item(d + n * p, t);
    var rest := s.(queue := s.queue[1..]);
    var i :| 0 <= i < |s.queue| && s.queue[i] == e;
    if u == t {
      assert i == 0;
      ExpireOwn(rest, now, t, d, p, c, n);
    } else {
      assert rest.queue[i - 1] == e;
      ExpireOther(rest, u, s.queue[0].value, now, t, d, p, c, now);
    }
  }

  lemma {:induction false} FlushOnGrid(s: State, away: set<int>, now: int, t: int, d: int, p: int, c: nat, limit: int)
    requires GoodBut(s, away) && Epoch(now) == Epoch(s.last)
    requires OnGrid(s, t, d, p, c, limit) && limit <= now && p > 0
    ensures OnGrid(FlushTo(s, now), t, d, p, c, now)
    decreases Pos(s.queue, now)
  {
    hide Near, Filed, Periods, Expire, Epoch, OnGrid, ProcessHead;
    if s.queue != [] && s.queue[0].value <= now {
      HeadDone(s, now);
      ProcessHeadGood(s, away, now);
      HeadOnGrid(s, away, now, t, d, p, c, limit);
      FlushOnGrid(ProcessHead(s, now), away, now, t, d, p, c, now);
    } else {
      LaterLimit(s, s, t, d, p, c, limit, now);
    }
  }

  lemma LaterLimit(s: State, u: State, t: int, d: int, p: int, c: nat, limit: int, now: int)
    requires OnGrid(s, t, d, p, c, limit) && limit <= now && u.timers == s.timers
    requires u.queue == s.queue && u.fired == s.fired
    ensures OnGrid(u, t, d, p, c, now)
  {
  }

  lemma SampleOnGrid(s: State, away: set<int>, now: int, t: int, d: int, p: int, c: nat)
    requires GoodBut(s, away) && s.last <= now && OnGrid(s, t, d, p, c, s.last) && p > 0
    ensures Sorted(s.queue) && OnGrid(Sample(s, now), t, d, p, c, now)
  {
    hide Near, Filed, Periods, Epoch, OnGrid, FlushTo;
    EpochMonotone(s.last, now);
    if Epoch(now) != Epoch(s.last) {
      EpochMonotone(s.last, s.last);
      FlushOnGrid(s, away, EpochEnd(s.last), t, d, p, c, s.last);
      var u := FlushTo(s, EpochEnd(s.last));
      LaterLimit(u, u.(last := now), t, d, p, c, EpochEnd(s.last), now);
    } else {
      LaterLimit(s, s.(last := now), t, d, p, c, s.last, now);
    }
  }

  lemma ProcessOnGrid(s: State, now: int, t: int, d: int, p: int, c: nat)
    requires Good(s) && Enabled(s, OpProcess(now)) && OnGrid(s, t, d, p, c, s.last) && p > 0
    ensures OnGrid(Process(s, now), t, d, p, c, now)
  {
    hide GoodBut, Sample, ProcessHead, Epoch, OnGrid;
    SampleGood(s, {}, now);
    SampleOnGrid(s, {}, now, t, d, p, c);
    var u := Sample(s, now);
    if Epoch(now) == Epoch(s.last) && u.queue != [] && u.queue[0].value <= now {
      HeadOnGrid(u, {}, now, t, d, p, c, now);
    }
  }

  lemma PerformOnGrid(s: State, now: int, u: int, k: Command, t: int, d: int, p: int, c: nat)
    requires Good(s) && Enabled(s, OpCommand(now, u, k)) && u != t && OnGrid(s, t, d, p, c, s.last) && p > 0
    ensures OnGrid(Perform(s, now, u, k), t, d, p, c, now)
  {
    hide GoodBut, Sample, Epoch, InsertSorted, Without, Expire;
    var v := s.(queue := Without(s.queue, u));
    WithoutKeepsSorted(s.queue, u);
    WithoutKeeps(s.queue, u, Item(d + (Callbacks(s, t) - c) * p, t));
    TakenGood(s, u);
    SampleOnGrid(v, {u}, now, t, d, p, c);
    var w := Sample(v, now);
    var e := Item(d + (Callbacks(w, t) - c) * p, t);
    match k
    case Start(issued) =>
      var x := issued + PeriodOf(w.timers, u);
      var a := w.(timers := SetActive(w.timers, u, true));
      if x <= now {
        ExpireOther(a, u, x, now, t, d, p, c, now);
      } else {
        InsertMembers(w.queue, Item(x, u), e);
      }
    case Stop =>
    case ChangePeriod(period) => InsertMembers(w.queue, Item(now + period, u), e);
    case Delete =>
  }

  lemma CreateOnGrid(s: State, op: Op, t: int, d: int, p: int, c: nat)
    requires Good(s) && Enabled(s, op) && op.OpCreate? && OnGrid(s, t, d, p, c, s.last)
    ensures OnGrid(Apply(s, op), t, d, p, c, s.last)
  {
  }

  lemma {:induction false} GridAlong(states: seq<State>, ops: seq<Op>, i: nat, j: nat, t: int, d: int, p: int)
    requires Run(states, ops) && i <= j <= |ops|
    requires OnGrid(states[i], t, d, p, Callbacks(states[i], t), states[i].last) && p > 0
    requires forall k :: i <= k < j ==> !(ops[k].OpCommand? && ops[k].timer == t)
    ensures OnGrid(states[j], t, d, p, Callbacks(states[i], t), states[j].last)
  {
    hide Good, Enabled, OnGrid, Process, Perform, Callbacks;
    if i < j {
      GridAlong(states, ops, i, j - 1, t, d, p);
      var s, op := states[j - 1], ops[j - 1];
      RunGood(states, ops, j - 1);
      StepGood(s, op);
      match op
      case OpProcess(now) => ProcessOnGrid(s, now, t, d, p, Callbacks(states[i], t));
      case OpCommand(now, u, k) => PerformOnGrid(s, now, u, k, t, d, p, Callbacks(states[i], t));
      case OpCreate(u, _, _, _) => CreateOnGrid(s, op, t, d, p, Callbacks(states[i], t));
    }
  }

  /**
   No auto-reload expiry is lost, doubled, early or off the grid. If t is running with next expiry d in
   some state, and no command concerns it from there on, then in every later state t is running, its
   next expiry is d + n * p where n is the number of its callbacks since, and the latest of those
   stands for an expiry not later than the daemon's last look. When the daemon has nothing overdue,
   n is the number of expiries up to that look.
   */
  lemma CallbacksFollowGrid(states: seq<State>, ops: seq<Op>, i: nat, j: nat, t: int, d: int)
    requires Run(states, ops) && i <= j <= |ops|
    requires Item(d, t) in states[i].queue && t in states[i].timers && states[i].timers[t].reload
    requires forall k :: i <= k < j ==> !(ops[k].OpCommand? && ops[k].timer == t)
    ensures var p, n, z := PeriodOf(states[i].timers, t), Callbacks(states[j], t) - Callbacks(states[i], t), states[j];
            && n >= 0 && Item(d + n * p, t) in z.queue && t in z.timers && z.timers[t].active
            && (n > 0 ==> d + n * p - p <= z.last)
            && (z.queue[0].value > z.last ==> n == if d > z.last then 0 else Backlog(d, p, z.last) + 1)
  {
    hide Good, Follows, Backlog, Callbacks, OnGrid;
    var p, z := PeriodOf(states[i].timers, t), states[j];
    var n := Callbacks(z, t) - Callbacks(states[i], t);
    RunGood(states, ops, i);
    RunGood(states, ops, j);
    GridStart(states[i], t, d);
    GridAlong(states, ops, i, j, t, d, p);
    GridEnd(z, t, d, p, n, Callbacks(states[i], t));
    Listed(z, Item(d + n * p, t));
    if z.queue[0].value > z.last {
      CaughtUp(d, p, z.last, n);
    }
  }

  lemma GridStart(s: State, t: int, d: int)
    requires Good(s) && Item(d, t) in s.queue && t in s.timers && s.timers[t].reload
    ensures OnGrid(s, t, d, PeriodOf(s.timers, t), Callbacks(s, t), s.last)
  {
    hide Callbacks;
  }

  lemma GridEnd(s: State, t: int, d: int, p: int, n: int, c: nat)
    requires OnGrid(s, t, d, p, c, s.last) && n == Callbacks(s, t) - c
    ensures n >= 0 && Item(d + n * p, t) in s.queue && (n > 0 ==> d + n * p - p <= s.last)
  {
  }

  lemma Listed(s: State, e: Item)
    requires Good(s) && e in s.queue
    ensures s.queue[0].value <= e.value && e.owner in s.timers && s.timers[e.owner].active
  {
  }

  lemma CaughtUp(d: int, p: int, now: int, n: nat)
    requires p > 0 && d + n * p > now && (n > 0 ==> d + n * p - p <= now)
    ensures n == if d > now then 0 else Backlog(d, p, now) + 1
  {
    if n > 0 {
      TimesMonotone(0, n - 1, p);
      AddTimes(n - 1, 1, p);
      BacklogUnique(d, p, now, n - 1);
    }
  }
}
