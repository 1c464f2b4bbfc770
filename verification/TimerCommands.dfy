/**
 What each timer command does, in terms of the queue of running timers, the active mark and the callbacks;
 that a stopped timer stays quiet, that a one-shot timer calls back once, and that the daemon catches up.
 */
module TimerCommands {
  import opened Basics
  import opened Ticks
  import opened ListSpec
  import opened TimerSpec

  /** Timer t is not in the queue of running timers. */
  ghost predicate Quiet(s: State, t: int) {
    forall i :: 0 <= i < |s.queue| ==> s.queue[i].owner != t
  }

  /** As far as timer t is concerned nothing happened: it is as it was, off the queue, with no callback. */
  ghost predicate Undisturbed(s: State, u: State, t: int) {
    && Quiet(u, t) && Callbacks(u, t) == Callbacks(s, t)
    && (t in u.timers <==> t in s.timers) && (t in s.timers ==> u.timers[t] == s.timers[t])
  }

  // ---------------------------------------------------------------- a timer that is off the queue

  lemma ExpireQuiet(s: State, u: int, x: int, now: int, t: int)
    requires Quiet(s, t) && u != t && x <= now
    ensures Undisturbed(s, Expire(s, u, x, now), t)
  {
    hide InsertSorted;
    var p := PeriodOf(s.timers, u);
    RepeatCount(s.fired, u, Backlog(x, p, now), t);
    var e := Item(NextExpiry(x, p, now), u);
    InsertedQuiet(s, e, t);
  }

  lemma InsertedQuiet(s: State, e: Item, t: int)
    requires Quiet(s, t) && e.owner != t
    ensures Quiet(s.(queue := InsertSorted(s.queue, e)), t)
  {
    hide InsertSorted;
    var r := InsertSorted(s.queue, e);
    forall i | 0 <= i < |r|
      ensures r[i].owner != t
    {
      InsertMembers(s.queue, e, r[i]);
    }
  }

  lemma HeadQuiet(s: State, now: int, t: int)
    requires Quiet(s, t) && s.queue != [] && s.queue[0].value <= now
    ensures Undisturbed(s, ProcessHead(s, now), t)
  {
    hide Expire;
    ExpireQuiet(s.(queue := s.queue[1..]), s.queue[0].owner, s.queue[0].value, now, t);
  }

  lemma {:induction false} FlushQuiet(s: State, now: int, t: int)
    requires Sorted(s.queue) && Quiet(s, t)
    ensures Undisturbed(s, FlushTo(s, now), t)
    decreases Pos(s.queue, now)
  {
    hide Expire, Sorted, ProcessHead;
    if s.queue != [] && s.queue[0].value <= now {
      HeadDone(s, now);
      HeadQuiet(s, now, t);
      FlushQuiet(ProcessHead(s, now), now, t);
    }
  }

  lemma SampleQuiet(s: State, now: int, t: int)
    requires Sorted(s.queue) && Quiet(s, t)
    ensures Undisturbed(s, Sample(s, now), t)
  {
    hide FlushTo, Sorted, Epoch;
    if Epoch(now) != Epoch(s.last) {
      FlushQuiet(s, EpochEnd(s.last), t);
    }
  }

  lemma ProcessQuiet(s: State, now: int, t: int)
    requires Sorted(s.queue) && Quiet(s, t)
    ensures Undisturbed(s, Process(s, now), t)
  {
    hide Sample, ProcessHead, Sorted, Epoch;
    SampleQuiet(s, now, t);
    var u := Sample(s, now);
    if u.queue != [] && u.queue[0].value <= now {
      HeadQuiet(u, now, t);
    }
  }

  /** A timer taken off the queue, as for a command, is quiet until the daemon gets to the command. */
  lemma TakenQuiet(s: State, now: int, t: int)
    requires Good(s)
    ensures var v := s.(queue := Without(s.queue, t));
            && Sorted(v.queue) && Quiet(v, t) && Undisturbed(s.(queue := v.queue), Sample(v, now), t)
            && Callbacks(Sample(v, now), t) == Callbacks(s, t)
  {
    hide Sample, Near, Periods, Sorted, Distinct, Find;
    var v := s.(queue := Without(s.queue, t));
    WithoutKeepsSorted(s.queue, t);
    WithoutKeepsDistinct(s.queue, t);
    SampleQuiet(v, now, t);
  }

  lemma WithoutOther(s: State, u: int, t: int)
    requires Quiet(s, t)
    ensures Quiet(s.(queue := Without(s.queue, u)), t)
  {
  }

  /** A command to another timer. */
  lemma PerformQuiet(s: State, now: int, u: int, c: Command, t: int)
    requires Good(s) && u in s.timers && Quiet(s, t) && u != t
    ensures Sorted(s.queue) && Undisturbed(s, Perform(s, now, u, c), t)
  {
    hide Sample, Sorted, InsertSorted, Without, Expire, Near, Filed, Periods;
    var v := s.(queue := Without(s.queue, u));
    WithoutKeepsSorted(s.queue, u);
    WithoutOther(s, u, t);
    SampleQuiet(v, now, t);
    var w := Sample(v, now);
    match c
    case Start(issued) =>
      var x := issued + PeriodOf(w.timers, u);
      var a := w.(timers := SetActive(w.timers, u, true));
      if x <= now {
        ExpireQuiet(a, u, x, now, t);
      } else {
        InsertedQuiet(w, Item(x, u), t);
      }
    case Stop =>
    case ChangePeriod(period) => InsertedQuiet(w, Item(now + period, u), t);
    case Delete =>
  }

  // ---------------------------------------------------------------- what each command does

  /** Stop: the timer is inactive and off the queue, and is not called back on the way. */
  lemma StopStops(s: State, now: int, t: int)
    requires Good(s) && Enabled(s, OpCommand(now, t, Stop))
    ensures Sorted(s.queue)
    ensures var u := Perform(s, now, t, Stop);
            && Quiet(u, t) && Callbacks(u, t) == Callbacks(s, t)
            && t in u.timers && u.timers[t] == s.timers[t].(active := false)
  {
    hide Sample, Sorted, Without, Near, Filed, Periods;
    TakenQuiet(s, now, t);
  }

  /** Delete: a timer created at run time is gone; a permanent one is inactive. */
  lemma DeleteDeletes(s: State, now: int, t: int)
    requires Good(s) && Enabled(s, OpCommand(now, t, Delete))
    ensures Sorted(s.queue)
    ensures var u := Perform(s, now, t, Delete);
            && Quiet(u, t) && Callbacks(u, t) == Callbacks(s, t)
            && (t in u.timers <==> s.timers[t].permanent)
            && (s.timers[t].permanent ==> u.timers[t] == s.timers[t].(active := false))
  {
    hide Sample, Sorted, Without, Near, Filed, Periods;
    TakenQuiet(s, now, t);
  }

  /** ChangePeriod: the timer runs with the new period, counted from when the daemon gets to the command. */
  lemma ChangePeriodRestarts(s: State, now: int, t: int, period: int)
    requires Good(s) && Enabled(s, OpCommand(now, t, ChangePeriod(period)))
    ensures Sorted(s.queue)
    ensures var u := Perform(s, now, t, ChangePeriod(period));
            && Item(now + period, t) in u.queue && Callbacks(u, t) == Callbacks(s, t)
            && t in u.timers && u.timers[t] == s.timers[t].(active := true, period := period)
  {
    hide Sample, Sorted, Without, Near, Filed, Periods, InsertSorted;
    TakenQuiet(s, now, t);
    var w := Sample(s.(queue := Without(s.queue, t)), now);
    InsertMembers(w.queue, Item(now + period, t), Item(now + period, t));
  }

  /** Start, received in time: the timer expires one period after the command was issued. */
  lemma StartStarts(s: State, now: int, t: int, issued: int)
    requires Good(s) && Enabled(s, OpCommand(now, t, Start(issued))) && issued + s.timers[t].period > now
    ensures Sorted(s.queue)
    ensures var u := Perform(s, now, t, Start(issued));
            && Item(issued + s.timers[t].period, t) in u.queue && Callbacks(u, t) == Callbacks(s, t)
            && t in u.timers && u.timers[t] == s.timers[t].(active := true)
  {
    hide Sample, Sorted, Without, Near, Filed, InsertSorted;
    TakenQuiet(s, now, t);
    var w := Sample(s.(queue := Without(s.queue, t)), now);
    var e := Item(issued + s.timers[t].period, t);
    InsertMembers(w.queue, e, e);
  }

  /**
   Start, received when the expiry is already past: a one-shot timer is called back at once and is done, an
   auto-reload timer is called back once for every expiry up to now, and the next one is ahead.
   */
  lemma LateStart(s: State, now: int, t: int, issued: int)
    requires Good(s) && Enabled(s, OpCommand(now, t, Start(issued))) && issued + s.timers[t].period <= now
    ensures Sorted(s.queue)
    ensures var u, p := Perform(s, now, t, Start(issued)), s.timers[t].period;
            var n := Callbacks(u, t) - Callbacks(s, t);
            && t in u.timers && u.timers[t] == s.timers[t].(active := s.timers[t].reload)
            && (!s.timers[t].reload ==> n == 1 && Quiet(u, t))
            && (s.timers[t].reload ==>
                  n >= 1 && Item(issued + p + n * p, t) in u.queue && issued + n * p <= now < issued + p + n * p)
  {
    hide Sample, Sorted, Without, Near, Filed, InsertSorted, Callbacks;
    TakenQuiet(s, now, t);
    var w := Sample(s.(queue := Without(s.queue, t)), now);
    var a := w.(timers := SetActive(w.timers, t, true));
    SameFired(w, a, t);
    ExpiredOwn(a, t, issued + s.timers[t].period, now);
  }

  lemma SameFired(s: State, u: State, t: int)
    requires u.fired == s.fired
    ensures Callbacks(u, t) == Callbacks(s, t)
  {
  }

  /** A timer off the queue that expired at x is dealt with at time now. */
  lemma ExpiredOwn(s: State, t: int, x: int, now: int)
    requires Quiet(s, t) && t in s.timers && s.timers[t].period > 0 && s.timers[t].active && x <= now
    ensures var u, p := Expire(s, t, x, now), s.timers[t].period;
            var n := Callbacks(u, t) - Callbacks(s, t);
            && t in u.timers && u.timers[t] == s.timers[t].(active := s.timers[t].reload)
            && (!s.timers[t].reload ==> n == 1 && Quiet(u, t))
            && (s.timers[t].reload ==>
                  n >= 1 && Item(x + n * p, t) in u.queue && x + n * p - p <= now < x + n * p)
  {
    hide InsertSorted;
    var p := s.timers[t].period;
    var k := if s.timers[t].reload then Backlog(x, p, now) else 0;
    RepeatCount(s.fired, t, k, t);
    if s.timers[t].reload {
      NextExpiryIsLeast(x, p, now);
      var e := Item(NextExpiry(x, p, now), t);
      InsertMembers(s.queue, e, e);
    } else {
      assert s.fired + Repeat(t, 0) + [t] == s.fired + [t];
    }
  }

  // ---------------------------------------------------------------- a stopped timer

  /** A command that sets the timer running. */
  predicate SetsRunning(op: Op, t: int) {
    op.OpCommand? && op.timer == t && (op.command.Start? || op.command.ChangePeriod?)
  }

  lemma StepQuiet(s: State, op: Op, t: int)
    requires Good(s) && Enabled(s, op) && Quiet(s, t) && !SetsRunning(op, t)
    ensures Sorted(s.queue) && Quiet(Apply(s, op), t) && Callbacks(Apply(s, op), t) == Callbacks(s, t)
  {
    hide Sorted, Near, Filed, Periods, Process, Perform, Callbacks;
    match op
    case OpProcess(now) => ProcessQuiet(s, now, t);
    case OpCommand(now, u, c) =>
      if u != t {
        PerformQuiet(s, now, u, c, t);
      } else if c.Stop? {
        StopStops(s, now, t);
      } else {
        DeleteDeletes(s, now, t);
      }
    case OpCreate(_, _, _, _) => SameFired(s, Apply(s, op), t);
  }

  /**
   Once a stop or a delete is carried out, the timer is off the queue and inactive and gets no callback, in
   every later state until a start or a change of period concerns it.
   */
  lemma {:induction false} StoppedStaysQuiet(states: seq<State>, ops: seq<Op>, i: nat, j: nat, t: int)
    requires Run(states, ops) && i < j <= |ops|
    requires ops[i].OpCommand? && ops[i].timer == t && (ops[i].command.Stop? || ops[i].command.Delete?)
    requires forall k :: i < k < j ==> !SetsRunning(ops[k], t)
    ensures var z := states[j];
            Quiet(z, t) && Callbacks(z, t) == Callbacks(states[i], t) && (t in z.timers ==> !z.timers[t].active)
  {
    hide Good, Enabled, Apply, Callbacks, Quiet, SetsRunning;
    RunGood(states, ops, j - 1);
    RunGood(states, ops, j);
    if j == i + 1 {
      Silenced(states[i], ops[i], t);
    } else {
      StoppedStaysQuiet(states, ops, i, j - 1, t);
      StepQuiet(states[j - 1], ops[j - 1], t);
    }
    if t in states[j].timers {
      QuietInactive(states[j], t);
    }
  }

  lemma Silenced(s: State, op: Op, t: int)
    requires Good(s) && Enabled(s, op) && op.OpCommand? && op.timer == t && (op.command.Stop? || op.command.Delete?)
    ensures Sorted(s.queue) && Quiet(Apply(s, op), t) && Callbacks(Apply(s, op), t) == Callbacks(s, t)
  {
    hide Sorted, Near, Filed, Periods, Perform, Callbacks;
    if op.command.Stop? {
      StopStops(s, op.now, t);
    } else {
      DeleteDeletes(s, op.now, t);
    }
  }

  lemma QuietInactive(s: State, t: int)
    requires Good(s) && Quiet(s, t) && t in s.timers
    ensures !s.timers[t].active
  {
  }

  // ---------------------------------------------------------------- one-shot timers

  /** One-shot timer t, with c callbacks when it was running with expiry d: still so, or called back once and done. */
  ghost predicate OneShot(s: State, t: int, d: int, c: nat, limit: int) {
    && t in s.timers && !s.timers[t].reload
    && ((Item(d, t) in s.queue && Callbacks(s, t) == c) || (Quiet(s, t) && Callbacks(s, t) == c + 1 && d <= limit))
  }

  lemma ExpireOtherOnce(s: State, u: int, x: int, now: int, t: int, d: int, c: nat, limit: int)
    requires OneShot(s, t, d, c, limit) && u != t && x <= now
    ensures OneShot(Expire(s, u, x, now), t, d, c, limit)
  {
    hide InsertSorted, Callbacks;
    var p := PeriodOf(s.timers, u);
    OtherFired(s, u, x, now, t);
    InsertMembers(s.queue, Item(NextExpiry(x, p, now), u), Item(d, t));
    if Quiet(s, t) {
      ExpireQuiet(s, u, x, now, t);
    }
  }

  lemma OtherFired(s: State, u: int, x: int, now: int, t: int)
    requires u != t && x <= now
    ensures Callbacks(Expire(s, u, x, now), t) == Callbacks(s, t)
  {
    hide InsertSorted;
    RepeatCount(s.fired, u, Backlog(x, PeriodOf(s.timers, u), now), t);
  }

  lemma HeadOnce(s: State, away: set<int>, now: int, t: int, d: int, c: nat, limit: int)
    requires GoodBut(s, away) && s.queue != [] && s.queue[0].value <= now
    requires OneShot(s, t, d, c, limit) && limit <= now
    ensures OneShot(ProcessHead(s, now), t, d, c, now)
  {
    hide Near, Periods, Expire, Callbacks;
    var u, rest := s.queue[0].owner, s.(queue := s.queue[1..]);
    SameFired(s, rest, t);
    if u == t {
      OnlyItem(s, away, t);
      HeadPeriod(s, away);
      OwnExpiry(rest, t, s.queue[0].value, now);
    } else {
      RestOnce(s, t, d, c, limit);
      ExpireOtherOnce(rest, u, s.queue[0].value, now, t, d, c, limit);
    }
  }

  lemma RestOnce(s: State, t: int, d: int, c: nat, limit: int)
    requires OneShot(s, t, d, c, limit) && s.queue != [] && s.queue[0].owner != t
    ensures OneShot(s.(queue := s.queue[1..]), t, d, c, limit)
  {
    var rest := s.queue[1..];
    if Item(d, t) in s.queue {
      var i :| 0 <= i < |s.queue| && s.queue[i] == Item(d, t);
      assert rest[i - 1] == Item(d, t);
    }
  }

  /** The head is the only item of its timer. */
  lemma OnlyItem(s: State, away: set<int>, t: int)
    requires GoodBut(s, away) && s.queue != [] && s.queue[0].owner == t
    ensures Quiet(s.(queue := s.queue[1..]), t) && !Quiet(s, t)
    ensures forall d :: Item(d, t) in s.queue ==> d == s.queue[0].value
  {
    hide Near, Periods, Sorted;
  }

  lemma HeadPeriod(s: State, away: set<int>)
    requires GoodBut(s, away) && s.queue != []
    ensures s.queue[0].owner in s.timers && s.timers[s.queue[0].owner].period > 0 && s.timers[s.queue[0].owner].active
  {
    hide Near, Sorted, Distinct;
    assert Find(s.queue, s.queue[0].owner) >= 0;
  }

  lemma OwnExpiry(s: State, t: int, x: int, now: int)
    requires Quiet(s, t) && t in s.timers && s.timers[t].period > 0 && s.timers[t].active
    requires !s.timers[t].reload && x <= now
    ensures var u := Expire(s, t, x, now);
            Quiet(u, t) && Callbacks(u, t) == Callbacks(s, t) + 1 && t in u.timers && !u.timers[t].reload
  {
    hide Callbacks;
    ExpiredOwn(s, t, x, now);
  }

  lemma {:induction false} FlushOnce(s: State, away: set<int>, now: int, t: int, d: int, c: nat, limit: int)
    requires GoodBut(s, away) && Epoch(now) == Epoch(s.last) && OneShot(s, t, d, c, limit) && limit <= now
    ensures OneShot(FlushTo(s, now), t, d, c, now)
    decreases Pos(s.queue, now)
  {
    hide Near, Filed, Periods, Expire, Epoch, ProcessHead, Callbacks, Quiet;
    if s.queue != [] && s.queue[0].value <= now {
      HeadDone(s, now);
      ProcessHeadGood(s, away, now);
      HeadOnce(s, away, now, t, d, c, limit);
      FlushOnce(ProcessHead(s, now), away, now, t, d, c, now);
    }
  }

  lemma OnceLater(s: State, u: State, t: int, d: int, c: nat, limit: int, later: int)
    requires OneShot(s, t, d, c, limit) && limit <= later
    requires u.queue == s.queue && u.timers == s.timers && u.fired == s.fired
    ensures OneShot(u, t, d, c, later)
  {
  }

  lemma SampleOnce(s: State, away: set<int>, now: int, t: int, d: int, c: nat)
    requires GoodBut(s, away) && s.last <= now && OneShot(s, t, d, c, s.last)
    ensures Sorted(s.queue) && OneShot(Sample(s, now), t, d, c, now)
  {
    hide Near, Filed, Periods, Epoch, OneShot, FlushTo;
    EpochMonotone(s.last, now);
    if Epoch(now) != Epoch(s.last) {
      EpochMonotone(s.last, s.last);
      FlushOnce(s, away, EpochEnd(s.last), t, d, c, s.last);
      var u := FlushTo(s, EpochEnd(s.last));
      OnceLater(u, u.(last := now), t, d, c, EpochEnd(s.last), now);
    } else {
      OnceLater(s, s.(last := now), t, d, c, s.last, now);
    }
  }

  lemma ProcessOnce(s: State, now: int, t: int, d: int, c: nat)
    requires Good(s) && Enabled(s, OpProcess(now)) && OneShot(s, t, d, c, s.last)
    ensures Sorted(s.queue) && OneShot(Process(s, now), t, d, c, now)
  {
    hide GoodBut, Sample, ProcessHead, Epoch, OneShot;
    SampleGood(s, {}, now);
    SampleOnce(s, {}, now, t, d, c);
    var u := Sample(s, now);
    if Epoch(now) == Epoch(s.last) && u.queue != [] && u.queue[0].value <= now {
      HeadOnce(u, {}, now, t, d, c, now);
    }
  }

  lemma PerformOnce(s: State, now: int, u: int, k: Command, t: int, d: int, c: nat)
    requires Good(s) && Enabled(s, OpCommand(now, u, k)) && u != t && OneShot(s, t, d, c, s.last)
    ensures Sorted(s.queue) && OneShot(Perform(s, now, u, k), t, d, c, now)
  {
    hide GoodBut, Sample, Epoch, InsertSorted, Without, Expire, OneShot;
    var v := s.(queue := Without(s.queue, u));
    WithoutKeepsSorted(s.queue, u);
    TakenGood(s, u);
    GoodSorted(s);
    WithoutOnce(s, u, t, d, c);
    SampleOnce(v, {u}, now, t, d, c);
    var w, r := Sample(v, now), Perform(s, now, u, k);
    OnceKnown(w, t, d, c, now);
    match k
    case Start(issued) =>
      var x := issued + PeriodOf(w.timers, u);
      var a := w.(timers := SetActive(w.timers, u, true));
      OtherChanged(w, a, t, d, c, now);
      if x <= now {
        ExpireOtherOnce(a, u, x, now, t, d, c, now);
      } else {
        InsertedOnce(a, Item(x, u), t, d, c, now);
      }
    case Stop => OtherChanged(w, r, t, d, c, now);
    case ChangePeriod(period) =>
      OtherChanged(w, r.(queue := w.queue), t, d, c, now);
      InsertedOnce(r.(queue := w.queue), Item(now + period, u), t, d, c, now);
    case Delete => OtherChanged(w, r, t, d, c, now);
  }

  lemma OnceKnown(s: State, t: int, d: int, c: nat, limit: int)
    requires OneShot(s, t, d, c, limit)
    ensures t in s.timers && !s.timers[t].reload
  {
  }

  /** A change to another timer's entry. */
  lemma OtherChanged(s: State, u: State, t: int, d: int, c: nat, limit: int)
    requires OneShot(s, t, d, c, limit) && u.queue == s.queue && u.fired == s.fired
    requires t in s.timers && t in u.timers && u.timers[t] == s.timers[t]
    ensures OneShot(u, t, d, c, limit)
  {
  }

  lemma WithoutOnce(s: State, u: int, t: int, d: int, c: nat)
    requires OneShot(s, t, d, c, s.last) && u != t
    ensures OneShot(s.(queue := Without(s.queue, u)), t, d, c, s.last)
  {
    hide Without;
    if Item(d, t) in s.queue {
      WithoutKeeps(s.queue, u, Item(d, t));
    } else {
      WithoutOther(s, u, t);
    }
  }

  lemma InsertedOnce(s: State, e: Item, t: int, d: int, c: nat, limit: int)
    requires OneShot(s, t, d, c, limit) && e.owner != t
    ensures OneShot(s.(queue := InsertSorted(s.queue, e)), t, d, c, limit)
  {
    hide InsertSorted;
    InsertMembers(s.queue, e, Item(d, t));
    if Quiet(s, t) {
      InsertedQuiet(s, e, t);
    }
  }

  lemma {:induction false} OnceAlong(states: seq<State>, ops: seq<Op>, i: nat, j: nat, t: int, d: int)
    requires Run(states, ops) && i <= j <= |ops|
    requires Item(d, t) in states[i].queue && t in states[i].timers && !states[i].timers[t].reload
    requires forall k :: i <= k < j ==> !(ops[k].OpCommand? && ops[k].timer == t)
    ensures OneShot(states[j], t, d, Callbacks(states[i], t), states[j].last)
  {
    hide Good, Enabled, Process, Perform, Callbacks, Quiet;
    if i < j {
      OnceAlong(states, ops, i, j - 1, t, d);
      var s, op, c := states[j - 1], ops[j - 1], Callbacks(states[i], t);
      RunGood(states, ops, j - 1);
      StepGood(s, op);
      match op
      case OpProcess(now) => ProcessOnce(s, now, t, d, c);
      case OpCommand(now, u, k) => PerformOnce(s, now, u, k, t, d, c);
      case OpCreate(_, _, _, _) => CreateOnce(s, op, t, d, c);
    }
  }

  lemma CreateOnce(s: State, op: Op, t: int, d: int, c: nat)
    requires Good(s) && Enabled(s, op) && op.OpCreate? && OneShot(s, t, d, c, s.last)
    ensures OneShot(Apply(s, op), t, d, c, s.last)
  {
  }

  /**
   A one-shot timer is called back once, not early and not twice. If t is running with expiry d, and no
   command concerns it from there on, then in every later state it is running still, not called back, or it
   has had exactly one callback, after d, and is inactive; and once nothing is overdue it is the latter
   exactly if the daemon has looked at the clock at d or later.
   */
  lemma OneShotFiresOnce(states: seq<State>, ops: seq<Op>, i: nat, j: nat, t: int, d: int)
    requires Run(states, ops) && i <= j <= |ops|
    requires Item(d, t) in states[i].queue && t in states[i].timers && !states[i].timers[t].reload
    requires forall k :: i <= k < j ==> !(ops[k].OpCommand? && ops[k].timer == t)
    ensures var n, z := Callbacks(states[j], t) - Callbacks(states[i], t), states[j];
            && t in z.timers && (n == 0 || n == 1) && (n == 1 ==> d <= z.last && !z.timers[t].active && Quiet(z, t))
            && (n == 0 ==> z.timers[t].active && Item(d, t) in z.queue)
            && ((z.queue == [] || z.queue[0].value > z.last) ==> (n == 1 <==> d <= z.last))
  {
    hide Good, Follows, Callbacks, Quiet;
    OnceAlong(states, ops, i, j, t, d);
    RunGood(states, ops, j);
    var z := states[j];
    if Item(d, t) in z.queue {
      Listed(z, Item(d, t));
      NotQuiet(z, Item(d, t));
    } else {
      QuietInactive(z, t);
    }
  }

  lemma NotQuiet(s: State, e: Item)
    requires e in s.queue
    ensures !Quiet(s, e.owner)
  {
  }

  // ---------------------------------------------------------------- the daemon catches up

  /** A turn of the daemon deals with the earliest expiry that is due, the first filed among equals, and only that. */
  lemma ProcessTakesEarliest(s: State, now: int)
    requires Good(s) && Enabled(s, OpProcess(now)) && Epoch(now) == Epoch(s.last)
    ensures Sorted(s.queue)
    ensures var u := Process(s, now);
            if s.queue == [] || s.queue[0].value > now then u == s.(last := now)
            else
              && u.last == now && Pos(u.queue, now) == Pos(s.queue, now) - 1
              && |u.fired| > |s.fired| && u.fired[..|s.fired|] == s.fired
              && (forall k :: |s.fired| <= k < |u.fired| ==> u.fired[k] == s.queue[0].owner)
  {
    hide Near, Filed, Periods, Epoch, Sorted, InsertSorted;
    GoodSorted(s);
    if s.queue != [] && s.queue[0].value <= now {
      var v := s.(last := now);
      HeadDone(v, now);
    }
  }

  lemma GoodSorted(s: State)
    requires Good(s)
    ensures Sorted(s.queue)
  {
  }

  /** Looking again and again at one time, the daemon has nothing overdue after as many turns as there was overdue. */
  lemma {:induction false} DaemonCatchesUp(states: seq<State>, ops: seq<Op>, now: int, k: nat)
    requires Run(states, ops) && k <= |ops| && states[0].last == now
    requires forall l :: 0 <= l < |ops| ==> ops[l] == OpProcess(now)
    ensures states[k].last == now
    ensures Pos(states[k].queue, now) == if k < Pos(states[0].queue, now) then Pos(states[0].queue, now) - k else 0
    ensures k >= Pos(states[0].queue, now) ==> states[k].queue == [] || states[k].queue[0].value > now
  {
    hide Good, Enabled, Apply;
    if k > 0 {
      DaemonCatchesUp(states, ops, now, k - 1);
      RunGood(states, ops, k - 1);
      ProcessApplied(states[k - 1], now);
      ProcessTakesEarliest(states[k - 1], now);
      NoneDue(states[k - 1], now);
    }
    NoneDue(states[k], now);
  }

  lemma ProcessApplied(s: State, now: int)
    requires Good(s) && Enabled(s, OpProcess(now))
    ensures Sorted(s.queue) && Apply(s, OpProcess(now)) == Process(s, now)
  {
  }

  lemma NoneDue(s: State, now: int)
    ensures Pos(s.queue, now) == 0 <==> s.queue == [] || s.queue[0].value > now
  {
  }

  /** The first look in a new epoch deals with all that was left of the old one. */
  lemma NewEpochFlushes(s: State, now: int)
    requires Good(s) && Enabled(s, OpProcess(now)) && Epoch(now) != Epoch(s.last)
    ensures Sorted(s.queue)
    ensures var u := Process(s, now); u.last == now && (u.queue == [] || u.queue[0].value > EpochEnd(s.last))
  {
    hide Near, Filed, Periods, Epoch, Sorted, FlushTo, EpochEnd;
    GoodSorted(s);
    EpochEnds(s);
    FlushGood(s, {}, EpochEnd(s.last));
  }

  lemma EpochEnds(s: State)
    ensures Epoch(EpochEnd(s.last)) == Epoch(s.last)
  {
    EpochMonotone(s.last, s.last);
  }
}
