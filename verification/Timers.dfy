/**
 The timer service daemon: a current and an overflow list of wrapped expiry times that change places
 when the tick count wraps, late commands, and the backlog loop of auto-reload timers. Every method
 is proved to do what module TimerSpec says in unbounded time.
 */
module Timers {
  import opened Ticks
  import opened ListSpec
  import opened TwoLists
  import opened TimerSpec
  import Deadlines

  /**
   The decision of prvInsertTimerInActiveList on wrapped times: for a command issued at true time
   issued, looked at less than a full turn later, the timer is processed now exactly when it is
   already due, and otherwise filed under the epoch it expires in.
   */
  lemma InsertDecision(issued: int, period: int, now: int)
    requires 0 <= now - issued < M && 1 <= period < M
    ensures var c, next, t := Wrap(issued), Wrap(issued + period), Wrap(now);
            && next == Wrap(c + period)
            && (next <= t ==> (Wrap(t - c) >= period <==> issued + period <= now))
            && (next > t ==> (t < c && next >= c <==> issued + period <= now))
            && (issued + period > now ==> Epoch(issued + period) == if next <= t then Epoch(now) + 1 else Epoch(now))
  {
    WaitParts(issued, period);
    Deadlines.Distance(issued, now);
    Deadlines.Distance(now, issued + period);
    Deadlines.SmallDistance(now - issued);
    Parts(now);
    Parts(issued + period);
  }

  class Daemon {
    var current: seq<Item>
    var overflow: seq<Item>
    var lastTime: int
    var timers: map<int, Timer>
    var fired: seq<int>
    ghost var last: int

    ghost function View(): State
      reads this
    {
      State(last, Joined(last, current, overflow), timers, fired)
    }

    ghost predicate Lists()
      reads this
    {
      Wrapped(current) && Wrapped(overflow) && Sorted(View().queue) && Periods(timers) && Known(timers, View().queue)
    }

    ghost predicate Valid()
      reads this
    {
      Lists() && lastTime == Wrap(last)
    }

    /** prvCheckForValidListAndQueue, with the timers that have been created so far */
    constructor (timers: map<int, Timer>)
      requires Periods(timers) && forall t :: t in timers ==> !timers[t].active
      ensures Valid() && View() == State(0, [], timers, []) && Good(View())
    {
      current, overflow, lastTime, this.timers, fired, last := [], [], 0, timers, [], 0;
      new;
      FreshGood(timers);
      JoinedEmpty(0, [], []);
    }

    /** prvInitialiseNewTimer */
    method InitialiseNewTimer(t: int, period: int, reload: bool, permanent: bool)
      requires Valid() && Good(View()) && t !in timers && 0 < period < M
      modifies this`timers
      ensures Valid() && View() == Apply(old(View()), OpCreate(t, period, reload, permanent)) && Good(View())
      ensures timers == old(timers)[t := Timer(period, reload, permanent, false)]
    {
      hide Joined, Good;
      CreateGood(View(), t, Timer(period, reload, permanent, false));
      timers := timers[t := Timer(period, reload, permanent, false)];
    }

    /** prvInsertTimerInActiveList */
    method InsertTimerInActiveList(t: int, nextExpiry: int, timeNow: int, commandTime: int, ghost now: int,
                                   ghost issued: int)
      returns (processNow: bool)
      requires Lists() && t in timers && Epoch(now) == Epoch(last) && 0 <= now - issued < M
      requires timeNow == Wrap(now) && commandTime == Wrap(issued) && nextExpiry == Wrap(issued + PeriodOf(timers, t))
      modifies this`current, this`overflow
      ensures Lists() && (processNow <==> issued + PeriodOf(timers, t) <= now)
      ensures View() == if processNow then old(View())
                        else old(View()).(queue := InsertSorted(old(View()).queue,
                          Item(issued + PeriodOf(timers, t), t)))
      ensures processNow || timeNow == MAX_DELAY ==> current == old(current)
    {
      hide Wrap, Epoch, Joined, InsertSorted, Sorted, Wrapped, Known;
      ghost var due := issued + PeriodOf(timers, t);
      PeriodBound(timers, t);
      InsertDecision(issued, PeriodOf(timers, t), now);
      Parts(due);
      InsertJoined(last, current, overflow, Item(nextExpiry, t));
      InsertHead(current, Item(nextExpiry, t));
      InsertHead(overflow, Item(nextExpiry, t));
      InsertKeepsSorted(View().queue, Item(due, t));
      InsertKnown(timers, View().queue, Item(due, t));
      processNow := false;
      if nextExpiry <= timeNow {
        if Wrap(timeNow - commandTime) >= timers[t].period {
          processNow := true;
        } else {
          overflow := InsertSorted(overflow, Item(nextExpiry, t));
        }
      } else {
        if timeNow < commandTime && nextExpiry >= commandTime {
          processNow := true;
        } else {
          current := InsertSorted(current, Item(nextExpiry, t));
        }
      }
    }

    /**
     prvReloadTimer: one callback for every expiry after expired up to now, then the timer is filed
     under the next one.
     */
    method ReloadTimer(t: int, expiredTime: int, timeNow: int, ghost expired: int, ghost now: int)
      requires Lists() && t in timers && Epoch(now) == Epoch(last) && 0 <= now - expired < M
      requires timeNow == Wrap(now) && expiredTime == Wrap(expired)
      modifies this`current, this`overflow, this`fired
      ensures Lists()
      ensures var s, p := old(View()), PeriodOf(timers, t);
              View() == s.(queue := InsertSorted(s.queue, Item(NextExpiry(expired, p, now), t)),
                fired := s.fired + Repeat(t, Backlog(expired, p, now)))
      ensures timeNow == MAX_DELAY ==> current == old(current)
    {
      hide Wrap, Epoch, Joined, InsertSorted, Sorted, Wrapped, Known;
      ghost var n, x, p, s := 0, expired, PeriodOf(timers, t), View();
      var at := expiredTime;
      assert s.fired + Repeat(t, 0) == s.fired;
      PeriodBound(timers, t);
      WrapAdd(x, p);
      var again := InsertTimerInActiveList(t, Wrap(at + timers[t].period), timeNow, at, now, x);
      while again
        invariant at == Wrap(x) && expired <= x <= now && x == expired + n * p && 0 <= n
        invariant again <==> x + p <= now
        invariant Lists() && (timeNow == MAX_DELAY ==> current == old(current))
        invariant View() == if again then s.(fired := s.fired + Repeat(t, n))
                            else s.(queue := InsertSorted(s.queue, Item(x + p, t)), fired := s.fired + Repeat(t, n))
        decreases now - x
      {
        assert (s.fired + Repeat(t, n)) + [t] == s.fired + Repeat(t, n + 1);
        WrapAdd(x, p);
        at := Wrap(at + timers[t].period);
        fired := fired + [t];
        AddTimes(n, 1, p);
        n, x := n + 1, x + p;
        WrapAdd(x, p);
        again := InsertTimerInActiveList(t, Wrap(at + timers[t].period), timeNow, at, now, x);
      }
      BacklogUnique(expired, p, now, n);
    }

    /** prvProcessExpiredTimer, at a time of the epoch of the current list */
    method ProcessExpiredTimer(nextExpireTime: int, timeNow: int, ghost now: int)
      requires Lists() && current != [] && nextExpireTime == current[0].value && nextExpireTime <= timeNow
      requires timeNow == Wrap(now) && Epoch(now) == Epoch(last)
      modifies this`current, this`overflow, this`fired, this`timers
      ensures Lists() && old(View()).queue != [] && old(View()).queue[0].value <= now
      ensures View() == ProcessHead(old(View()), now)
      ensures timeNow == MAX_DELAY ==> |current| == |old(current)| - 1
    {
      hide Wrap, Epoch, Joined, InsertSorted, Sorted, Wrapped, Known, Periods;
      var t := current[0].owner;
      ghost var x := nextExpireTime + Epoch(last) * M;
      TakeHead(last, timers, current, overflow);
      DueInEpoch(now, nextExpireTime);
      current := current[1..];
      if timers[t].reload {
        ReloadTimer(t, nextExpireTime, timeNow, x, now);
      } else {
        SetActiveKeeps(timers, t, false, View().queue);
        timers := timers[t := timers[t].(active := false)];
      }
      fired := fired + [t];
    }

    /** prvSwitchTimerLists: what is left of the old epoch is dealt with, then the lists change places. */
    method SwitchTimerLists(ghost now: int)
      requires Lists() && ((current == [] && overflow == []) || Epoch(now) == Epoch(last) + 1)
      modifies this`current, this`overflow, this`fired, this`timers, this`last
      ensures Lists() && overflow == [] && View() == FlushTo(old(View()), EpochEnd(old(last))).(last := now)
    {
      hide Wrap, Epoch, Joined, InsertSorted, Sorted, Wrapped, Known, Periods, FlushTo, ProcessHead;
      ghost var end := EpochEnd(last);
      LastOfEpoch(last);
      while current != []
        invariant Lists() && FlushTo(View(), end) == FlushTo(old(View()), end) && last == old(last)
        invariant (current == [] && overflow == []) || Epoch(now) == Epoch(last) + 1
        decreases |current|
      {
        var nextExpireTime := current[0].value;
        HeadWrapped(current);
        FlushStep(View(), end);
        ProcessExpiredTimer(nextExpireTime, MAX_DELAY, end);
      }
      FlushEnd(last, overflow, View());
      JoinedSwap(last, now, overflow);
      current, overflow := overflow, current;
      last := now;
    }

    /** prvSampleTimeNow */
    method SampleTimeNow(tickCount: int, ghost now: int) returns (timeNow: int, switched: bool)
      requires Valid() && tickCount == Wrap(now) && last <= now && (current + overflow == [] || now - last < M)
      modifies this`current, this`overflow, this`fired, this`timers, this`last, this`lastTime
      ensures Valid() && View() == Sample(old(View()), now) && timeNow == tickCount && last == now
      ensures switched ==> Epoch(now) != Epoch(old(last))
      ensures !switched ==> current == old(current) && overflow == old(overflow)
      ensures !switched && old(current) + old(overflow) != [] ==> Epoch(now) == Epoch(old(last))
    {
      hide Wrap, Epoch, Joined, Sorted, Wrapped, Known, Periods, FlushTo;
      timeNow := tickCount;
      SampleCases(last, now, current, overflow, View());
      if timeNow < lastTime {
        SwitchTimerLists(now);
        switched := true;
      } else {
        switched := false;
        last := now;
      }
      lastTime := timeNow;
    }

    /**
     prvGetNextExpireTime: the first expiry of all running timers, if it falls in this epoch; otherwise
     the first count of the next one.
     */
    method GetNextExpireTime() returns (nextExpireTime: int, listWasEmpty: bool)
      requires Lists()
      ensures 0 <= nextExpireTime < M && (listWasEmpty ==> nextExpireTime == 0)
      ensures listWasEmpty <==> forall i :: 0 <= i < |View().queue| ==> Epoch(View().queue[i].value) != Epoch(last)
      ensures !listWasEmpty ==> View().queue != [] && View().queue[0].value == Epoch(last) * M + nextExpireTime
    {
      QueueEpochs(last, current, overflow);
      listWasEmpty := current == [];
      nextExpireTime := if listWasEmpty then 0 else current[0].value;
    }

    /**
     prvGetNextExpireTime and prvProcessTimerOrBlockTask. When the daemon blocks, nothing is overdue,
     and it wakes up at the next expiry, or no later than every expiry of the next epoch.
     */
    method ProcessTimerOrBlock(tickCount: int, ghost now: int) returns (blocked: bool, wait: int, indefinitely: bool)
      requires Valid() && Good(View()) && Enabled(View(), OpProcess(now)) && tickCount == Wrap(now)
      modifies this
      ensures Valid() && View() == Process(old(View()), now) && Good(View())
      ensures blocked ==> 0 <= wait < M && (indefinitely <==> View().queue == [])
      ensures blocked ==> forall i :: 0 <= i < |View().queue| ==>
        now + wait <= View().queue[i].value && now < View().queue[i].value
      ensures blocked && current != [] ==> now + wait == View().queue[0].value
      ensures blocked && wait == 0 ==> tickCount == 0
    {
      hide Wrap, Epoch, Joined, Sorted, Wrapped, Known, Periods, GoodBut, Sample, ProcessHead;
      ghost var s := View();
      ProcessGood(s, now);
      JoinedEmpty(last, current, overflow);
      QueueEpochs(last, current, overflow);
      var nextExpireTime, listWasEmpty := GetNextExpireTime();
      indefinitely, wait, blocked := false, 0, false;
      var timeNow, switched := SampleTimeNow(tickCount, now);
      if !switched {
        JoinedEmpty(last, current, overflow);
        if !listWasEmpty {
          TakeHead(last, timers, current, overflow);
          DueInEpoch(now, nextExpireTime);
        }
        if !listWasEmpty && nextExpireTime <= timeNow {
          ProcessExpiredTimer(nextExpireTime, timeNow, now);
        } else {
          if listWasEmpty {
            indefinitely := overflow == [];
          }
          wait := Wrap(nextExpireTime - timeNow);
          blocked := true;
          BlocksInTime(now, current, overflow);
        }
      }
    }

    /** uxListRemove of the timer's list item */
    method RemoveTimer(t: int)
      requires Valid()
      modifies this`current, this`overflow
      ensures Valid() && View() == old(View()).(queue := Without(old(View()).queue, t))
      ensures old(current) + old(overflow) == [] ==> current + overflow == []
    {
      hide Wrap, Epoch, Joined, Find, Without, Wrapped, RemoveAt, Sorted, Known, Periods;
      UnlistLists(last, current, overflow, t);
      WithoutKeepsSorted(View().queue, t);
      WithoutKnown(timers, View().queue, t);
      WithoutEmpty(current, t);
      WithoutEmpty(overflow, t);
      if Find(current, t) >= 0 {
        current := Without(current, t);
      } else if Find(overflow, t) >= 0 {
        overflow := Without(overflow, t);
      }
    }

    /** One turn of the loop of prvProcessReceivedCommands. */
    method PerformCommand(t: int, id: CommandId, value: int, tickCount: int, ghost now: int, ghost issued: int)
      requires Valid() && Good(View()) && tickCount == Wrap(now) && (id == StartOrReset ==> value == Wrap(issued))
      requires Enabled(View(), OpCommand(now, t, Meaning(id, value, issued)))
      modifies this
      ensures Valid() && View() == Perform(old(View()), now, t, Meaning(id, value, issued)) && Good(View())
    {
      hide Wrap, Epoch, Joined, Without, Wrapped, Sorted, Known, Periods, GoodBut, Sample, InsertSorted;
      ghost var s := View();
      PerformGood(s, now, t, Meaning(id, value, issued));
      JoinedEmpty(last, current, overflow);
      RemoveTimer(t);
      ghost var v := View();
      TakenGood(s, t);
      SampleGood(v, {t}, now);
      var timeNow, _ := SampleTimeNow(tickCount, now);
      PeriodBound(timers, t);
      SetActiveKeeps(timers, t, true, View().queue);
      SetActiveKeeps(timers, t, false, View().queue);
      match id
      case StartOrReset =>
        timers := timers[t := timers[t].(active := true)];
        WrapAdd(issued, PeriodOf(timers, t));
        var processNow := InsertTimerInActiveList(t, Wrap(value + timers[t].period), timeNow, value, now, issued);
        if processNow {
          if timers[t].reload {
            ReloadTimer(t, Wrap(value + timers[t].period), timeNow, issued + PeriodOf(timers, t), now);
          } else {
            SetActiveKeeps(timers, t, false, View().queue);
            timers := timers[t := timers[t].(active := false)];
          }
          fired := fired + [t];
        }
      case StopIt =>
        timers := timers[t := timers[t].(active := false)];
      case NewPeriod =>
        Repurposed(timers, View().queue, t, value);
        timers := timers[t := timers[t].(active := true, period := value)];
        WrapAdd(now, value);
        var processNow := InsertTimerInActiveList(t, Wrap(timeNow + timers[t].period), timeNow, timeNow, now, now);
      case DeleteIt =>
        if !timers[t].permanent {
          Removed(View(), t);
          timers := timers - {t};
        } else {
          timers := timers[t := timers[t].(active := false)];
        }
    }
  }

  datatype CommandId = StartOrReset | StopIt | NewPeriod | DeleteIt

  ghost function Meaning(id: CommandId, value: int, issued: int): Command {
    match id
    case StartOrReset => Start(issued)
    case StopIt => Stop
    case NewPeriod => ChangePeriod(value)
    case DeleteIt => Delete
  }

  /** The block time: up to the next expiry of this epoch, or else up to the wrap. */
  lemma BlocksInTime(now: int, current: seq<Item>, overflow: seq<Item>)
    requires Wrapped(current) && Wrapped(overflow) && Sorted(Joined(now, current, overflow))
    requires current != [] ==> current[0].value > Wrap(now)
    ensures var q, w := Joined(now, current, overflow),
      Wrap((if current == [] then 0 else current[0].value) - Wrap(now));
            && (forall i :: 0 <= i < |q| ==> now + w <= q[i].value && now < q[i].value)
            && (current != [] ==> q != [] && now + w == q[0].value)
            && (w == 0 ==> Wrap(now) == 0)
  {
    hide Wrapped, Joined;
    var q := Joined(now, current, overflow);
    Parts(now);
    JoinedEmpty(now, current, overflow);
    if q != [] {
      JoinedAt(now, current, overflow, 0);
      if current == [] {
        HeadWrapped(overflow);
        PartsOf(if Wrap(now) == 0 then 0 else -1, if Wrap(now) == 0 then 0 else M - Wrap(now));
      } else {
        HeadWrapped(current);
        PartsOf(0, current[0].value - Wrap(now));
      }
      forall i | 0 <= i < |q|
        ensures q[0].value <= q[i].value
      {
      }
    }
  }

  lemma WithoutKnown(timers: map<int, Timer>, q: seq<Item>, t: int)
    requires Known(timers, q)
    ensures Known(timers, Without(q, t))
  {
  }

  lemma WithoutEmpty(xs: seq<Item>, t: int)
    ensures xs == [] ==> Without(xs, t) == []
  {
  }

  lemma Repurposed(timers: map<int, Timer>, q: seq<Item>, t: int, period: int)
    requires t in timers && Known(timers, q) && Periods(timers) && 0 < period < M
    ensures var r := timers[t := timers[t].(active := true, period := period)]; Known(r, q) && Periods(r)
  {
  }

  lemma Removed(s: State, t: int)
    requires GoodBut(s, {t}) && t in s.timers
    ensures Periods(s.timers - {t}) && Known(s.timers - {t}, s.queue)
  {
  }

  ghost predicate Known(timers: map<int, Timer>, queue: seq<Item>) {
    forall i :: 0 <= i < |queue| ==> queue[i].owner in timers
  }

  lemma InsertKnown(timers: map<int, Timer>, q: seq<Item>, x: Item)
    requires Known(timers, q) && x.owner in timers
    ensures Known(timers, InsertSorted(q, x))
  {
  }

  lemma SetActiveKeeps(timers: map<int, Timer>, t: int, active: bool, q: seq<Item>)
    ensures Known(timers, q) ==> Known(SetActive(timers, t, active), q)
    ensures Periods(timers) ==> Periods(SetActive(timers, t, active))
  {
  }

  lemma TakeHead(last: int, timers: map<int, Timer>, current: seq<Item>, overflow: seq<Item>)
    requires current != [] && Wrapped(current)
    ensures var q := Joined(last, current, overflow);
            && q != [] && q[0] == Item(current[0].value + Epoch(last) * M, current[0].owner)
            && Joined(last, current[1..], overflow) == q[1..]
            && (Sorted(q) ==> Sorted(q[1..])) && (Known(timers, q) ==> Known(timers, q[1..]) && q[0].owner in timers)
            && Wrapped(current[1..]) && 0 <= current[0].value < M
  {
  }

  /** Which epochs the running timers expire in, and what that says about the current list. */
  lemma QueueEpochs(last: int, current: seq<Item>, overflow: seq<Item>)
    requires Wrapped(current) && Wrapped(overflow)
    ensures var q := Joined(last, current, overflow);
            && (current == [] <==> forall i :: 0 <= i < |q| ==> Epoch(q[i].value) != Epoch(last))
            && (current != [] ==>
                  q != [] && q[0].value == Epoch(last) * M + current[0].value && 0 <= current[0].value < M)
  {
    hide Joined, Epoch;
    var q := Joined(last, current, overflow);
    JoinedEmpty(last, current, overflow);
    if current != [] {
      JoinedAt(last, current, overflow, 0);
      PartsOf(Epoch(last), current[0].value);
    } else if q != [] {
      JoinedAt(last, current, overflow, 0);
      forall i | 0 <= i < |q|
        ensures Epoch(q[i].value) != Epoch(last)
      {
        JoinedAt(last, current, overflow, i);
        PartsOf(Epoch(last) + 1, overflow[i].value);
      }
    }
  }

  lemma DueInEpoch(now: int, v: int)
    requires 0 <= v < M
    ensures var x := v + Epoch(now) * M;
      Wrap(x) == v && Epoch(x) == Epoch(now) && (x <= now <==> v <= Wrap(now)) && now - x < M
  {
  }

  lemma LastOfEpoch(last: int)
    ensures Wrap(EpochEnd(last)) == MAX_DELAY && Epoch(EpochEnd(last)) == Epoch(last)
  {
  }

  lemma HeadWrapped(xs: seq<Item>)
    requires Wrapped(xs) && xs != []
    ensures 0 <= xs[0].value <= MAX_DELAY
  {
  }

  lemma FlushStep(s: State, now: int)
    requires Sorted(s.queue)
    ensures s.queue != [] && s.queue[0].value <= now ==>
      Sorted(ProcessHead(s, now).queue) && FlushTo(s, now) == FlushTo(ProcessHead(s, now), now)
  {
    if s.queue != [] && s.queue[0].value <= now {
      HeadDone(s, now);
    }
  }

  /** With the current list empty, nothing of the old epoch is left. */
  lemma FlushEnd(last: int, overflow: seq<Item>, s: State)
    requires Wrapped(overflow) && s.queue == Joined(last, [], overflow) && Sorted(s.queue)
    ensures FlushTo(s, EpochEnd(last)) == s
  {
  }

  lemma JoinedSwap(last: int, now: int, overflow: seq<Item>)
    requires overflow == [] || Epoch(now) == Epoch(last) + 1
    ensures Joined(now, overflow, []) == Joined(last, [], overflow)
  {
  }

  /** What one look at the wrapped count tells: a smaller count means a new epoch, and the lists must be switched. */
  lemma SampleCases(last: int, now: int, current: seq<Item>, overflow: seq<Item>, s: State)
    requires last <= now && (current + overflow == [] || now - last < M)
    requires s.queue == Joined(last, current, overflow) && Sorted(s.queue) && s.last == last
    ensures Wrap(now) < Wrap(last) ==> Epoch(now) != Epoch(last)
    ensures current + overflow != [] ==>
      && (Wrap(now) < Wrap(last) <==> Epoch(now) == Epoch(last) + 1)
      && (Wrap(now) >= Wrap(last) <==> Epoch(now) == Epoch(last))
    ensures Wrap(now) >= Wrap(last) ==> Joined(now, current, overflow) == s.queue && Sample(s, now) == s.(last := now)
    ensures current + overflow != [] || (current == [] && overflow == [])
  {
  }

  lemma WrapAdd(x: int, p: int)
    requires 0 <= p < M
    ensures Wrap(Wrap(x) + p) == Wrap(x + p)
  {
  }
}
