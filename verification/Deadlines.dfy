/**
 Deadlines measured on the 32-bit tick count: xTaskCheckForTimeOut, which shortens a wait call by
 call, and the decision of xTaskDelayUntil. The count seen at a true time n is Wrap(n), with
 Wrap(Epoch(n)) overflows before it.
 */
module Deadlines {
  import opened Ticks

  /** The wrapped difference of two wrapped times is their true distance, up to whole turns. */
  lemma Distance(a: int, b: int)
    ensures Wrap(Wrap(b) - Wrap(a)) == Wrap(b - a)
    ensures Wrap(b) >= Wrap(a) ==> Wrap(b - a) == Wrap(b) - Wrap(a)
    ensures Wrap(b) < Wrap(a) ==> Wrap(b - a) == Wrap(b) - Wrap(a) + M
    ensures b - a == (Epoch(b) - Epoch(a)) * M + Wrap(b) - Wrap(a)
  {
  }

  lemma SmallDistance(n: int)
    requires 0 <= n
    ensures n < M <==> Wrap(n) == n
    ensures Wrap(n) <= n
  {
  }

  /**
   What the wrapped values cannot tell: a full turn or more has gone by, yet they look as if less
   than the wait had.
   */
  ghost predicate Misread(stamp: int, now: int, wait: int) {
    && now - stamp >= M && Wrap(now - stamp) < wait
    && (Wrap(now) < Wrap(stamp) || Wrap(Epoch(now)) == Wrap(Epoch(stamp)))
  }

  /** With at most one wrap since the stamp nothing is misread. */
  lemma OneWrapIsRead(stamp: int, now: int, wait: int)
    requires Epoch(now) <= Epoch(stamp) + 1
    ensures !Misread(stamp, now, wait)
  {
  }

  /** What one check does to a true stamp and the remaining wait; None once it reports expiry. */
  datatype Wait = Expired | Waiting(stamp: int, left: int)

  ghost function Checked(w: Wait, now: int): Wait {
    match w
    case Expired => Expired
    case Waiting(stamp, left) =>
      if now - stamp >= left && !Misread(stamp, now, left) then Expired
      else Waiting(now, left - Wrap(now - stamp))
  }

  /** TimeOut_t: the tick count and overflow count when the wait began or was last shortened. */
  class TimeOut {
    var overflowCount: int
    var timeOnEntering: int
    ghost var stamp: nat

    ghost predicate Valid()
      reads this
    {
      timeOnEntering == Wrap(stamp) && overflowCount == Wrap(Epoch(stamp))
    }

    /** vTaskInternalSetTimeOutState */
    method Set(ghost now: nat, tick: int, overflows: int)
      requires tick == Wrap(now) && overflows == Wrap(Epoch(now))
      modifies this
      ensures Valid() && stamp == now
    {
      overflowCount := overflows;
      timeOnEntering := tick;
      stamp := now;
    }

    /**
     xTaskCheckForTimeOut. Reports expiry exactly when the true elapsed time has reached the wait
     and is not misread; otherwise stamp and remaining wait move so that the deadline stays put.
     */
    method Check(ghost now: nat, tick: int, overflows: int, ticksToWait: int) returns (expired: bool, left: int)
      requires Valid() && stamp <= now && tick == Wrap(now) && overflows == Wrap(Epoch(now)) && 0 <= ticksToWait < M
      modifies this
      ensures Valid()
      ensures ticksToWait == MAX_DELAY ==> !expired && left == ticksToWait && stamp == old(stamp)
      ensures ticksToWait < MAX_DELAY ==>
        && (expired <==> now - old(stamp) >= ticksToWait && !Misread(old(stamp), now, ticksToWait))
        && (expired ==> left == 0 && stamp == old(stamp))
        && (!expired ==> 0 < left && stamp == now && left == ticksToWait - Wrap(now - old(stamp)))
      ensures ticksToWait < MAX_DELAY && !expired && !Misread(old(stamp), now, ticksToWait)
        ==> stamp + left == old(stamp) + ticksToWait
      ensures ticksToWait < MAX_DELAY ==>
        (if expired then Expired else Waiting(stamp, left)) == Checked(Waiting(old(stamp), ticksToWait), now)
    {
      Distance(stamp, now);
      SmallDistance(now - stamp);
      left := ticksToWait;
      var elapsedTime := Wrap(tick - timeOnEntering);
      if left == MAX_DELAY {
        expired := false;
      } else if overflows != overflowCount && tick >= timeOnEntering {
        expired := true;
        left := 0;
      } else if elapsedTime < left {
        left := left - elapsedTime;
        Set(now, tick, overflows);
        expired := false;
      } else {
        left := 0;
        expired := true;
      }
    }
  }

  /**
   A check that is too late by more than a turn: with a wait of M - 2 ticks from tick 5 on, the check
   at tick 2M + 2 finds 2M - 3 ticks gone by, and reports that one is left.
   */
  lemma LateCheckMissesExpiry()
    ensures var start, wait, now := 5, M - 2, 2 * M + 2;
            now >= start + wait && Misread(start, now, wait) && Checked(Waiting(start, wait), now) == Waiting(now, 1)
  {
  }

  ghost function CheckedAll(w: Wait, times: seq<int>): Wait
    decreases |times|
  {
    if times == [] then w else Checked(CheckedAll(w, times[..|times| - 1]), times[|times| - 1])
  }

  /**
   Repeated checks never drift: however often the wait is shortened, it expires with the first check
   at or after the original deadline, if no two successive checks are more than one wrap apart.
   */
  lemma {:induction false} ChecksNeverDrift(start: int, wait: int, times: seq<int>)
    requires 0 < wait < MAX_DELAY
    requires forall i, j :: 0 <= i && j == i + 1 && j < |times| ==>
      times[i] <= times[j] && Epoch(times[j]) <= Epoch(times[i]) + 1
    requires times != [] ==> start <= times[0] && Epoch(times[0]) <= Epoch(start) + 1
    ensures CheckedAll(Waiting(start, wait), times) ==
      if times == [] then Waiting(start, wait)
      else if times[|times| - 1] >= start + wait then Expired
      else Waiting(times[|times| - 1], start + wait - times[|times| - 1])
    decreases |times|
  {
    hide Checked, Epoch;
    if times != [] {
      var n := |times| - 1;
      var rest := times[..n];
      ChecksNeverDrift(start, wait, rest);
      var before := if n == 0 then start else times[n - 1];
      assert n > 0 ==> rest[|rest| - 1] == times[n - 1];
      if n > 0 {
        FirstNotLater(times, n - 1);
      }
      if before < start + wait {
        OneCheck(before, start + wait - before, times[n]);
      } else {
        ExpiredStays(times[n]);
      }
    }
  }

  /** A check not more than one wrap after the last one. */
  lemma OneCheck(stamp: int, left: int, now: int)
    requires 0 < left < MAX_DELAY && stamp <= now && Epoch(now) <= Epoch(stamp) + 1
    ensures Checked(Waiting(stamp, left), now) ==
      if now >= stamp + left then Expired else Waiting(now, stamp + left - now)
  {
    hide Misread, Epoch, Wrap;
    OneWrapIsRead(stamp, now, left);
    if now < stamp + left {
      SmallDistance(now - stamp);
    }
  }

  lemma ExpiredStays(now: int)
    ensures Checked(Expired, now) == Expired
  {
  }

  lemma {:induction false} FirstNotLater(times: seq<int>, k: nat)
    requires k < |times|
    requires forall i, j :: 0 <= i && j == i + 1 && j < |times| ==> times[i] <= times[j]
    ensures times[0] <= times[k]
  {
    if k > 0 {
      FirstNotLater(times, k - 1);
    }
  }

  // ---------------------------------------------------------------- xTaskDelayUntil

  /** The wake-time comparison of xTaskDelayUntil on wrapped times. */
  predicate ShouldDelay(previous: int, increment: int, tick: int) {
    var wake := Wrap(previous + increment);
    if tick < previous then wake < previous && wake > tick else wake < previous || wake > tick
  }

  /**
   It delays exactly when the increment exceeds the wrapped time since the previous wake-up, and then
   for the difference; that is the true answer if and only if less than a full turn has passed since,
   or no delay is due either way.
   */
  lemma DelayUntilDecision(previous: int, increment: int, now: int)
    requires previous <= now && 0 < increment < M
    ensures ShouldDelay(Wrap(previous), increment, Wrap(now)) <==> Wrap(now - previous) < increment
    ensures (ShouldDelay(Wrap(previous), increment, Wrap(now)) <==> previous + increment > now)
            <==> now - previous < M || Wrap(now - previous) >= increment
    ensures ShouldDelay(Wrap(previous), increment, Wrap(now)) ==>
      Wrap(Wrap(Wrap(previous) + increment) - Wrap(now)) == increment - Wrap(now - previous)
  {
    WaitParts(previous, increment);
    Distance(previous, now);
    SmallDistance(now - previous);
    Distance(now, previous + increment);
    if Wrap(now - previous) < increment {
      PartsOf(-Epoch(now - previous), increment - Wrap(now - previous));
      Parts(now - previous);
    }
  }

  /** A task that calls a full turn late, for every 10 ticks, sleeps although its time was up long ago. */
  lemma LateCallSleeps()
    ensures var previous, increment, now := 0, 10, M + 3;
            previous + increment <= now && ShouldDelay(Wrap(previous), increment, Wrap(now))
  {
  }
}
