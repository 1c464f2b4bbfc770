/**
 What single steps and whole turns of a queue call do: who is woken, in which order and how many; when a
 call goes to sleep, goes round its loop, or gives up; and what the counts add up to over a run.
 */
module QueueTurns {
  import opened Basics
  import opened ListSpec
  import opened QueueSpec

  // ---------------------------------------------------------------- who is woken

  /** The wake-ups a step owes to receivers: one for an item put in or left, one for each post counted in the lock. */
  function ReceiversOwed(s: State, e: Step): (n: nat)
    requires Enabled(s, e)
  {
    match e
    case Attempt(t, _) => if s.pc[t].call != Receiving && !Blocked(s.q, s.pc[t].call) then 1 else 0
    case IsrSend(overwrite) => if CanSend(s.q, overwrite) && s.q.txLock == UNLOCKED then 1 else 0
    case DoUnlockTx(_) => Pending(s.q.txLock)
    case _ => 0
  }

  /** Those it owes to senders: one for an item taken out, one for each counted in the lock. */
  function SendersOwed(s: State, e: Step): (n: nat)
    requires Enabled(s, e)
  {
    match e
    case Attempt(t, _) => if s.pc[t].call == Receiving && !Blocked(s.q, s.pc[t].call) then 1 else 0
    case IsrReceive => if s.q.items > 0 && s.q.rxLock == UNLOCKED then 1 else 0
    case DoUnlockRx(_) => Pending(s.q.rxLock)
    case _ => 0
  }

  lemma {:induction false} WakeReceiversTakes(q: Queue, n: nat)
    ensures WakeReceivers(q, n).receivers == Behind(q.receivers, n)
    ensures WakeReceivers(q, n).senders == q.senders
    decreases n
  {
    if n > 0 && q.receivers != [] {
      WakeReceiversTakes(WakeReceiver(q), n - 1);
    }
  }

  lemma {:induction false} WakeSendersTakes(q: Queue, n: nat)
    ensures WakeSenders(q, n).senders == Behind(q.senders, n)
    ensures WakeSenders(q, n).receivers == q.receivers
    decreases n
  {
    if n > 0 && q.senders != [] {
      WakeSendersTakes(WakeSender(q), n - 1);
    }
  }

  /**
   A step takes exactly as many tasks off a waiting list as it owes wake-ups to, from its head, which is
   where the most urgent are, and nobody else.
   */
  lemma StepWakes(s: State, e: Step)
    requires Good(s) && Enabled(s, e) && !e.Place? && !e.Timeout?
    ensures var u, n, m := Apply(s, e), ReceiversOwed(s, e), SendersOwed(s, e);
            && u.q.receivers == Behind(s.q.receivers, n) && u.q.senders == Behind(s.q.senders, m)
            && MostUrgentFirst(s.q.receivers, n) && MostUrgentFirst(s.q.senders, m)
  {
    hide Good, Sorted, WakeReceivers, WakeSenders, Seen, Behind, MostUrgentFirst, Tried;
    SortedLists(s);
    HeadFirst(s.q.receivers, ReceiversOwed(s, e));
    HeadFirst(s.q.senders, SendersOwed(s, e));
    BehindFew(s.q.receivers);
    BehindFew(s.q.senders);
    match e
    case DoUnlockTx(_) => WakeReceiversTakes(s.q, Pending(s.q.txLock));
    case DoUnlockRx(_) => WakeSendersTakes(s.q, Pending(s.q.rxLock));
    case Attempt(t, wait) => AttemptWakes(s, t, wait);
    case IsrSend(_) => IsrWakes(s, e);
    case IsrReceive => IsrWakes(s, e);
    case _ =>
  }

  /** The first n are at least as urgent as all others: their event list item values are no greater. */
  ghost predicate MostUrgentFirst(xs: seq<Item>, n: nat) {
    forall i, j :: 0 <= i < n <= j < |xs| ==> xs[i].value <= xs[j].value
  }

  lemma SortedLists(s: State)
    requires Good(s)
    ensures Sorted(s.q.receivers) && Sorted(s.q.senders) && Distinct(s.q.receivers) && Distinct(s.q.senders)
  {
    hide MembersOk, SuspenderOk;
  }

  lemma HeadFirst(xs: seq<Item>, n: nat)
    requires Sorted(xs)
    ensures MostUrgentFirst(xs, n)
  {
  }

  lemma AttemptWakes(s: State, t: int, wait: bool)
    requires Enabled(s, Attempt(t, wait))
    ensures var e := Attempt(t, wait);
            var u := Apply(s, e);
            && u.q.receivers == Behind(s.q.receivers, ReceiversOwed(s, e))
            && u.q.senders == Behind(s.q.senders, SendersOwed(s, e))
  {
    hide Listed, Seen, Tried, Blocked, Behind;
    BehindFew(s.q.receivers);
    BehindFew(s.q.senders);
    TriedWakes(s.q, t, s.pc[t].call);
  }

  /** What is left of a waiting list when n tasks are woken. */
  function Behind(xs: seq<Item>, n: nat): seq<Item> { if n <= |xs| then xs[n..] else [] }

  lemma BehindFew(xs: seq<Item>)
    ensures Behind(xs, 0) == xs && Behind(xs, 1) == if xs == [] then xs else xs[1..]
  {
  }

  lemma TriedWakes(q: Queue, t: int, c: Call)
    ensures var u, n := Tried(Seen(q, t), c), if Blocked(q, c) then 0 else 1;
            && u.receivers == (if c.Receiving? then q.receivers else Behind(q.receivers, n))
            && u.senders == (if c.Receiving? then Behind(q.senders, n) else q.senders)
  {
    hide Behind;
    BehindFew(q.receivers);
    BehindFew(q.senders);
  }

  lemma IsrWakes(s: State, e: Step)
    requires Enabled(s, e) && (e.IsrSend? || e.IsrReceive?)
    ensures var u := Apply(s, e);
            && u.q.receivers == Behind(s.q.receivers, ReceiversOwed(s, e))
            && u.q.senders == Behind(s.q.senders, SendersOwed(s, e))
  {
    hide Behind;
    BehindFew(s.q.receivers);
    BehindFew(s.q.senders);
  }

  /**
   Only going to sleep puts a task on a list, and only that task: receivers and peekers on one, senders on
   the other.
   */
  lemma PlaceLists(s: State, t: int, value: int, x: int)
    requires Good(s) && Enabled(s, Place(t, value))
    ensures var q := Apply(s, Place(t, value)).q;
            && (Listed(q.receivers, x) <==> Listed(s.q.receivers, x) || (x == t && !s.pc[t].call.Sending?))
            && (Listed(q.senders, x) <==> Listed(s.q.senders, x) || (x == t && s.pc[t].call.Sending?))
            && Sorted(q.receivers) && Sorted(q.senders)
  {
    hide Good, InsertSorted, Listed, Sorted;
    var e := Item(value, t);
    SortedLists(s);
    if s.pc[t].call.Sending? {
      InsertKeepsSorted(s.q.senders, e);
      InsertedListed(s.q.senders, e, x);
    } else {
      InsertKeepsSorted(s.q.receivers, e);
      InsertedListed(s.q.receivers, e, x);
    }
  }

  lemma InsertedListed(xs: seq<Item>, e: Item, x: int)
    ensures Listed(InsertSorted(xs, e), x) <==> Listed(xs, x) || x == e.owner
  {
    hide InsertSorted;
    var r := InsertSorted(xs, e);
    if i :| 0 <= i < |r| && r[i].owner == x {
      InsertMembers(xs, e, r[i]);
    }
    if i :| 0 <= i < |xs| && xs[i].owner == x {
      InsertMembers(xs, e, xs[i]);
    }
    if x == e.owner {
      InsertMembers(xs, e, e);
    }
  }

  /** A timeout takes exactly its task off the lists. */
  lemma TimeoutLists(s: State, t: int, x: int)
    requires Good(s) && Enabled(s, Timeout(t))
    ensures var q := Apply(s, Timeout(t)).q;
            && (Listed(q.receivers, x) <==> Listed(s.q.receivers, x) && x != t)
            && (Listed(q.senders, x) <==> Listed(s.q.senders, x) && x != t)
  {
    hide Good, Listed, Without;
    SortedLists(s);
    WithoutListed(s.q.receivers, t, x);
    WithoutListed(s.q.senders, t, x);
  }

  lemma WithoutListed(xs: seq<Item>, t: int, x: int)
    requires Distinct(xs)
    ensures Listed(Without(xs, t), x) <==> Listed(xs, x) && x != t
  {
    hide Without, Distinct;
    var r := Without(xs, t);
    if i :| 0 <= i < |r| && r[i].owner == x {
      WithoutIs(xs, t, r[i]);
    }
    if i :| 0 <= i < |xs| && xs[i].owner == x && x != t {
      WithoutIs(xs, t, xs[i]);
    }
  }

  // ---------------------------------------------------------------- whole turns

  /** Whether prvIsQueueEmpty or prvIsQueueFull, under the lock, tells the call to go to sleep. */
  predicate Waits(q: Queue, c: Call) {
    if c.Sending? then q.items == q.length else q.items == 0
  }

  /** A task at the top of its loop, nobody else in between, with nothing to do for the call. */
  ghost predicate AtTop(s: State, t: int, c: Call) {
    && PcOf(s, t) == Top(c) && !Listed(s.q.receivers, t) && !Listed(s.q.senders, t)
    && s.q.rxLock == UNLOCKED && s.q.txLock == UNLOCKED && s.suspender == None && Blocked(s.q, c)
  }

  /** A call begins at the top of its loop, on no list. */
  lemma EntersTop(s: State, t: int, c: Call)
    requires Good(s) && Enabled(s, Enter(t, c))
    ensures var u := Apply(s, Enter(t, c));
            PcOf(u, t) == Top(c) && u.q == s.q && !Listed(u.q.receivers, t) && !Listed(u.q.senders, t)
  {
    hide Listed, ListOk, MembersOk, SuspenderOk;
    NotListed(s.q, s.pc, t);
  }

  ghost predicate Steps(states: seq<State>, steps: seq<Step>) {
    && |states| == |steps| + 1
    && (forall k :: 0 <= k < |steps| ==> Enabled(states[k], steps[k]) && states[k + 1] == Apply(states[k], steps[k]))
  }

  lemma Joined(a: seq<State>, x: seq<Step>, b: seq<State>, y: seq<Step>)
    requires Steps(a, x) && Steps(b, y) && a[|x|] == b[0]
    ensures Steps(a + b[1..], x + y)
  {
    hide Enabled, Apply;
    var c, z := a + b[1..], x + y;
    forall k | 0 <= k < |z|
      ensures Enabled(c[k], z[k]) && c[k + 1] == Apply(c[k], z[k])
    {
      if k < |x| {
        assert Enabled(a[k], x[k]);
      } else {
        var l := k - |x|;
        assert Enabled(b[l], y[l]) && c[k] == b[l] && c[k + 1] == b[l + 1];
      }
    }
  }

  lemma SeenCounts(q: Queue, t: int)
    ensures Seen(q, t) == q.(wokenR := Seen(q, t).wokenR, wokenS := Seen(q, t).wokenS)
  {
  }

  /** The call finds nothing to do, suspends the scheduler and locks the queue. */
  lemma TurnBegins(s: State, t: int, c: Call) returns (b: seq<State>)
    requires AtTop(s, t, c)
    ensures Steps(b, [Attempt(t, true), Suspend(t), LockIt(t)]) && b[0] == s
    ensures b[3] == State(Seen(s.q, t).(rxLock := 0, txLock := 0), s.pc[t := Timing(c)], Some(t))
  {
    hide Listed, Seen;
    SeenCounts(s.q, t);
    var a := Apply(s, Attempt(t, true));
    var d := Apply(a, Suspend(t));
    b := [s, a, d, Apply(d, LockIt(t))];
  }

  /** The queue is unlocked with nothing counted meanwhile, and the scheduler resumes. */
  lemma TurnEnds(s: State, t: int, c: Call, next: Next) returns (b: seq<State>)
    requires s.q.rxLock == 0 && s.q.txLock == 0 && PcOf(s, t) == UnlockingTx(c, next)
    ensures Steps(b, [DoUnlockTx(t), DoUnlockRx(t), Resume(t)]) && b[0] == s
    ensures b[3] == State(s.q.(rxLock := UNLOCKED, txLock := UNLOCKED),
                          s.pc[t := if next == Again then Top(c) else if c.Sending? then Outside else Leaving(c)], None)
  {
    var a := Apply(s, DoUnlockTx(t));
    var d := Apply(a, DoUnlockRx(t));
    b := [s, a, d, Apply(d, Resume(t))];
  }

  /** Its time is not over, and the queue looks empty, or full: it goes onto the event list. */
  lemma TurnPlaces(s: State, t: int, c: Call, value: int) returns (b: seq<State>)
    requires PcOf(s, t) == Timing(c) && Waits(s.q, c)
    ensures Steps(b, [CheckTime(t, false), Test(t), Place(t, value)]) && b[0] == s
    ensures b[3] == State(Asleep(s.q, t, c, value), s.pc[t := UnlockingTx(c, Again)], s.suspender)
  {
    hide InsertSorted;
    var a := Apply(s, CheckTime(t, false));
    var d := Apply(a, Test(t));
    b := [s, a, d, Apply(d, Place(t, value))];
  }

  /** q with the task on the list of its side, in the order of event list item values. */
  function Asleep(q: Queue, t: int, c: Call, value: int): Queue {
    if c.Sending? then q.(senders := InsertSorted(q.senders, Item(value, t)))
    else q.(receivers := InsertSorted(q.receivers, Item(value, t)))
  }

  /** One turn of the loop that ends asleep. */
  function SleepTurn(t: int, value: int): seq<Step> {
    [Attempt(t, true), Suspend(t), LockIt(t)] + [CheckTime(t, false), Test(t), Place(t, value)]
    + [DoUnlockTx(t), DoUnlockRx(t), Resume(t)]
  }

  /**
   A call that may wait goes to sleep. With the queue empty, or full for a sender, time left and nobody in
   between, it ends its turn on the event list of its side, the queue unlocked and the scheduler running.
   */
  lemma GoesToSleep(s: State, t: int, c: Call, value: int) returns (states: seq<State>)
    requires AtTop(s, t, c) && Waits(s.q, c)
    ensures Steps(states, SleepTurn(t, value)) && states[0] == s
    ensures states[9] == s.(q := Asleep(Seen(s.q, t), t, c, value))
    ensures if c.Sending? then Listed(states[9].q.senders, t) else Listed(states[9].q.receivers, t)
  {
    hide Listed, Seen, Enabled, Apply, InsertSorted;
    SeenCounts(s.q, t);
    assert s.pc[t := Top(c)] == s.pc;
    var a := TurnBegins(s, t, c);
    var b := TurnPlaces(a[3], t, c, value);
    var d := TurnEnds(b[3], t, c, Again);
    Joined(a, [Attempt(t, true), Suspend(t), LockIt(t)], b, [CheckTime(t, false), Test(t), Place(t, value)]);
    Joined(a + b[1..], [Attempt(t, true), Suspend(t), LockIt(t)] + [CheckTime(t, false), Test(t), Place(t, value)],
           d, [DoUnlockTx(t), DoUnlockRx(t), Resume(t)]);
    states := a + b[1..] + d[1..];
    InsertedListed(if c.Sending? then s.q.senders else s.q.receivers, Item(value, t), t);
  }

  /** One turn of the loop that ends awake, at the top again. */
  function RetryTurn(t: int): seq<Step> {
    [Attempt(t, true), Suspend(t), LockIt(t)] + [CheckTime(t, false), Test(t)]
      + [DoUnlockTx(t), DoUnlockRx(t), Resume(t)]
  }

  /** Its time is not over, and the queue does not look full: nobody goes onto a list. */
  lemma TurnPasses(s: State, t: int, c: Call) returns (b: seq<State>)
    requires PcOf(s, t) == Timing(c) && !Waits(s.q, c)
    ensures Steps(b, [CheckTime(t, false), Test(t)]) && b[0] == s
    ensures b[2] == s.(pc := s.pc[t := UnlockingTx(c, Again)])
  {
    var a := Apply(s, CheckTime(t, false));
    b := [s, a, Apply(a, Test(t))];
  }

  /**
   A queue that counts more than it has room for, as a semaphore that was overwritten while full does, is
   not full to prvIsQueueFull: a sender that finds no room goes round its loop without ever going onto
   the event list, and only its timeout ends that.
   */
  lemma OverfilledSpins(s: State, t: int) returns (states: seq<State>)
    requires AtTop(s, t, Sending(false)) && s.q.items > s.q.length
    ensures Steps(states, RetryTurn(t)) && states[0] == s && states[8] == s.(q := Seen(s.q, t))
  {
    hide Listed, Seen, Enabled, Apply;
    var c := Sending(false);
    SeenCounts(s.q, t);
    assert s.pc[t := Top(c)] == s.pc;
    var a := TurnBegins(s, t, c);
    var b := TurnPasses(a[3], t, c);
    var d := TurnEnds(b[2], t, c, Again);
    Joined(a, [Attempt(t, true), Suspend(t), LockIt(t)], b, [CheckTime(t, false), Test(t)]);
    Joined(a + b[1..], [Attempt(t, true), Suspend(t), LockIt(t)] + [CheckTime(t, false), Test(t)],
           d, [DoUnlockTx(t), DoUnlockRx(t), Resume(t)]);
    states := a + b[1..] + d[1..];
  }

  /** The steps of a call whose time is over; one on the receiving side looks once more at the end. */
  function ExpiredTurn(t: int, c: Call): seq<Step> {
    [Attempt(t, true), Suspend(t), LockIt(t)] + [CheckTime(t, true)] + [DoUnlockTx(t), DoUnlockRx(t), Resume(t)]
    + if c.Sending? then [] else [Leave(t)]
  }

  /** A call that found nothing to do and is out of time ends, and leaves no trace. */
  lemma GivesUp(s: State, t: int, c: Call) returns (states: seq<State>)
    requires AtTop(s, t, c)
    ensures Steps(states, ExpiredTurn(t, c)) && states[0] == s
    ensures states[|ExpiredTurn(t, c)|] == State(Seen(s.q, t), s.pc[t := Outside], None)
  {
    hide Listed, Seen, Enabled, Apply;
    SeenCounts(s.q, t);
    var a := TurnBegins(s, t, c);
    var b := TurnExpires(a[3], t, c);
    var d := TurnEnds(b[1], t, c, Expired);
    Joined(a, [Attempt(t, true), Suspend(t), LockIt(t)], b, [CheckTime(t, true)]);
    Joined(a + b[1..], [Attempt(t, true), Suspend(t), LockIt(t)] + [CheckTime(t, true)],
           d, [DoUnlockTx(t), DoUnlockRx(t), Resume(t)]);
    states := a + b[1..] + d[1..];
    if !c.Sending? {
      var l := TurnLeaves(states[7], t, c);
      Joined(states, [Attempt(t, true), Suspend(t), LockIt(t)] + [CheckTime(t, true)]
             + [DoUnlockTx(t), DoUnlockRx(t), Resume(t)], l, [Leave(t)]);
      states := states + l[1..];
    }
  }

  lemma TurnExpires(s: State, t: int, c: Call) returns (b: seq<State>)
    requires PcOf(s, t) == Timing(c)
    ensures Steps(b, [CheckTime(t, true)]) && b[0] == s
    ensures b[1] == s.(pc := s.pc[t := UnlockingTx(c, Expired)])
  {
    b := [s, Apply(s, CheckTime(t, true))];
  }

  lemma TurnLeaves(s: State, t: int, c: Call) returns (b: seq<State>)
    requires PcOf(s, t) == Leaving(c) && s.suspender == None && s.q.items == 0
    ensures Steps(b, [Leave(t)]) && b[0] == s
    ensures b[1] == s.(pc := s.pc[t := Outside])
  {
    b := [s, Apply(s, Leave(t))];
  }

  /**
   In any interleaving, what a task under the lock finds decides: it goes on to the event list exactly if the
   queue is empty, or full for a sender.
   */
  lemma TestDecides(s: State, t: int)
    requires Enabled(s, Test(t))
    ensures var c, u := s.pc[t].call, Apply(s, Test(t));
            && u == s.(pc := s.pc[t := u.pc[t]])
            && u.pc[t] == if Waits(s.q, c) then Placing(c) else UnlockingTx(c, Again)
  {
  }

  /** Otherwise its turn ends at the top, on no list, to try again; posts counted meanwhile are passed on. */
  lemma RetriesAwake(s: State, t: int) returns (states: seq<State>)
    requires Good(s) && Enabled(s, Test(t)) && !Waits(s.q, s.pc[t].call)
    ensures Steps(states, [Test(t), DoUnlockTx(t), DoUnlockRx(t), Resume(t)]) && states[0] == s
    ensures PcOf(states[4], t) == Top(s.pc[t].call) && states[4].suspender == None
    ensures !Listed(states[4].q.receivers, t) && !Listed(states[4].q.senders, t)
  {
    hide Good, Listed, UnlockTx, UnlockRx;
    var u := Apply(s, Test(t));
    var a := Apply(u, DoUnlockTx(t));
    var d := Apply(a, DoUnlockRx(t));
    states := [s, u, a, d, Apply(d, Resume(t))];
    TestingNotListed(s, t);
    UnlockedNotListed(s.q, a.q, t);
  }

  lemma UnlockedNotListed(q: Queue, r: Queue, t: int)
    requires !Listed(q.receivers, t) && !Listed(q.senders, t) && r == UnlockTx(q)
    ensures !Listed(UnlockRx(r).receivers, t) && !Listed(UnlockRx(r).senders, t)
  {
    hide Listed;
    WakeReceiversTakes(q, Pending(q.txLock));
    WakeSendersTakes(r, Pending(r.rxLock));
    FewerListed(q.receivers, Pending(q.txLock), t);
    FewerListed(q.senders, Pending(r.rxLock), t);
  }

  lemma TestingNotListed(s: State, t: int)
    requires Good(s) && PcOf(s, t).Testing?
    ensures !Listed(s.q.receivers, t) && !Listed(s.q.senders, t)
  {
    NotListed(s.q, s.pc, t);
  }

  lemma FewerListed(xs: seq<Item>, n: nat, t: int)
    requires !Listed(xs, t)
    ensures !Listed(Behind(xs, n), t)
  {
  }

  // ---------------------------------------------------------------- counts over a run

  /** A post that adds an item rather than replacing the only one. */
  predicate Adds(q: Queue, overwrite: bool) { CanSend(q, overwrite) && !(overwrite && q.items > 0) }

  /** Items a step puts in, and those it takes out. Peeking does neither. */
  function Put(s: State, e: Step): (n: nat)
    requires Enabled(s, e)
  {
    match e
    case Attempt(t, _) => if s.pc[t].call.Sending? && Adds(s.q, s.pc[t].call.overwrite) then 1 else 0
    case IsrSend(overwrite) => if Adds(s.q, overwrite) then 1 else 0
    case _ => 0
  }

  function Took(s: State, e: Step): (n: nat)
    requires Enabled(s, e)
  {
    match e
    case Attempt(t, _) => if s.pc[t].call.Receiving? && s.q.items > 0 then 1 else 0
    case IsrReceive => if s.q.items > 0 then 1 else 0
    case _ => 0
  }

  lemma StepItems(s: State, e: Step)
    requires Good(s) && Enabled(s, e)
    ensures Apply(s, e).q.items == s.q.items + Put(s, e) - Took(s, e)
  {
    hide Good, InsertSorted, Without, WakeReceivers, WakeSenders, Listed;
    match e
    case DoUnlockTx(_) => WakeReceiversItems(s.q, Pending(s.q.txLock));
    case DoUnlockRx(_) => WakeSendersItems(s.q, Pending(s.q.rxLock));
    case _ =>
  }

  lemma {:induction false} WakeReceiversItems(q: Queue, n: nat)
    ensures WakeReceivers(q, n).items == q.items && WakeReceivers(q, n).rxLock == q.rxLock
    decreases n
  {
    if n > 0 && q.receivers != [] {
      WakeReceiversItems(WakeReceiver(q), n - 1);
    }
  }

  lemma {:induction false} WakeSendersItems(q: Queue, n: nat)
    ensures WakeSenders(q, n).items == q.items && WakeSenders(q, n).txLock == q.txLock
    decreases n
  {
    if n > 0 && q.senders != [] {
      WakeSendersItems(WakeSender(q), n - 1);
    }
  }

  /** All that was put in during a run, and all that was taken out. */
  ghost function AllPut(states: seq<State>, steps: seq<Step>): nat
    requires Run(states, steps)
    decreases |steps|
  {
    if steps == [] then 0
    else var n := |steps| - 1; AllPut(states[..n + 1], steps[..n]) + Put(states[n], steps[n])
  }

  ghost function AllTaken(states: seq<State>, steps: seq<Step>): nat
    requires Run(states, steps)
    decreases |steps|
  {
    if steps == [] then 0
    else var n := |steps| - 1; AllTaken(states[..n + 1], steps[..n]) + Took(states[n], steps[n])
  }

  /** Over every interleaving of tasks and interrupts, what is in the queue is what was put in and not taken out. */
  lemma {:induction false} ItemsAddUp(states: seq<State>, steps: seq<Step>)
    requires Run(states, steps)
    ensures states[|steps|].q.items + AllTaken(states, steps) == states[0].q.items + AllPut(states, steps)
    decreases |steps|
  {
    hide Good, Apply, Enabled, Put, Took;
    if steps != [] {
      var n := |steps| - 1;
      RunGood(states, steps, n);
      StepItems(states[n], steps[n]);
      ItemsAddUp(states[..n + 1], steps[..n]);
    }
  }

  /** Interrupt posts from step i to step j. */
  function Posts(states: seq<State>, steps: seq<Step>, i: nat, j: nat): (n: nat)
    requires |states| == |steps| + 1 && i <= j <= |steps|
  {
    if i == j then 0
    else
      Posts(states, steps, i, j - 1)
      + if steps[j - 1].IsrSend? && CanSend(states[j - 1].q, steps[j - 1].overwrite) then 1 else 0
  }

  /**
   From the moment a task has locked the queue until it unlocks it, the lock counts the interrupt posts one by
   one, whatever else happens; so the unlock wakes one receiver for each.
   */
  lemma {:induction false} LockCountsPosts(states: seq<State>, steps: seq<Step>, i: nat, j: nat)
    requires Run(states, steps) && i < j <= |steps| && steps[i].LockIt?
    requires forall k :: i < k < j ==> !steps[k].DoUnlockTx?
    ensures states[j].q.txLock == Posts(states, steps, i + 1, j)
  {
    hide Good, Apply, Enabled;
    RunGood(states, steps, j - 1);
    if j == i + 1 {
      LockStarts(states[i], steps[i].task);
    } else {
      LockCountsPosts(states, steps, i, j - 1);
      StepLock(states[j - 1], steps[j - 1]);
    }
  }

  lemma LockStarts(s: State, t: int)
    requires Good(s) && Enabled(s, LockIt(t))
    ensures Apply(s, LockIt(t)).q.txLock == 0 && Apply(s, LockIt(t)).q.rxLock == 0
  {
    hide QueueOk;
  }

  lemma StepLock(s: State, e: Step)
    requires Enabled(s, e) && !e.DoUnlockTx? && s.q.txLock >= 0
    ensures Apply(s, e).q.txLock == s.q.txLock + if e.IsrSend? && CanSend(s.q, e.overwrite) then 1 else 0
  {
    hide InsertSorted, Without, WakeSenders, Listed;
    match e
    case DoUnlockRx(_) => WakeSendersItems(s.q, Pending(s.q.rxLock));
    case _ =>
  }

  /** Interrupt receives from step i to step j. */
  function Takes(states: seq<State>, steps: seq<Step>, i: nat, j: nat): (n: nat)
    requires |states| == |steps| + 1 && i <= j <= |steps|
  {
    if i == j then 0
    else Takes(states, steps, i, j - 1) + if steps[j - 1].IsrReceive? && states[j - 1].q.items > 0 then 1 else 0
  }

  /** The other lock counts the interrupt receives likewise. */
  lemma {:induction false} LockCountsTakes(states: seq<State>, steps: seq<Step>, i: nat, j: nat)
    requires Run(states, steps) && i < j <= |steps| && steps[i].LockIt?
    requires forall k :: i < k < j ==> !steps[k].DoUnlockRx?
    ensures states[j].q.rxLock == Takes(states, steps, i + 1, j)
  {
    hide Good, Apply, Enabled;
    RunGood(states, steps, j - 1);
    if j == i + 1 {
      LockStarts(states[i], steps[i].task);
    } else {
      LockCountsTakes(states, steps, i, j - 1);
      StepRxLock(states[j - 1], steps[j - 1]);
    }
  }

  lemma StepRxLock(s: State, e: Step)
    requires Enabled(s, e) && !e.DoUnlockRx? && s.q.rxLock >= 0
    ensures Apply(s, e).q.rxLock == s.q.rxLock + if e.IsrReceive? && s.q.items > 0 then 1 else 0
  {
    hide InsertSorted, Without, WakeReceivers, Listed;
    match e
    case DoUnlockTx(_) => WakeReceiversItems(s.q, Pending(s.q.txLock));
    case _ =>
  }
}
