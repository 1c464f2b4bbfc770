/**
 Who waits for a queue and who is woken: a transition system of tasks and interrupts around one
 queue. A task that finds the queue empty (or full) suspends the scheduler and locks the queue while
 it decides to block; interrupts only count what they add or remove meanwhile. Proved over every
 interleaving: no wake-up is lost.
 */
module QueueSpec {
  import opened Basics
  import opened ListSpec

  const UNLOCKED: int := -1
  const LOCK_MAX: int := 127

  datatype Queue = Queue(
    length: nat,
    items: nat,            // uxMessagesWaiting
    receivers: seq<Item>,  // xTasksWaitingToReceive
    senders: seq<Item>,    // xTasksWaitingToSend
    rxLock: int,
    txLock: int,
    wokenR: set<int>,      // receivers woken by an event that have not looked at the queue since
    wokenS: set<int>       // senders likewise
  )

  // ---------------------------------------------------------------- the queue's side of every step

  function WakeReceiver(q: Queue): Queue {
    if q.receivers == [] then q
    else q.(receivers := q.receivers[1..], wokenR := q.wokenR + {q.receivers[0].owner})
  }

  function WakeSender(q: Queue): Queue {
    if q.senders == [] then q
    else q.(senders := q.senders[1..], wokenS := q.wokenS + {q.senders[0].owner})
  }

  /** The first critical section of xQueueGenericSend when there is room, and of prvCopyDataToQueue's count. */
  function Post(q: Queue, overwrite: bool): Queue {
    q.(items := if overwrite && q.items > 0 then q.items else q.items + 1)
  }

  function Send(q: Queue, overwrite: bool): Queue {
    WakeReceiver(Post(q, overwrite))
  }

  function Receive(q: Queue): Queue
    requires q.items > 0
  {
    WakeSender(q.(items := q.items - 1))
  }

  /** xQueueGenericSendFromISR and xQueueGiveFromISR: a locked queue only counts. */
  function SendFromISR(q: Queue, overwrite: bool): Queue {
    if q.txLock == UNLOCKED then Send(q, overwrite) else Post(q, overwrite).(txLock := q.txLock + 1)
  }

  function ReceiveFromISR(q: Queue): Queue
    requires q.items > 0
  {
    if q.rxLock == UNLOCKED then Receive(q) else q.(items := q.items - 1, rxLock := q.rxLock + 1)
  }

  function Lock(q: Queue): Queue {
    q.(rxLock := if q.rxLock == UNLOCKED then 0 else q.rxLock, txLock := if q.txLock == UNLOCKED then 0 else q.txLock)
  }

  function WakeReceivers(q: Queue, n: nat): Queue
    decreases n
  {
    if n == 0 || q.receivers == [] then q else WakeReceivers(WakeReceiver(q), n - 1)
  }

  function WakeSenders(q: Queue, n: nat): Queue
    decreases n
  {
    if n == 0 || q.senders == [] then q else WakeSenders(WakeSender(q), n - 1)
  }

  /** The two critical sections of prvUnlockQueue. */
  function UnlockTx(q: Queue): Queue {
    WakeReceivers(q, if q.txLock > 0 then q.txLock else 0).(txLock := UNLOCKED)
  }

  function UnlockRx(q: Queue): Queue {
    WakeSenders(q, if q.rxLock > 0 then q.rxLock else 0).(rxLock := UNLOCKED)
  }

  // ---------------------------------------------------------------- tasks

  datatype Call = Receiving | Peeking | Sending(overwrite: bool)

  /** After the unlock: try again, or give up because the time is over. */
  datatype Next = Again | Expired

  /** Where a task is in a queue call; calls of one task differ in what their first critical section does. */
  datatype Pc =
    | Outside
    | Top(call: Call)                    // before the critical section at the top of the loop; blocked while listed
    | Undecided(call: Call)              // found nothing to do, scheduler not yet suspended
    | Locking(call: Call)
    | Timing(call: Call)                 // queue locked, before xTaskCheckForTimeOut
    | Testing(call: Call)                // before prvIsQueueEmpty / prvIsQueueFull
    | Placing(call: Call)                // about to go onto the event list
    | UnlockingTx(call: Call, next: Next)
    | UnlockingRx(call: Call, next: Next)
    | Resuming(call: Call, next: Next)
    | Leaving(call: Call)                // time over, scheduler running again

  datatype State = State(q: Queue, pc: map<int, Pc>, suspender: Option<int>)

  predicate Suspended(p: Pc) {
    p.Locking? || p.Timing? || p.Testing? || p.Placing? || p.UnlockingTx? || p.UnlockingRx? || p.Resuming?
  }

  predicate ReceiveSide(c: Call) { !c.Sending? }

  function PcOf(s: State, t: int): Pc {
    if t in s.pc then s.pc[t] else Outside
  }

  predicate Listed(xs: seq<Item>, t: int) {
    exists i :: 0 <= i < |xs| && xs[i].owner == t
  }

  datatype Step =
    | Enter(task: int, call: Call)
    | Attempt(task: int, wait: bool)     // wait: a block time is left
    | Suspend(task: int)
    | LockIt(task: int)
    | CheckTime(task: int, expired: bool)
    | Test(task: int)
    | Place(task: int, value: int)       // value: event list item value, from the task's priority
    | DoUnlockTx(task: int)
    | DoUnlockRx(task: int)
    | Resume(task: int)
    | Leave(task: int)
    | Timeout(task: int)                 // the tick interrupt takes a blocked task off the event list
    | IsrSend(overwrite: bool)
    | IsrReceive

  predicate CanSend(q: Queue, overwrite: bool) { q.items < q.length || overwrite }

  /** Whether the call finds nothing to do at the top of its loop. */
  predicate Blocked(q: Queue, c: Call) {
    if c.Sending? then !CanSend(q, c.overwrite) else q.items == 0
  }

  ghost predicate Enabled(s: State, e: Step) {
    match e
    case Enter(t, c) => s.suspender == None && PcOf(s, t).Outside? && (c == Sending(true) ==> s.q.length == 1)
    case Attempt(t, _) => s.suspender == None && PcOf(s, t).Top? && !Listed(s.q.receivers, t) && !Listed(s.q.senders, t)
    case Suspend(t) => s.suspender == None && PcOf(s, t).Undecided?
    case LockIt(t) => PcOf(s, t).Locking?
    case CheckTime(t, _) => PcOf(s, t).Timing?
    case Test(t) => PcOf(s, t).Testing?
    case Place(t, _) => PcOf(s, t).Placing?
    case DoUnlockTx(t) => PcOf(s, t).UnlockingTx?
    case DoUnlockRx(t) => PcOf(s, t).UnlockingRx?
    case Resume(t) => PcOf(s, t).Resuming?
    case Leave(t) => s.suspender == None && PcOf(s, t).Leaving?
    case Timeout(t) => s.suspender == None && PcOf(s, t).Top?
    case IsrSend(overwrite) => (overwrite ==> s.q.length == 1) && (CanSend(s.q, overwrite) ==> s.q.txLock < LOCK_MAX)
    case IsrReceive => s.q.items > 0 ==> s.q.rxLock < LOCK_MAX
  }

  function Seen(q: Queue, t: int): Queue {
    q.(wokenR := q.wokenR - {t}, wokenS := q.wokenS - {t})
  }

  function Tried(q: Queue, c: Call): Queue {
    if Blocked(q, c) then q
    else match c
      case Receiving => Receive(q)
      case Peeking => WakeReceiver(q)
      case Sending(overwrite) => Send(q, overwrite)
  }

  function Apply(s: State, e: Step): State
    requires Enabled(s, e)
  {
    match e
    case Enter(t, c) => s.(pc := s.pc[t := Top(c)])
    case Attempt(t, wait) =>
      var c := s.pc[t].call;
      s.(q := Tried(Seen(s.q, t), c), pc := s.pc[t := if Blocked(s.q, c) && wait then Undecided(c) else Outside])
    case Suspend(t) => s.(pc := s.pc[t := Locking(s.pc[t].call)], suspender := Some(t))
    case LockIt(t) => s.(q := Lock(s.q), pc := s.pc[t := Timing(s.pc[t].call)])
    case CheckTime(t, expired) =>
      s.(pc := s.pc[t := if expired then UnlockingTx(s.pc[t].call, Expired) else Testing(s.pc[t].call)])
    case Test(t) =>
      var c := s.pc[t].call;
      s.(pc := s.pc[t := if (if c.Sending? then s.q.items == s.q.length else s.q.items == 0) then Placing(c)
        else UnlockingTx(c, Again)])
    case Place(t, value) =>
      var c := s.pc[t].call;
      s.(q := if ReceiveSide(c) then s.q.(receivers := InsertSorted(s.q.receivers, Item(value, t)))
              else s.q.(senders := InsertSorted(s.q.senders, Item(value, t))),
         pc := s.pc[t := UnlockingTx(c, Again)])
    case DoUnlockTx(t) => s.(q := UnlockTx(s.q), pc := s.pc[t := UnlockingRx(s.pc[t].call, s.pc[t].next)])
    case DoUnlockRx(t) => s.(q := UnlockRx(s.q), pc := s.pc[t := Resuming(s.pc[t].call, s.pc[t].next)])
    case Resume(t) =>
      var c := s.pc[t].call;
      s.(pc := s.pc[t := if s.pc[t].next == Again then Top(c) else if c.Sending? then Outside else Leaving(c)],
        suspender := None)
    case Leave(t) =>
      var c := s.pc[t].call;
      s.(pc := s.pc[t := if s.q.items == 0 then Outside else Top(c)])
    case Timeout(t) => s.(q := s.q.(receivers := Without(s.q.receivers, t), senders := Without(s.q.senders, t)))
    case IsrSend(overwrite) => if CanSend(s.q, overwrite) then s.(q := SendFromISR(s.q, overwrite)) else s
    case IsrReceive => if s.q.items > 0 then s.(q := ReceiveFromISR(s.q)) else s
  }

  // ---------------------------------------------------------------- the invariant

  function Pending(lock: int): nat {
    if lock > 0 then lock else 0
  }

  /** While a receiver waits, every item has a woken receiver or a pending unlock to see to it ... */
  ghost predicate ReceiversServed(q: Queue) {
    q.receivers != [] ==> q.items <= |q.wokenR| + Pending(q.txLock)
  }

  /** ... and while a sender waits, so has every free slot. */
  ghost predicate SendersServed(q: Queue) {
    q.senders != [] ==> q.length - q.items <= |q.wokenS| + Pending(q.rxLock)
  }

  ghost predicate CountsOk(q: Queue) {
    q.items <= q.length && UNLOCKED <= q.rxLock && UNLOCKED <= q.txLock
  }

  /** A waiting list in priority order that names nobody twice and nobody who has been woken. */
  ghost predicate ListOk(xs: seq<Item>, woken: set<int>) {
    && Sorted(xs) && Distinct(xs)
    && (forall i :: 0 <= i < |xs| ==> xs[i].owner !in woken)
  }

  /** Only a task between blocking and its next look at the queue is listed or woken. */
  predicate MayBeListed(p: Pc, receive: bool) {
    (p.Top? || ((p.UnlockingTx? || p.UnlockingRx? || p.Resuming?) && p.next == Again)) && ReceiveSide(p.call) == receive
  }

  ghost predicate MembersOk(xs: seq<Item>, woken: set<int>, pc: map<int, Pc>, receive: bool) {
    && (forall i :: 0 <= i < |xs| ==> xs[i].owner in pc && MayBeListed(pc[xs[i].owner], receive))
    && (forall t :: t in woken ==> t in pc && MayBeListed(pc[t], receive))
  }

  /** The queue is locked exactly in the suspender's locked region, and what it saw there still holds. */
  ghost predicate LockOk(q: Queue, p: Pc) {
    match p
    case Timing(_) => q.txLock >= 0 && q.rxLock >= 0
    case Testing(_) => q.txLock >= 0 && q.rxLock >= 0
    case Placing(c) => q.txLock >= 0 && q.rxLock >= 0
      && (if ReceiveSide(c) then q.items <= q.txLock else q.length - q.items <= q.rxLock)
    case UnlockingTx(_, _) => q.txLock >= 0 && q.rxLock >= 0
    case UnlockingRx(_, _) => q.txLock == UNLOCKED && q.rxLock >= 0
    case _ => q.txLock == UNLOCKED && q.rxLock == UNLOCKED
  }

  ghost predicate SuspenderOk(s: State) {
    && (forall t :: t in s.pc ==> (Suspended(s.pc[t]) <==> s.suspender == Some(t)))
    && (s.suspender.Some? ==> s.suspender.value in s.pc)
    && LockOk(s.q, if s.suspender.None? then Outside else PcOf(s, s.suspender.value))
    && (forall t :: t in s.pc && !s.pc[t].Outside? && s.pc[t].call == Sending(true) ==> s.q.length == 1)
  }

  /** The invariant of every reachable state. */
  ghost predicate Good(s: State) {
    QueueOk(s.q, s.pc) && SuspenderOk(s)
  }

  // ---------------------------------------------------------------- every step keeps it

  ghost predicate ListsOk(q: Queue, pc: map<int, Pc>) {
    && ListOk(q.receivers, q.wokenR) && ListOk(q.senders, q.wokenS)
    && MembersOk(q.receivers, q.wokenR, pc, true) && MembersOk(q.senders, q.wokenS, pc, false)
  }

  /** A wake-up is worth one item, or uses up the waiters. */
  lemma WakeReceiverOk(q: Queue, pc: map<int, Pc>)
    requires ListsOk(q, pc)
    ensures var r := WakeReceiver(q);
            && ListsOk(r, pc) && (r.receivers == [] || (q.receivers != [] && |r.wokenR| == |q.wokenR| + 1))
            && r == q.(receivers := r.receivers, wokenR := r.wokenR)
  {
  }

  lemma WakeSenderOk(q: Queue, pc: map<int, Pc>)
    requires ListsOk(q, pc)
    ensures var r := WakeSender(q);
            && ListsOk(r, pc) && (r.senders == [] || (q.senders != [] && |r.wokenS| == |q.wokenS| + 1))
            && r == q.(senders := r.senders, wokenS := r.wokenS)
  {
  }

  lemma {:induction false} WakeReceiversOk(q: Queue, n: nat, pc: map<int, Pc>)
    requires ListsOk(q, pc)
    ensures var r := WakeReceivers(q, n);
            && ListsOk(r, pc) && (r.receivers == [] || (q.receivers != [] && |r.wokenR| == |q.wokenR| + n))
            && r == q.(receivers := r.receivers, wokenR := r.wokenR)
    decreases n
  {
    hide ListsOk, WakeReceiver;
    if n > 0 && q.receivers != [] {
      WakeReceiverOk(q, pc);
      WakeReceiversOk(WakeReceiver(q), n - 1, pc);
    }
  }

  lemma {:induction false} WakeSendersOk(q: Queue, n: nat, pc: map<int, Pc>)
    requires ListsOk(q, pc)
    ensures var r := WakeSenders(q, n);
            && ListsOk(r, pc) && (r.senders == [] || (q.senders != [] && |r.wokenS| == |q.wokenS| + n))
            && r == q.(senders := r.senders, wokenS := r.wokenS)
    decreases n
  {
    hide ListsOk, WakeSender;
    if n > 0 && q.senders != [] {
      WakeSenderOk(q, pc);
      WakeSendersOk(WakeSender(q), n - 1, pc);
    }
  }

  /** The part of the invariant that concerns the queue alone. */
  ghost predicate QueueOk(q: Queue, pc: map<int, Pc>) {
    CountsOk(q) && ListsOk(q, pc) && ReceiversServed(q) && SendersServed(q)
  }

  /** What happens to a task that is neither listed nor woken does not matter to the lists. */
  lemma OtherPc(q: Queue, pc: map<int, Pc>, t: int, p: Pc)
    requires ListsOk(q, pc) && !Listed(q.receivers, t) && !Listed(q.senders, t) && t !in q.wokenR && t !in q.wokenS
    ensures ListsOk(q, pc[t := p])
  {
  }

  /** A task may go on through its unlock without leaving the lists. */
  lemma SamePhase(q: Queue, pc: map<int, Pc>, t: int, p: Pc)
    requires ListsOk(q, pc) && t in pc && (forall r :: MayBeListed(pc[t], r) ==> MayBeListed(p, r))
    ensures ListsOk(q, pc[t := p])
  {
  }

  /** A task that looks at the queue no longer counts as woken; at most one item or slot was kept for it. */
  lemma SeenOk(q: Queue, t: int, pc: map<int, Pc>, p: Pc)
    requires QueueOk(q, pc) && t in pc && pc[t].Top? && !Listed(q.receivers, t) && !Listed(q.senders, t)
    ensures var r, recv := Seen(q, t), ReceiveSide(pc[t].call);
            && CountsOk(r) && ListsOk(r, pc[t := p]) && r == q.(wokenR := r.wokenR, wokenS := r.wokenS)
            && |r.wokenR| + (if recv then 1 else 0) >= |q.wokenR| && |r.wokenS| + (if recv then 0 else 1) >= |q.wokenS|
  {
    var r := Seen(q, t);
    assert t in q.wokenR ==> ReceiveSide(pc[t].call);
    assert t in q.wokenS ==> !ReceiveSide(pc[t].call);
    assert t !in q.wokenR ==> r.wokenR == q.wokenR;
    assert t !in q.wokenS ==> r.wokenS == q.wokenS;
    OtherPc(r, pc, t, p);
  }

  lemma AttemptOk(q: Queue, t: int, pc: map<int, Pc>, p: Pc)
    requires QueueOk(q, pc) && t in pc && pc[t].Top? && !Listed(q.receivers, t) && !Listed(q.senders, t)
    requires pc[t].call == Sending(true) ==> q.length == 1
    ensures QueueOk(Tried(Seen(q, t), pc[t].call), pc[t := p])
  {
    hide ListsOk, WakeReceiver, WakeSender, Seen;
    var r, c, pc' := Seen(q, t), pc[t].call, pc[t := p];
    SeenOk(q, t, pc, p);
    if !Blocked(r, c) {
      match c
      case Receiving =>
        CountsAlone(r, r.(items := r.items - 1), pc');
        WakeSenderOk(r.(items := r.items - 1), pc');
      case Peeking => WakeReceiverOk(r, pc');
      case Sending(overwrite) =>
        CountsAlone(r, Post(r, overwrite), pc');
        WakeReceiverOk(Post(r, overwrite), pc');
    }
  }

  lemma CountsAlone(q: Queue, r: Queue, pc: map<int, Pc>)
    requires ListsOk(q, pc) && r.receivers == q.receivers && r.senders == q.senders
    requires r.wokenR == q.wokenR && r.wokenS == q.wokenS
    ensures ListsOk(r, pc)
  {
  }

  lemma IsrSendOk(q: Queue, overwrite: bool, pc: map<int, Pc>)
    requires QueueOk(q, pc) && CanSend(q, overwrite) && (overwrite ==> q.length == 1)
    ensures QueueOk(SendFromISR(q, overwrite), pc)
  {
    hide ListsOk, WakeReceiver;
    var r := Post(q, overwrite);
    CountsAlone(q, r, pc);
    CountsAlone(q, r.(txLock := q.txLock + 1), pc);
    WakeReceiverOk(r, pc);
  }

  lemma IsrReceiveOk(q: Queue, pc: map<int, Pc>)
    requires QueueOk(q, pc) && q.items > 0
    ensures QueueOk(ReceiveFromISR(q), pc)
  {
    hide ListsOk, WakeSender;
    var r := q.(items := q.items - 1);
    CountsAlone(q, r, pc);
    CountsAlone(q, r.(rxLock := q.rxLock + 1), pc);
    WakeSenderOk(r, pc);
  }

  /** Unlocking pays off what interrupts posted while the queue was locked. */
  lemma UnlockTxOk(q: Queue, pc: map<int, Pc>)
    requires QueueOk(q, pc)
    ensures QueueOk(UnlockTx(q), pc) && UnlockTx(q).rxLock == q.rxLock && UnlockTx(q).length == q.length
  {
    hide ListsOk, WakeReceivers;
    WakeReceiversOk(q, Pending(q.txLock), pc);
    CountsAlone(WakeReceivers(q, Pending(q.txLock)), UnlockTx(q), pc);
  }

  lemma UnlockRxOk(q: Queue, pc: map<int, Pc>)
    requires QueueOk(q, pc)
    ensures QueueOk(UnlockRx(q), pc) && UnlockRx(q).txLock == q.txLock && UnlockRx(q).length == q.length
  {
    hide ListsOk, WakeSenders;
    WakeSendersOk(q, Pending(q.rxLock), pc);
    CountsAlone(WakeSenders(q, Pending(q.rxLock)), UnlockRx(q), pc);
  }

  lemma PlaceListOk(xs: seq<Item>, woken: set<int>, pc: map<int, Pc>, receive: bool, x: Item)
    requires ListOk(xs, woken) && MembersOk(xs, woken, pc, receive)
    requires x.owner !in woken && !Listed(xs, x.owner) && x.owner in pc && MayBeListed(pc[x.owner], receive)
    ensures ListOk(InsertSorted(xs, x), woken) && MembersOk(InsertSorted(xs, x), woken, pc, receive)
  {
    hide InsertSorted, MayBeListed, Sorted, Distinct;
    var r := InsertSorted(xs, x);
    InsertKeepsSorted(xs, x);
    InsertDistinct(xs, x);
    forall i | 0 <= i < |r|
      ensures r[i] == x || r[i] in xs
    {
      InsertMembers(xs, x, r[i]);
    }
  }

  lemma WithoutListOk(xs: seq<Item>, woken: set<int>, pc: map<int, Pc>, receive: bool, t: int)
    requires ListOk(xs, woken) && MembersOk(xs, woken, pc, receive)
    ensures ListOk(Without(xs, t), woken) && MembersOk(Without(xs, t), woken, pc, receive)
    ensures xs == [] ==> Without(xs, t) == []
  {
    hide ListOk, MembersOk;
    WithoutParts(xs, woken);
    WithoutKeepsSorted(xs, t);
    WithoutKeepsDistinct(xs, t);
    FewerListOk(xs, Without(xs, t), woken, pc, receive);
  }

  lemma WithoutParts(xs: seq<Item>, woken: set<int>)
    requires ListOk(xs, woken)
    ensures Distinct(xs) && Sorted(xs)
  {
  }

  lemma FewerListOk(xs: seq<Item>, r: seq<Item>, woken: set<int>, pc: map<int, Pc>, receive: bool)
    requires ListOk(xs, woken) && MembersOk(xs, woken, pc, receive)
    requires Sorted(r) && Distinct(r) && forall k :: 0 <= k < |r| ==> r[k] in xs
    ensures ListOk(r, woken) && MembersOk(r, woken, pc, receive)
  {
  }

  /** A task of the call moves on; only the suspender runs with the scheduler suspended. */
  lemma MoveOk(s: State, t: int, p: Pc, suspender: Option<int>, q: Queue)
    requires SuspenderOk(s) && q.length == s.q.length
    requires t in s.pc || !Suspended(p)
    requires suspender == if Suspended(p) then Some(t) else None
    requires s.suspender == None || s.suspender == Some(t)
    requires LockOk(q, if Suspended(p) then p else Outside)
    requires p.Outside? || (p.call == Sending(true) ==> q.length == 1)
    ensures SuspenderOk(State(q, s.pc[t := p], suspender))
  {
  }

  lemma AttemptGood(s: State, t: int, wait: bool)
    requires Good(s) && Enabled(s, Attempt(t, wait))
    ensures Good(Apply(s, Attempt(t, wait)))
  {
    hide QueueOk, WakeReceiver, WakeSender, SuspenderOk;
    var c := s.pc[t].call;
    var p := if Blocked(s.q, c) && wait then Undecided(c) else Outside;
    OneSlot(s, t);
    AttemptOk(s.q, t, s.pc, p);
    TriedLocks(s.q, t, c);
    Unlocked(s, Tried(Seen(s.q, t), c));
    MoveOk(s, t, p, None, Tried(Seen(s.q, t), c));
  }

  lemma OneSlot(s: State, t: int)
    requires SuspenderOk(s) && t in s.pc && !s.pc[t].Outside?
    ensures s.pc[t].call == Sending(true) ==> s.q.length == 1
    ensures Suspended(s.pc[t]) ==> s.suspender == Some(t) && LockOk(s.q, s.pc[t])
  {
  }

  lemma TriedLocks(q: Queue, t: int, c: Call)
    ensures var r := Tried(Seen(q, t), c); r.txLock == q.txLock && r.rxLock == q.rxLock && r.length == q.length
  {
  }

  lemma Unlocked(s: State, q: Queue)
    requires SuspenderOk(s) && s.suspender == None && q.txLock == s.q.txLock && q.rxLock == s.q.rxLock
    ensures LockOk(q, Outside) && LockOk(s.q, Outside)
    ensures forall c :: LockOk(q, Locking(c))
  {
  }

  lemma QuietGood(s: State, e: Step)
    requires Good(s) && Enabled(s, e)
    requires e.Enter? || e.Suspend? || e.LockIt? || e.CheckTime? || e.Test? || e.Resume? || e.Leave?
    ensures Good(Apply(s, e))
  {
    hide WakeReceiver, WakeSender, ListOk, MembersOk, SuspenderOk;
    var t := e.task;
    var u := Apply(s, e);
    if e.Enter? {
      NotListed(s.q, s.pc, t);
      Unlocked(s, s.q);
    } else {
      OneSlot(s, t);
      if s.suspender == None {
        Unlocked(s, s.q);
      }
    }
    CountsAlone(s.q, u.q, s.pc);
    if forall r :: !MayBeListed(PcOf(s, t), r) {
      NotListed(s.q, s.pc, t);
      OtherPc(u.q, s.pc, t, u.pc[t]);
    } else {
      SamePhase(u.q, s.pc, t, u.pc[t]);
    }
    MoveOk(s, t, u.pc[t], u.suspender, u.q);
  }

  /** Who is outside the phases in which tasks wait is neither listed nor woken. */
  lemma NotListed(q: Queue, pc: map<int, Pc>, t: int)
    requires ListsOk(q, pc) && (t in pc ==> forall r :: !MayBeListed(pc[t], r))
    ensures !Listed(q.receivers, t) && !Listed(q.senders, t) && t !in q.wokenR && t !in q.wokenS
  {
  }

  /** Going onto the event list: what the task saw under the lock still holds, so nothing can be lost. */
  lemma PlaceGood(s: State, t: int, value: int)
    requires Good(s) && Enabled(s, Place(t, value))
    ensures Good(Apply(s, Place(t, value)))
  {
    hide WakeReceiver, WakeSender, ListOk, MembersOk, SuspenderOk, InsertSorted;
    var c := s.pc[t].call;
    var u := Apply(s, Place(t, value));
    OneSlot(s, t);
    NotListed(s.q, s.pc, t);
    OtherPc(s.q, s.pc, t, UnlockingTx(c, Again));
    if ReceiveSide(c) {
      PlaceListOk(s.q.receivers, s.q.wokenR, u.pc, true, Item(value, t));
    } else {
      PlaceListOk(s.q.senders, s.q.wokenS, u.pc, false, Item(value, t));
    }
    MoveOk(s, t, UnlockingTx(c, Again), Some(t), u.q);
  }

  lemma UnlockGood(s: State, e: Step)
    requires Good(s) && Enabled(s, e) && (e.DoUnlockTx? || e.DoUnlockRx?)
    ensures Good(Apply(s, e))
  {
    hide SuspenderOk, CountsOk, ListOk, MembersOk, ReceiversServed, SendersServed, WakeReceivers, WakeSenders;
    var t := e.task;
    var u := Apply(s, e);
    OneSlot(s, t);
    if e.DoUnlockTx? {
      UnlockTxOk(s.q, s.pc);
    } else {
      UnlockRxOk(s.q, s.pc);
    }
    if forall r :: !MayBeListed(s.pc[t], r) {
      NotListed(u.q, s.pc, t);
      OtherPc(u.q, s.pc, t, u.pc[t]);
    } else {
      SamePhase(u.q, s.pc, t, u.pc[t]);
    }
    MoveOk(s, t, u.pc[t], Some(t), u.q);
  }

  lemma TimeoutGood(s: State, t: int)
    requires Good(s) && Enabled(s, Timeout(t))
    ensures Good(Apply(s, Timeout(t)))
  {
    hide Without, ListOk, MembersOk;
    WithoutListOk(s.q.receivers, s.q.wokenR, s.pc, true, t);
    WithoutListOk(s.q.senders, s.q.wokenS, s.pc, false, t);
  }

  lemma IsrGood(s: State, e: Step)
    requires Good(s) && Enabled(s, e) && (e.IsrSend? || e.IsrReceive?)
    ensures Good(Apply(s, e))
  {
    hide ListOk, MembersOk;
    match e
    case IsrSend(overwrite) =>
      if CanSend(s.q, overwrite) {
        IsrSendOk(s.q, overwrite, s.pc);
      }
    case IsrReceive =>
      if s.q.items > 0 {
        IsrReceiveOk(s.q, s.pc);
      }
  }

  lemma StepGood(s: State, e: Step)
    requires Good(s) && Enabled(s, e)
    ensures Good(Apply(s, e))
  {
    hide Good, Apply, Enabled;
    match e
    case Attempt(t, wait) => AttemptGood(s, t, wait);
    case Place(t, value) => PlaceGood(s, t, value);
    case DoUnlockTx(_) => UnlockGood(s, e);
    case DoUnlockRx(_) => UnlockGood(s, e);
    case Timeout(t) => TimeoutGood(s, t);
    case IsrSend(_) => IsrGood(s, e);
    case IsrReceive => IsrGood(s, e);
    case _ => QuietGood(s, e);
  }

  // ---------------------------------------------------------------- runs

  ghost predicate Run(states: seq<State>, steps: seq<Step>) {
    && |states| == |steps| + 1 && Good(states[0])
    && (forall k :: 0 <= k < |steps| ==> Enabled(states[k], steps[k]) && states[k + 1] == Apply(states[k], steps[k]))
  }

  lemma {:induction false} RunGood(states: seq<State>, steps: seq<Step>, k: nat)
    requires Run(states, steps) && k <= |steps|
    ensures Good(states[k])
  {
    hide Good, Enabled, Apply;
    if k > 0 {
      RunGood(states, steps, k - 1);
      StepGood(states[k - 1], steps[k - 1]);
    }
  }

  /** A fresh queue with nobody in a call starts a run. */
  lemma FreshGood(length: nat, items: nat)
    requires items <= length
    ensures Good(State(Queue(length, items, [], [], UNLOCKED, UNLOCKED, {}, {}), map[], None))
  {
  }

  /**
   No lost wake-up. In every reachable state, while a task waits to receive, the items never exceed
   the receivers that are woken and have yet to look, plus the posts an unlock has yet to pass on;
   and symmetrically for free slots.
   */
  lemma NoLostWakeUp(states: seq<State>, steps: seq<Step>, k: nat)
    requires Run(states, steps) && k <= |steps|
    ensures var q := states[k].q;
            && (q.receivers != [] ==> q.items <= |q.wokenR| + Pending(q.txLock))
            && (q.senders != [] ==> q.length - q.items <= |q.wokenS| + Pending(q.rxLock))
  {
    RunGood(states, steps, k);
  }

  /** Every task that is in a queue call is asleep on one of the two lists. */
  ghost predicate AllAsleep(s: State) {
    forall t :: t in s.pc ==> s.pc[t].Outside? || Listed(s.q.receivers, t) || Listed(s.q.senders, t)
  }

  /**
   When everybody in a call is asleep and the scheduler runs, sleeping receivers mean an empty queue
   and sleeping senders a full one; so receivers and senders never sleep facing each other.
   */
  lemma AsleepForAReason(states: seq<State>, steps: seq<Step>, k: nat)
    requires Run(states, steps) && k <= |steps| && AllAsleep(states[k]) && states[k].suspender == None
    ensures var q := states[k].q;
            && (q.receivers != [] ==> q.items == 0) && (q.senders != [] ==> q.items == q.length)
            && (q.length > 0 ==> q.receivers == [] || q.senders == [])
  {
    var s := states[k];
    RunGood(states, steps, k);
    Unlocked(s, s.q);
    NobodyWoken(s);
  }

  lemma NobodyWoken(s: State)
    requires Good(s) && AllAsleep(s)
    ensures s.q.wokenR == {} && s.q.wokenS == {}
  {
    forall t | t in s.q.wokenR || t in s.q.wokenS
      ensures false
    {
      WokenAwake(s, t);
    }
  }

  lemma WokenAwake(s: State, t: int)
    requires Good(s) && (t in s.q.wokenR || t in s.q.wokenS)
    ensures t in s.pc && !s.pc[t].Outside? && !Listed(s.q.receivers, t) && !Listed(s.q.senders, t)
  {
  }
}
