/**
 The queue object: a ring of fixed-size items in a byte array, the event lists and the lock counters.
 The ring is proved to be a bounded double-ended sequence of items; the critical sections are proved
 to be the steps of module QueueSpec.
 */
module Queues {
  import opened Basics
  import opened ListSpec
  import opened QueueSpec

  datatype Position = Back | Front | Overwrite

  // ---------------------------------------------------------------- slots and cells

  /** The slot of item i when the last read was from slot r. */
  function Slot(length: nat, r: nat, i: nat): (k: nat)
    requires r < length && i <= length
    ensures k < length
  {
    var s := r + 1 + i;
    if s < length then s else if s < 2 * length then s - length else s - 2 * length
  }

  function Cell(bytes: seq<bv8>, size: nat, k: nat): (c: seq<bv8>)
    requires k * size + size <= |bytes|
    ensures |c| == size
  {
    bytes[k * size..k * size + size]
  }

  lemma CellFits(length: nat, size: nat, k: nat)
    requires k < length
    ensures k * size + size <= length * size
    ensures size > 0 ==> (k * size + size >= length * size <==> k + 1 == length)
    ensures size > 0 ==> (k * size - size < 0 <==> k == 0)
    ensures (k + 1) * size == k * size + size && (length - 1) * size == length * size - size
    ensures k > 0 ==> (k - 1) * size == k * size - size
  {
    TimesMonotone(k + 1, length, size);
    if k + 1 < length {
      TimesMonotone(k + 2, length, size);
    }
    if k > 0 {
      TimesMonotone(1, k, size);
    }
  }

  /** The items of a ring of cells, oldest first. */
  ghost function Stored(bytes: seq<bv8>, size: nat, length: nat, r: nat, n: nat): (items: seq<seq<bv8>>)
    requires |bytes| == length * size && r < length && n <= length
    ensures |items| == n
    ensures forall i :: 0 <= i < n ==>
      Slot(length, r, i) * size + size <= |bytes| && items[i] == Cell(bytes, size, Slot(length, r, i))
  {
    AllFit(length, size);
    seq(n, i requires 0 <= i < n => Cell(bytes, size, Slot(length, r, i)))
  }

  lemma AllFit(length: nat, size: nat)
    ensures forall k: nat :: k < length ==> k * size + size <= length * size
  {
    forall k: nat | k < length
      ensures k * size + size <= length * size
    {
      CellFits(length, size, k);
    }
  }

  /** bytes with the cell k replaced. */
  function Put(bytes: seq<bv8>, at: nat, item: seq<bv8>): (b: seq<bv8>)
    requires at + |item| <= |bytes|
    ensures |b| == |bytes|
  {
    bytes[..at] + item + bytes[at + |item|..]
  }

  /** Bytes outside the item put in. */
  lemma PutBeside(bytes: seq<bv8>, at: nat, item: seq<bv8>, a: nat, n: nat)
    requires at + |item| <= |bytes| && a + n <= |bytes| && (a + n <= at || at + |item| <= a)
    ensures Put(bytes, at, item)[a..a + n] == bytes[a..a + n]
  {
  }

  lemma PutSame(bytes: seq<bv8>, at: nat, item: seq<bv8>)
    requires at + |item| <= |bytes|
    ensures Put(bytes, at, item)[at..at + |item|] == item
  {
  }

  lemma PutCell(bytes: seq<bv8>, size: nat, k: nat, item: seq<bv8>, j: nat)
    requires |item| == size && k * size + size <= |bytes| && j * size + size <= |bytes|
    ensures Cell(Put(bytes, k * size, item), size, j) == if j == k then item else Cell(bytes, size, j)
  {
    hide Put;
    CellsApart(j, k, size);
    PutAt(bytes, k * size, item, j * size, size);
  }

  lemma PutAt(bytes: seq<bv8>, at: nat, item: seq<bv8>, a: nat, n: nat)
    requires at + |item| <= |bytes| && a + n <= |bytes| && n == |item| && (a == at || a + n <= at || at + n <= a)
    ensures Put(bytes, at, item)[a..a + n] == if a == at then item else bytes[a..a + n]
  {
    hide Put;
    if a == at {
      PutSame(bytes, at, item);
    } else {
      PutBeside(bytes, at, item, a, n);
    }
  }

  lemma CellsApart(j: nat, k: nat, size: nat)
    ensures j < k ==> j * size + size <= k * size
    ensures k < j ==> k * size + size <= j * size
  {
    if j < k {
      TimesMonotone(j + 1, k, size);
    } else if k < j {
      TimesMonotone(k + 1, j, size);
    }
  }

  lemma SlotsDiffer(length: nat, r: nat, i: nat, j: nat)
    requires r < length && i < j < length
    ensures Slot(length, r, i) != Slot(length, r, j)
  {
  }

  lemma SlotStep(length: nat, r: nat, i: nat)
    requires r < length && i < length
    ensures Slot(length, Slot(length, r, 0), i) == Slot(length, r, i + 1)
    ensures Slot(length, r, i + 1) == if Slot(length, r, i) + 1 == length then 0 else Slot(length, r, i) + 1
    ensures Slot(length, r, length - 1) == r
  {
  }

  /** Send to back: the slot after the last item. */
  lemma PushBack(bytes: seq<bv8>, size: nat, length: nat, r: nat, n: nat, item: seq<bv8>)
    requires |bytes| == length * size && r < length && n < length && |item| == size
    requires Slot(length, r, n) * size + size <= |bytes|
    ensures Stored(Put(bytes, Slot(length, r, n) * size, item), size, length, r, n + 1) ==
      Stored(bytes, size, length, r, n) + [item]
  {
    hide Put, Cell, Slot;
    var w := Slot(length, r, n);
    var a, b := Stored(Put(bytes, w * size, item), size, length, r, n + 1), Stored(bytes, size, length, r, n);
    forall i | 0 <= i < n + 1
      ensures a[i] == (b + [item])[i]
    {
      PutCell(bytes, size, w, item, Slot(length, r, i));
      if i < n {
        SlotsDiffer(length, r, i, n);
      }
    }
  }

  /** Send to front: the slot last read from, which then becomes the first unread one. */
  lemma PushFront(bytes: seq<bv8>, size: nat, length: nat, r: nat, n: nat, item: seq<bv8>)
    requires |bytes| == length * size && r < length && n < length && |item| == size && r * size + size <= |bytes|
    ensures var p := Before(length, r);
            Stored(Put(bytes, r * size, item), size, length, p, n + 1) == [item] + Stored(bytes, size, length, r, n)
  {
    hide Put, Cell, Slot, Stored, Before;
    var p := Before(length, r);
    var after := Put(bytes, r * size, item);
    var a, b := Stored(after, size, length, p, n + 1), Stored(bytes, size, length, r, n);
    forall i | 0 <= i < n + 1
      ensures a[i] == ([item] + b)[i]
    {
      PushFrontAt(bytes, size, length, r, n, item, i);
    }
  }

  lemma PushFrontAt(bytes: seq<bv8>, size: nat, length: nat, r: nat, n: nat, item: seq<bv8>, i: nat)
    requires |bytes| == length * size && r < length && i <= n < length && |item| == size && r * size + size <= |bytes|
    ensures var k := Slot(length, Before(length, r), i);
            && k * size + size <= |bytes| && (i > 0 ==> k == Slot(length, r, i - 1))
            && Cell(Put(bytes, r * size, item), size, k) == if i == 0 then item else Cell(bytes, size, k)
  {
    hide Put, Cell, Slot;
    var p := Before(length, r);
    StepBack(length, r);
    WithinStore(length, size, Slot(length, p, i));
    PutCell(bytes, size, r, item, Slot(length, p, i));
    if i > 0 {
      SlotStep(length, p, i - 1);
      SlotsDiffer(length, p, 0, i);
    }
  }

  lemma WithinStore(length: nat, size: nat, k: nat)
    requires k < length
    ensures k * size + size <= length * size
  {
    CellFits(length, size, k);
  }

  lemma StepBack(length: nat, r: nat)
    requires r < length
    ensures Slot(length, Before(length, r), 0) == r
  {
  }

  /** Receive: the slot after the one last read from. */
  lemma PopFront(bytes: seq<bv8>, size: nat, length: nat, r: nat, n: nat)
    requires |bytes| == length * size && r < length && 0 < n <= length
    ensures Stored(bytes, size, length, Slot(length, r, 0), n - 1) == Stored(bytes, size, length, r, n)[1..]
  {
  }

  function Before(length: nat, r: nat): (p: nat)
    requires r < length
    ensures p < length
  {
    if r == 0 then length - 1 else r - 1
  }

  /** Send to back with the pointer arithmetic the code does. */
  lemma BackStep(bytes: seq<bv8>, size: nat, length: nat, r: nat, n: nat, item: seq<bv8>)
    requires size > 0 && |bytes| == length * size && r < length && n < length && |item| == size
    ensures var at := Slot(length, r, n) * size;
            && 0 <= at && at + size <= |bytes|
            && Slot(length, r, n + 1) * size == (if at + size >= length * size then 0 else at + size)
            && Stored(Put(bytes, at, item), size, length, r, n + 1) == Stored(bytes, size, length, r, n) + [item]
  {
    hide Put, Slot, Stored;
    CellFits(length, size, Slot(length, r, n));
    SlotStep(length, r, n);
    PushBack(bytes, size, length, r, n, item);
  }

  /** Send to front likewise; an overwrite of a single slot is a send to the front of nothing. */
  lemma FrontStep(bytes: seq<bv8>, size: nat, length: nat, r: nat, n: nat, item: seq<bv8>)
    requires size > 0 && |bytes| == length * size && r < length && n < length && |item| == size
    ensures var at, p := r * size, Before(length, r);
            && 0 <= at && at + size <= |bytes|
            && p * size == (if at - size < 0 then length * size - size else at - size)
            && Slot(length, p, n + 1) == Slot(length, r, n)
            && Stored(Put(bytes, at, item), size, length, p, n + 1) == [item] + Stored(bytes, size, length, r, n)
  {
    hide Put, Slot, Stored;
    CellFits(length, size, r);
    SlotStep(length, Before(length, r), n);
    StepBack(length, r);
    PushFront(bytes, size, length, r, n, item);
  }

  // ---------------------------------------------------------------- the queue object

  class MessageQueue {
    const length: nat
    const itemSize: nat
    const storage: array<bv8>
    var writeTo: int           // pcWriteTo and pcReadFrom, relative to pcHead
    var readFrom: int
    var messagesWaiting: nat
    var receivers: seq<Item>
    var senders: seq<Item>
    var rxLock: int
    var txLock: int
    ghost var lastRead: nat    // the slot readFrom points to
    ghost var wokenR: set<int>
    ghost var wokenS: set<int>

    /** Only a queue of items, not a semaphore, has a ring. */
    ghost predicate RingOk()
      reads this
    {
      && storage.Length == length * itemSize && lastRead < length && messagesWaiting <= length
      && readFrom == lastRead * itemSize && writeTo == Slot(length, lastRead, messagesWaiting) * itemSize
    }

    ghost predicate Valid()
      reads this
    {
      && 0 < length && messagesWaiting <= length && (itemSize > 0 ==> RingOk())
      && UNLOCKED <= rxLock <= LOCK_MAX && UNLOCKED <= txLock <= LOCK_MAX
    }

    /** The stored items, oldest first. */
    ghost function Items(): seq<seq<bv8>>
      reads this, storage
      requires Valid()
    {
      if itemSize == 0 then seq(messagesWaiting, _ => [])
        else Stored(storage[..], itemSize, length, lastRead, messagesWaiting)
    }

    ghost function View(): Queue
      reads this
    {
      Queue(length, messagesWaiting, receivers, senders, rxLock, txLock, wokenR, wokenS)
    }

    /** xQueueGenericReset of a new queue */
    constructor (length: nat, itemSize: nat)
      requires length > 0
      ensures Valid() && fresh(storage) && Items() == [] && this.length == length && this.itemSize == itemSize
      ensures View() == Queue(length, 0, [], [], UNLOCKED, UNLOCKED, {}, {})
    {
      CellFits(length, itemSize, length - 1);
      this.length, this.itemSize := length, itemSize;
      storage := new bv8[length * itemSize];
      messagesWaiting, writeTo, readFrom, lastRead := 0, 0, (length - 1) * itemSize, length - 1;
      receivers, senders, rxLock, txLock := [], [], UNLOCKED, UNLOCKED;
      wokenR, wokenS := {}, {};
    }

    /** memcpy into the storage area */
    method CopyIn(at: nat, item: seq<bv8>)
      requires at + |item| <= storage.Length
      modifies storage
      ensures storage[..] == Put(old(storage[..]), at, item)
    {
      var i := 0;
      while i < |item|
        invariant 0 <= i <= |item|
        invariant forall k :: 0 <= k < storage.Length ==>
          storage[k] == if at <= k < at + i then item[k - at] else old(storage[k])
      {
        storage[at + i] := item[i];
        i := i + 1;
      }
    }

    /** memcpy out of it */
    method CopyOut(at: nat, size: nat) returns (item: seq<bv8>)
      requires at + size <= storage.Length
      ensures item == storage[at..at + size]
    {
      item := [];
      while |item| < size
        invariant |item| <= size && item == storage[at..at + |item|]
      {
        item := item + [storage[at + |item|]];
      }
    }

    /**
     Overwriting a full queue that has no data, a semaphore. The code then takes no item back, and counts
     one more than there is room for.
     */
    ghost predicate Overfills(position: Position)
      reads this
    {
      itemSize == 0 && position == Overwrite && messagesWaiting == length
    }

    /**
     prvCopyDataToQueue. A mutex is not handled here but in module Mutexes. The queue stays in order if
     and only if it is not overfilled.
     */
    method CopyDataToQueue(item: seq<bv8>, position: Position)
      requires Valid() && |item| == itemSize
      requires messagesWaiting < length || position == Overwrite
      requires position == Overwrite ==> length == 1
      modifies this`writeTo, this`readFrom, this`messagesWaiting, this`lastRead, storage
      ensures Valid() <==> !old(Overfills(position))
      ensures View() ==
        if old(Overfills(position)) then old(View()).(items := length + 1) else Post(old(View()), position == Overwrite)
      ensures !old(Overfills(position)) ==>
        Items() == match position
                   case Back => old(Items()) + [item]
                   case Front => [item] + old(Items())
                   case Overwrite => [item]
    {
      hide Put, Cell, Slot, Stored;
      var n := messagesWaiting;
      if itemSize == 0 {
      } else if position == Back {
        BackStep(storage[..], itemSize, length, lastRead, n, item);
        CopyIn(writeTo, item);
        writeTo := writeTo + itemSize;
        if writeTo >= length * itemSize {
          writeTo := 0;
        }
      } else {
        FrontStep(storage[..], itemSize, length, lastRead, if position == Overwrite then 0 else n, item);
        CopyIn(readFrom, item);
        readFrom := readFrom - itemSize;
        if readFrom < 0 {
          readFrom := length * itemSize - itemSize;
        }
        lastRead := Before(length, lastRead);
        if position == Overwrite && n > 0 {
          SingleSlot(lastRead, n);
          n := n - 1;
        }
      }
      messagesWaiting := n + 1;
    }

    /** prvCopyDataFromQueue: the data of the oldest item, and readFrom moved onto it. */
    method CopyDataFromQueue() returns (item: seq<bv8>)
      requires Valid() && messagesWaiting > 0
      modifies this`readFrom, this`lastRead
      ensures item == old(Items())[0]
      ensures itemSize > 0 ==> lastRead == Slot(length, old(lastRead), 0) && readFrom == lastRead * itemSize
      ensures itemSize == 0 ==> lastRead == old(lastRead)
    {
      hide Slot;
      item := [];
      if itemSize != 0 {
        CellFits(length, itemSize, lastRead);
        SlotZero(length, lastRead);
        lastRead := Slot(length, lastRead, 0);
        CellFits(length, itemSize, lastRead);
        readFrom := readFrom + itemSize;
        if readFrom >= length * itemSize {
          readFrom := 0;
        }
        item := CopyOut(readFrom, itemSize);
      }
    }

    /** xTaskRemoveFromEventList of the head of a non-empty list, or nothing */
    method WakeOneReceiver() returns (woken: bool)
      modifies this`receivers, this`wokenR
      ensures View() == WakeReceiver(old(View())) && (woken <==> old(receivers) != [])
    {
      woken := receivers != [];
      if woken {
        wokenR := wokenR + {receivers[0].owner};
        receivers := receivers[1..];
      }
    }

    method WakeOneSender() returns (woken: bool)
      modifies this`senders, this`wokenS
      ensures View() == WakeSender(old(View())) && (woken <==> old(senders) != [])
    {
      woken := senders != [];
      if woken {
        wokenS := wokenS + {senders[0].owner};
        senders := senders[1..];
      }
    }

    /** The critical section at the top of xQueueGenericSend. */
    method TrySend(item: seq<bv8>, position: Position) returns (sent: bool)
      requires Valid() && |item| == itemSize && (position == Overwrite ==> length == 1)
      modifies this, storage
      ensures (Valid() <==> !old(Overfills(position))) && (sent <==> CanSend(old(View()), position == Overwrite))
      ensures old(Overfills(position)) ==> View() == WakeReceiver(old(View()).(items := length + 1))
      ensures sent && !old(Overfills(position)) ==>
        && View() == Send(old(View()), position == Overwrite)
        && Items() == match position
                      case Back => old(Items()) + [item]
                      case Front => [item] + old(Items())
                      case Overwrite => [item]
      ensures !sent ==> View() == old(View()) && Items() == old(Items())
    {
      hide Slot, Stored;
      sent := messagesWaiting < length || position == Overwrite;
      if sent {
        CopyDataToQueue(item, position);
        var _ := WakeOneReceiver();
      }
    }

    /** The oldest item is copied out and counted off. */
    method TakeOldest() returns (item: seq<bv8>)
      requires Valid() && messagesWaiting > 0
      modifies this`readFrom, this`lastRead, this`messagesWaiting
      ensures Valid() && View() == old(View()).(items := old(messagesWaiting) - 1)
      ensures item == old(Items())[0] && Items() == old(Items())[1..]
    {
      hide Slot, Stored;
      TakeStep(storage[..], itemSize, length, lastRead, messagesWaiting, RingOk());
      item := CopyDataFromQueue();
      messagesWaiting := messagesWaiting - 1;
    }

    /** The critical section at the top of xQueueReceive, and of xQueueSemaphoreTake for a plain semaphore. */
    method TryReceive() returns (item: Option<seq<bv8>>)
      requires Valid()
      modifies this
      ensures Valid() && (item.Some? <==> old(messagesWaiting) > 0)
      ensures item.Some? ==>
        View() == Receive(old(View())) && item.value == old(Items())[0] && Items() == old(Items())[1..]
      ensures item.None? ==> View() == old(View()) && Items() == old(Items())
    {
      hide Slot, Stored;
      item := None;
      if messagesWaiting > 0 {
        var data := TakeOldest();
        var _ := WakeOneSender();
        item := Some(data);
      }
    }

    /** The critical section at the top of xQueuePeek: the item stays, and the next waiting receiver is woken. */
    method TryPeek() returns (item: Option<seq<bv8>>)
      requires Valid()
      modifies this
      ensures Valid() && (item.Some? <==> old(messagesWaiting) > 0) && Items() == old(Items())
      ensures item.Some? ==> View() == WakeReceiver(old(View())) && item.value == old(Items())[0]
      ensures item.None? ==> View() == old(View())
    {
      hide Slot, Stored;
      item := None;
      if messagesWaiting > 0 {
        var originalReadPosition := readFrom;
        ghost var slot := lastRead;
        var data := CopyDataFromQueue();
        readFrom := originalReadPosition;
        lastRead := slot;
        var _ := WakeOneReceiver();
        item := Some(data);
      }
    }

    /** xQueueGenericSendFromISR, and xQueueGiveFromISR for itemSize 0 */
    method SendInISR(item: seq<bv8>, position: Position) returns (sent: bool)
      requires Valid() && |item| == itemSize && (position == Overwrite ==> length == 1)
      requires CanSend(View(), position == Overwrite) ==> txLock < LOCK_MAX
      modifies this, storage
      ensures (Valid() <==> !old(Overfills(position))) && (sent <==> CanSend(old(View()), position == Overwrite))
      ensures old(Overfills(position)) ==>
        var q := old(View()).(items := length + 1);
        View() == if q.txLock == UNLOCKED then WakeReceiver(q) else q.(txLock := q.txLock + 1)
      ensures sent && !old(Overfills(position)) ==>
        && View() == SendFromISR(old(View()), position == Overwrite)
        && Items() == match position
                      case Back => old(Items()) + [item]
                      case Front => [item] + old(Items())
                      case Overwrite => [item]
      ensures !sent ==> View() == old(View()) && Items() == old(Items())
    {
      hide Slot, Stored;
      sent := messagesWaiting < length || position == Overwrite;
      if sent {
        var lock := txLock;
        CopyDataToQueue(item, position);
        if lock == UNLOCKED {
          var _ := WakeOneReceiver();
        } else {
          txLock := lock + 1;
        }
      }
    }

    /** A locked queue counts what an interrupt takes out. */
    method CountTake()
      requires Valid() && rxLock < LOCK_MAX
      modifies this`rxLock
      ensures Valid() && View() == old(View()).(rxLock := old(rxLock) + 1) && Items() == old(Items())
    {
      rxLock := rxLock + 1;
    }

    /** xQueueReceiveFromISR */
    method ReceiveInISR() returns (item: Option<seq<bv8>>)
      requires Valid() && (messagesWaiting > 0 ==> rxLock < LOCK_MAX)
      modifies this
      ensures Valid() && (item.Some? <==> old(messagesWaiting) > 0)
      ensures item.Some? ==>
        View() == ReceiveFromISR(old(View())) && item.value == old(Items())[0] && Items() == old(Items())[1..]
      ensures item.None? ==> View() == old(View()) && Items() == old(Items())
    {
      hide Slot, Stored;
      item := None;
      if messagesWaiting > 0 {
        var lock := rxLock;
        var data := TakeOldest();
        if lock == UNLOCKED {
          var _ := WakeOneSender();
        } else {
          CountTake();
        }
        item := Some(data);
      }
    }

    /** prvLockQueue */
    method LockQueue()
      requires Valid()
      modifies this`rxLock, this`txLock
      ensures Valid() && View() == Lock(old(View()))
    {
      if rxLock == UNLOCKED {
        rxLock := 0;
      }
      if txLock == UNLOCKED {
        txLock := 0;
      }
    }

    /** The first critical section of prvUnlockQueue: one wake-up for every item posted meanwhile. */
    method UnlockSenders()
      requires Valid()
      modifies this`receivers, this`wokenR, this`txLock
      ensures Valid() && View() == UnlockTx(old(View()))
    {
      var lock := txLock;
      ghost var goal := WakeReceivers(View(), Pending(txLock));
      while lock > 0
        invariant WakeReceivers(View(), Pending(lock)) == goal && txLock == old(txLock)
        decreases lock
      {
        WakeReceiversStep(View(), lock);
        if receivers != [] {
          var _ := WakeOneReceiver();
        } else {
          break;
        }
        lock := lock - 1;
      }
      txLock := UNLOCKED;
    }

    /** The second: one wake-up for every item taken. */
    method UnlockReceivers()
      requires Valid()
      modifies this`senders, this`wokenS, this`rxLock
      ensures Valid() && View() == UnlockRx(old(View()))
    {
      var lock := rxLock;
      ghost var goal := WakeSenders(View(), Pending(rxLock));
      while lock > 0
        invariant WakeSenders(View(), Pending(lock)) == goal && rxLock == old(rxLock)
        decreases lock
      {
        WakeSendersStep(View(), lock);
        if senders != [] {
          var _ := WakeOneSender();
          lock := lock - 1;
        } else {
          break;
        }
      }
      rxLock := UNLOCKED;
    }
  }

  /** A binary semaphore that is overwritten while it is available is then available twice. */
  method OverwrittenSemaphore() returns (semaphore: MessageQueue)
    ensures fresh(semaphore) && semaphore.length == 1 && semaphore.messagesWaiting == 2
  {
    semaphore := new MessageQueue(1, 0);
    var _ := semaphore.TrySend([], Back);
    var _ := semaphore.TrySend([], Overwrite);
  }

  lemma WakeReceiversStep(q: Queue, n: nat)
    requires n > 0
    ensures WakeReceivers(q, n) == if q.receivers == [] then q else WakeReceivers(WakeReceiver(q), n - 1)
  {
  }

  lemma WakeSendersStep(q: Queue, n: nat)
    requires n > 0
    ensures WakeSenders(q, n) == if q.senders == [] then q else WakeSenders(WakeSender(q), n - 1)
  {
  }

  /** Receive with the slots the code moves through. */
  lemma TakeStep(bytes: seq<bv8>, size: nat, length: nat, r: nat, n: nat, ring: bool)
    requires ring ==> |bytes| == length * size && r < length && 0 < n <= length
    ensures ring ==>
      && Slot(length, Slot(length, r, 0), n - 1) == Slot(length, r, n)
      && Stored(bytes, size, length, Slot(length, r, 0), n - 1) == Stored(bytes, size, length, r, n)[1..]
  {
  }

  lemma SingleSlot(r: nat, n: nat)
    requires r < 1 && n <= 1
    ensures Slot(1, r, n) == 0
  {
  }

  lemma SlotZero(length: nat, r: nat)
    requires r < length
    ensures Slot(length, r, 0) == if r + 1 == length then 0 else r + 1
  {
  }
}
