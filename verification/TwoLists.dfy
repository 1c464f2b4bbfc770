/**
 A queue of true times kept as two sorted lists of wrapped ones: those of the current epoch and those
 of the next. The scheduler keeps blocked tasks this way, and the timer service its timers.
 */
module TwoLists {
  import opened Ticks
  import opened ListSpec

  /** Items of a list of wrapped times, as true times of the epoch starting at base. */
  function Lift(xs: seq<Item>, base: int): (r: seq<Item>)
    ensures |r| == |xs| && forall i :: 0 <= i < |xs| ==> r[i] == Item(xs[i].value + base, xs[i].owner)
  {
    seq(|xs|, i requires 0 <= i < |xs| => Item(xs[i].value + base, xs[i].owner))
  }

  /** The unbounded queue two wrapped lists stand for at time now. */
  function Joined(now: int, delayed: seq<Item>, overflow: seq<Item>): seq<Item> {
    Lift(delayed, Epoch(now) * M) + Lift(overflow, (Epoch(now) + 1) * M)
  }

  ghost predicate Wrapped(xs: seq<Item>) {
    forall i :: 0 <= i < |xs| ==> 0 <= xs[i].value < M
  }

  lemma JoinedAt(now: int, delayed: seq<Item>, overflow: seq<Item>, i: int)
    requires 0 <= i < |delayed| + |overflow|
    ensures |Joined(now, delayed, overflow)| == |delayed| + |overflow|
    ensures Joined(now, delayed, overflow)[i] ==
      if i < |delayed| then Item(delayed[i].value + Epoch(now) * M, delayed[i].owner)
      else Item(overflow[i - |delayed|].value + (Epoch(now) + 1) * M, overflow[i - |delayed|].owner)
  {
  }

  lemma JoinedEmpty(last: int, current: seq<Item>, overflow: seq<Item>)
    ensures Joined(last, current, overflow) == [] <==> current == [] && overflow == []
    ensures current + overflow == [] <==> current == [] && overflow == []
  {
  }

  lemma LiftInsertAt(xs: seq<Item>, base: int, p: int, x: Item)
    requires 0 <= p <= |xs|
    ensures Lift(InsertAt(xs, p, x), base) == InsertAt(Lift(xs, base), p, Item(x.value + base, x.owner))
  {
  }

  lemma LiftRemoveAt(xs: seq<Item>, base: int, p: int)
    requires 0 <= p < |xs|
    ensures Lift(RemoveAt(xs, p), base) == RemoveAt(Lift(xs, base), p)
  {
  }

  lemma InsertConcat(a: seq<Item>, b: seq<Item>, p: int, x: Item)
    ensures 0 <= p <= |a| ==> InsertAt(a, p, x) + b == InsertAt(a + b, p, x)
    ensures 0 <= p <= |b| ==> a + InsertAt(b, p, x) == InsertAt(a + b, |a| + p, x)
  {
  }

  lemma RemoveConcat(a: seq<Item>, b: seq<Item>, p: int)
    ensures 0 <= p < |a| ==> RemoveAt(a, p) + b == RemoveAt(a + b, p)
    ensures 0 <= p < |b| ==> a + RemoveAt(b, p) == RemoveAt(a + b, |a| + p)
  {
  }

  /** A sorted queue is two sorted lists. */
  lemma JoinedSorted(now: int, delayed: seq<Item>, overflow: seq<Item>)
    requires Sorted(Joined(now, delayed, overflow))
    ensures Sorted(delayed) && Sorted(overflow)
  {
    hide Joined, Epoch;
    var n := |delayed|;
    forall i, j | 0 <= i < j < |delayed|
      ensures delayed[i].value <= delayed[j].value
    {
      JoinedAt(now, delayed, overflow, i);
      JoinedAt(now, delayed, overflow, j);
    }
    forall i, j | 0 <= i < j < |overflow|
      ensures overflow[i].value <= overflow[j].value
    {
      JoinedAt(now, delayed, overflow, n + i);
      JoinedAt(now, delayed, overflow, n + j);
    }
  }

  /** Where a wake time of this epoch belongs in the queue ... */
  lemma PosThisEpoch(now: int, delayed: seq<Item>, overflow: seq<Item>, v: int)
    requires Sorted(Joined(now, delayed, overflow)) && Wrapped(overflow) && v < M
    ensures Pos(Joined(now, delayed, overflow), v + Epoch(now) * M) == Pos(delayed, v)
  {
    var q, p := Joined(now, delayed, overflow), Pos(delayed, v);
    if p > 0 {
      JoinedAt(now, delayed, overflow, p - 1);
    }
    if p < |q| {
      JoinedAt(now, delayed, overflow, p);
    }
    PosUnique(q, v + Epoch(now) * M, p);
  }

  /** ... and one of the next epoch. */
  lemma PosNextEpoch(now: int, delayed: seq<Item>, overflow: seq<Item>, v: int)
    requires Sorted(Joined(now, delayed, overflow)) && Wrapped(delayed) && 0 <= v
    ensures Pos(Joined(now, delayed, overflow), v + (Epoch(now) + 1) * M) == |delayed| + Pos(overflow, v)
  {
    var q, p := Joined(now, delayed, overflow), |delayed| + Pos(overflow, v);
    if p > 0 {
      JoinedAt(now, delayed, overflow, p - 1);
    }
    if p < |q| {
      JoinedAt(now, delayed, overflow, p);
    }
    PosUnique(q, v + (Epoch(now) + 1) * M, p);
  }

  /** A wake time of this epoch goes into the delayed list, one of the next into the overflow list. */
  lemma InsertJoined(now: int, delayed: seq<Item>, overflow: seq<Item>, x: Item)
    requires Sorted(Joined(now, delayed, overflow)) && Wrapped(delayed) && Wrapped(overflow) && 0 <= x.value < M
    ensures Joined(now, InsertSorted(delayed, x), overflow)
         == InsertSorted(Joined(now, delayed, overflow), Item(x.value + Epoch(now) * M, x.owner))
    ensures Joined(now, delayed, InsertSorted(overflow, x))
         == InsertSorted(Joined(now, delayed, overflow), Item(x.value + (Epoch(now) + 1) * M, x.owner))
  {
    hide Lift, InsertAt, RemoveAt, Sorted, Wrapped, Pos, Epoch;
    PosThisEpoch(now, delayed, overflow, x.value);
    PosNextEpoch(now, delayed, overflow, x.value);
    var a, b, e := Lift(delayed, Epoch(now) * M), Lift(overflow, (Epoch(now) + 1) * M), Epoch(now) * M;
    LiftInsertAt(delayed, e, Pos(delayed, x.value), x);
    LiftInsertAt(overflow, e + M, Pos(overflow, x.value), x);
    InsertConcat(a, b, Pos(delayed, x.value), Item(x.value + e, x.owner));
    InsertConcat(a, b, Pos(overflow, x.value), Item(x.value + e + M, x.owner));
  }

  lemma NextParts(now: int)
    ensures Wrap(now + 1) == Wrap(Wrap(now) + 1)
    ensures Wrap(now) == MAX_DELAY ==> Epoch(now + 1) == Epoch(now) + 1 && Wrap(now + 1) == 0
    ensures Wrap(now) != MAX_DELAY ==> Epoch(now + 1) == Epoch(now) && Wrap(now + 1) == Wrap(now) + 1
  {
  }

  /** One tick later the same lists stand for the same queue, with changed places at a wrap. */
  lemma JoinedNext(now: int, delayed: seq<Item>, overflow: seq<Item>)
    ensures Wrap(now) != MAX_DELAY ==> Joined(now + 1, delayed, overflow) == Joined(now, delayed, overflow)
    ensures Wrap(now) == MAX_DELAY && delayed == [] ==> Joined(now + 1, overflow, []) == Joined(now, delayed, overflow)
  {
  }

  lemma FindUnique(xs: seq<Item>, t: int, i: int)
    requires 0 <= i < |xs| && xs[i].owner == t && forall k :: 0 <= k < i ==> xs[k].owner != t
    ensures Find(xs, t) == i
  {
  }

  lemma FindNone(xs: seq<Item>, t: int)
    requires forall k :: 0 <= k < |xs| ==> xs[k].owner != t
    ensures Find(xs, t) == -1
  {
  }

  lemma FindJoined(now: int, delayed: seq<Item>, overflow: seq<Item>, t: int)
    ensures Find(Joined(now, delayed, overflow), t) ==
      if Find(delayed, t) >= 0 then Find(delayed, t) else if Find(overflow, t) >= 0 then |delayed| + Find(overflow, t)
        else -1
  {
    var q := Joined(now, delayed, overflow);
    forall i | 0 <= i < |q|
      ensures q[i].owner == if i < |delayed| then delayed[i].owner else overflow[i - |delayed|].owner
    {
      JoinedAt(now, delayed, overflow, i);
    }
    if Find(delayed, t) >= 0 {
      FindUnique(q, t, Find(delayed, t));
    } else if Find(overflow, t) >= 0 {
      FindUnique(q, t, |delayed| + Find(overflow, t));
    } else {
      FindNone(q, t);
    }
  }

  /** Taking a task off whichever of the two lists holds it takes it off the queue. */
  lemma JoinedWithout(now: int, delayed: seq<Item>, overflow: seq<Item>, t: int)
    ensures Find(delayed, t) >= 0
      ==> Without(Joined(now, delayed, overflow), t) == Joined(now, Without(delayed, t), overflow)
    ensures Find(delayed, t) < 0
      ==> Without(Joined(now, delayed, overflow), t) == Joined(now, delayed, Without(overflow, t))
  {
    hide Lift, RemoveAt, Find;
    FindJoined(now, delayed, overflow, t);
    var a, b, e := Lift(delayed, Epoch(now) * M), Lift(overflow, (Epoch(now) + 1) * M), Epoch(now) * M;
    var i, j := Find(delayed, t), Find(overflow, t);
    RemoveConcat(a, b, i);
    RemoveConcat(a, b, j);
    if i >= 0 {
      LiftRemoveAt(delayed, e, i);
    }
    if j >= 0 {
      LiftRemoveAt(overflow, e + M, j);
    }
  }

  /** A wrapped time of this epoch is reached exactly when the true one is. */
  lemma DueIff(now: int, v: int)
    ensures v + Epoch(now) * M <= now <==> v <= Wrap(now)
  {
  }

  lemma JoinedDrop(now: int, delayed: seq<Item>, overflow: seq<Item>, k: int)
    requires 0 <= k <= |delayed|
    ensures Joined(now, delayed[k..], overflow) == Joined(now, delayed, overflow)[k..]
  {
  }

  lemma InsertHead(xs: seq<Item>, x: Item)
    requires Wrapped(xs) && 0 <= x.value < M
    ensures InsertSorted(xs, x) != [] && Wrapped(InsertSorted(xs, x))
    ensures var h := InsertSorted(xs, x)[0]; h == x || (xs != [] && h == xs[0] && h.value <= x.value)
  {
  }

  lemma WithoutHead(xs: seq<Item>, t: int)
    requires Wrapped(xs)
    ensures Wrapped(Without(xs, t))
    ensures Sorted(xs) && Without(xs, t) != [] ==> xs != [] && xs[0].value <= Without(xs, t)[0].value
  {
  }

  /** Which of the two lists gives the task up, and what that means for the queue and the next wake time. */
  lemma UnlistLists(now: int, delayed: seq<Item>, overflow: seq<Item>, t: int)
    requires Sorted(Joined(now, delayed, overflow)) && Wrapped(delayed) && Wrapped(overflow)
    ensures var q, d, o := Joined(now, delayed, overflow), Without(delayed, t), Without(overflow, t);
            && Wrapped(d) && Wrapped(o) && (d != [] ==> delayed != [] && delayed[0].value <= d[0].value)
            && (if Find(delayed, t) >= 0 then Find(q, t) >= 0 && Without(q, t) == Joined(now, d, overflow)
                else if Find(overflow, t) >= 0 then Find(q, t) >= 0 && Without(q, t) == Joined(now, delayed, o)
                else Find(q, t) < 0 && Without(q, t) == q)
  {
    hide Find, Without, Joined, Wrapped, Sorted;
    JoinedSorted(now, delayed, overflow);
    JoinedWithout(now, delayed, overflow, t);
    FindJoined(now, delayed, overflow, t);
    WithoutHead(delayed, t);
    WithoutHead(overflow, t);
    WithoutNone(Joined(now, delayed, overflow), t);
  }

  lemma WithoutNone(xs: seq<Item>, t: int)
    ensures Find(xs, t) < 0 ==> Without(xs, t) == xs
  {
  }
}
