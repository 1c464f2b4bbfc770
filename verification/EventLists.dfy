/** The lists on which tasks wait for an event, each in priority order, the most urgent task at its head. */
module EventLists {
  import opened ListSpec
  import opened KernelSpec

  /** The tasks on a list. */
  function Who(xs: seq<Item>): set<int> {
    set i | 0 <= i < |xs| :: xs[i].owner
  }

  /** The tasks on any of the event lists. */
  function Waiting(ls: seq<seq<Item>>): set<int> {
    set l, t | 0 <= l < |ls| && t in Who(ls[l]) :: t
  }

  /** Tasks on an event list are in priority order. */
  ghost predicate Urgency(xs: seq<Item>, limit: int, prio: map<int, nat>) {
    && Sorted(xs) && Distinct(xs)
    && forall i :: 0 <= i < |xs| ==> xs[i].value == limit - PrioOf(prio, xs[i].owner)
  }

  /** So is every event list, and no task is on two of them. */
  ghost predicate EventsOk(ls: seq<seq<Item>>, limit: int, prio: map<int, nat>) {
    && (forall l :: 0 <= l < |ls| ==> Urgency(ls[l], limit, prio))
    && (forall l, m :: 0 <= l < m < |ls| ==> Who(ls[l]) !! Who(ls[m]))
  }

  /** A task's event list item is taken off the list that holds it, if one does. */
  function OffEvents(ls: seq<seq<Item>>, t: int): (r: seq<seq<Item>>)
    ensures |r| == |ls| && forall l :: 0 <= l < |ls| ==> r[l] == Without(ls[l], t)
  {
    seq(|ls|, l requires 0 <= l < |ls| => Without(ls[l], t))
  }

  /** Where the items of a list without t come from. */
  lemma WithoutAt(xs: seq<Item>, t: int)
    requires Find(xs, t) >= 0
    ensures var r, p := Without(xs, t), Find(xs, t);
            |r| == |xs| - 1 && forall i :: 0 <= i < |r| ==> r[i] == xs[Skip(i, p)]
  {
    hide Find;
  }

  lemma WithoutWho(xs: seq<Item>, t: int)
    requires Distinct(xs)
    ensures Who(Without(xs, t)) == Who(xs) - {t}
  {
    hide Without, Distinct;
    var r, p := Without(xs, t), Find(xs, t);
    WithoutKeepsDistinct(xs, t);
    if p >= 0 {
      WithoutAt(xs, t);
      forall i | 0 <= i < |xs| && i != p
        ensures xs[i].owner in Who(r)
      {
        assert r[if i < p then i else i - 1] == xs[i];
      }
    } else {
      NotFound(xs, t);
    }
  }

  lemma NotFound(xs: seq<Item>, t: int)
    requires Find(xs, t) < 0
    ensures Without(xs, t) == xs
  {
  }

  lemma WithoutUrgent(xs: seq<Item>, t: int, limit: int, prio: map<int, nat>)
    requires Urgency(xs, limit, prio)
    ensures Urgency(Without(xs, t), limit, prio) && Who(Without(xs, t)) == Who(xs) - {t}
  {
    hide PrioOf, Without, Distinct, Sorted, Find, Who;
    WithoutWho(xs, t);
    WithoutKeepsSorted(xs, t);
    WithoutKeepsDistinct(xs, t);
    if Find(xs, t) >= 0 {
      WithoutAt(xs, t);
    } else {
      NotFound(xs, t);
    }
  }

  /** Where the items of a list with x put in come from. */
  lemma InsertedAt(xs: seq<Item>, x: Item, i: nat)
    requires i <= |xs|
    ensures |InsertSorted(xs, x)| == |xs| + 1
    ensures var p := Pos(xs, x.value);
      InsertSorted(xs, x)[i] == if i < p then xs[i] else if i == p then x else xs[i - 1]
  {
  }

  lemma InsertWho(xs: seq<Item>, x: Item)
    ensures Who(InsertSorted(xs, x)) == Who(xs) + {x.owner}
    ensures Distinct(xs) && x.owner !in Who(xs) ==> Distinct(InsertSorted(xs, x))
  {
    hide InsertSorted;
    var r, p := InsertSorted(xs, x), Pos(xs, x.value);
    InsertedAt(xs, x, p);
    forall i | 0 <= i < |xs|
      ensures xs[i].owner in Who(r) && xs[i].owner in Who(xs)
    {
      InsertedAt(xs, x, if i < p then i else i + 1);
    }
    forall i | 0 <= i < |r|
      ensures r[i].owner in Who(xs) + {x.owner}
    {
      InsertedAt(xs, x, i);
    }
    if Distinct(xs) && x.owner !in Who(xs) {
      forall i, j | 0 <= i < j < |r|
        ensures r[i].owner != r[j].owner
      {
        InsertedAt(xs, x, i);
        InsertedAt(xs, x, j);
      }
    }
  }

  lemma InsertUrgent(xs: seq<Item>, t: int, limit: int, prio: map<int, nat>)
    requires Urgency(xs, limit, prio) && t !in Who(xs)
    ensures var r := InsertSorted(xs, Item(limit - PrioOf(prio, t), t));
      Urgency(r, limit, prio) && Who(r) == Who(xs) + {t}
  {
    hide PrioOf, InsertSorted, Distinct, Who;
    var x := Item(limit - PrioOf(prio, t), t);
    InsertKeepsSorted(xs, x);
    InsertWho(xs, x);
    InsertedAt(xs, x, 0);
    forall i | 0 <= i < |InsertSorted(xs, x)|
      ensures var y := InsertSorted(xs, x)[i]; y.value == limit - PrioOf(prio, y.owner)
    {
      InsertedAt(xs, x, i);
    }
  }

  lemma OffEventsOk(ls: seq<seq<Item>>, t: int, limit: int, prio: map<int, nat>)
    requires EventsOk(ls, limit, prio)
    ensures EventsOk(OffEvents(ls, t), limit, prio) && Waiting(OffEvents(ls, t)) == Waiting(ls) - {t}
  {
    hide Without, Urgency, Who;
    forall l | 0 <= l < |ls|
      ensures Urgency(Without(ls[l], t), limit, prio) && Who(Without(ls[l], t)) == Who(ls[l]) - {t}
    {
      WithoutUrgent(ls[l], t, limit, prio);
    }
    var r := OffEvents(ls, t);
    forall u
      ensures u in Waiting(r) <==> u in Waiting(ls) && u != t
    {
      if u in Waiting(ls) && u != t {
        var l :| 0 <= l < |ls| && u in Who(ls[l]);
        assert u in Who(r[l]);
      }
      if u in Waiting(r) {
        var l :| 0 <= l < |r| && u in Who(r[l]);
        assert u in Who(ls[l]);
      }
    }
  }

  /** Filing a task that is on no event list. */
  lemma PlacedEvents(ls: seq<seq<Item>>, l: nat, t: int, limit: int, prio: map<int, nat>)
    requires EventsOk(ls, limit, prio) && l < |ls| && t !in Waiting(ls)
    ensures var r := ls[l := InsertSorted(ls[l], Item(limit - PrioOf(prio, t), t))];
            EventsOk(r, limit, prio) && Waiting(r) == Waiting(ls) + {t}
  {
    hide InsertSorted, Urgency, Who, PrioOf;
    InsertUrgent(ls[l], t, limit, prio);
    var r := ls[l := InsertSorted(ls[l], Item(limit - PrioOf(prio, t), t))];
    forall m | 0 <= m < |ls|
      ensures Who(r[m]) == if m == l then Who(ls[m]) + {t} else Who(ls[m])
      ensures t !in Who(ls[m])
    {
    }
  }

  /** The head of an event list is its most urgent task; taking it off touches nothing else. */
  lemma HeadEvent(ls: seq<seq<Item>>, l: nat, limit: int, prio: map<int, nat>)
    requires EventsOk(ls, limit, prio) && l < |ls| && ls[l] != []
    ensures var t := ls[l][0].owner;
            && ls[l := ls[l][1..]] == OffEvents(ls, t) && t in Waiting(ls)
            && forall x :: x in ls[l] ==> PrioOf(prio, x.owner) <= PrioOf(prio, t)
  {
    hide PrioOf, Without, Find;
    var t := ls[l][0].owner;
    assert t in Who(ls[l]);
    HeadWithout(ls[l]);
    forall m | 0 <= m < |ls| && m != l
      ensures Without(ls[m], t) == ls[m]
    {
      assert t !in Who(ls[m]);
      NotWho(ls[m], t);
    }
  }

  lemma NotWho(xs: seq<Item>, t: int)
    requires t !in Who(xs)
    ensures Without(xs, t) == xs
  {
  }
}
