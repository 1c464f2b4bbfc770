/**
 The kernel's intrusive list: what it stands for (module ListSpec) and the circular,
 doubly linked implementation with an end marker and a moving index (module Lists).
 */
module ListSpec {

  /** A list item as its users see it: sort value and owner. */
  datatype Item = Item(value: int, owner: int)

  /** Items from head to tail, and the index: 0 for the end marker, k for the k-th item. */
  datatype Ring = Ring(items: seq<Item>, index: nat) {
    ghost predicate Ok() { index <= |items| }

    /** The order in which successive picks will return the items. */
    function Upcoming(): seq<Item>
      requires Ok()
    {
      items[index..] + items[..index]
    }
  }

  const EMPTY := Ring([], 0)

  ghost predicate Sorted(s: seq<Item>) {
    forall i, j :: 0 <= i < j < |s| ==> s[i].value <= s[j].value
  }

  /** Number of leading items whose value is at most v. */
  function Pos(s: seq<Item>, v: int): (p: nat)
    ensures p <= |s|
    ensures forall i :: 0 <= i < p ==> s[i].value <= v
    ensures p < |s| ==> v < s[p].value
  {
    if s == [] || v < s[0].value then 0 else 1 + Pos(s[1..], v)
  }

  function InsertAt(s: seq<Item>, p: int, x: Item): seq<Item>
    requires 0 <= p <= |s|
  {
    s[..p] + [x] + s[p..]
  }

  function RemoveAt(s: seq<Item>, p: int): seq<Item>
    requires 0 <= p < |s|
  {
    s[..p] + s[p + 1..]
  }

  /** vListInsert: in value order, behind equal values. */
  function InsertSorted(s: seq<Item>, x: Item): seq<Item> {
    InsertAt(s, Pos(s, x.value), x)
  }

  /** Position of an owner's item in a list, -1 when it is not there. */
  function Find(xs: seq<Item>, t: int): (i: int)
    ensures -1 <= i < |xs|
    ensures i >= 0 ==> xs[i].owner == t
    ensures forall k :: 0 <= k < (if i < 0 then |xs| else i) ==> xs[k].owner != t
  {
    if xs == [] then -1
    else if xs[0].owner == t then 0
    else var i := Find(xs[1..], t); if i < 0 then -1 else i + 1
  }

  function Without(xs: seq<Item>, t: int): seq<Item> {
    var i := Find(xs, t);
    if i < 0 then xs else RemoveAt(xs, i)
  }

  /** No owner has two items. */
  ghost predicate Distinct(xs: seq<Item>) {
    forall i, j :: 0 <= i < j < |xs| ==> xs[i].owner != xs[j].owner
  }

  lemma HeadWithout(q: seq<Item>)
    requires q != []
    ensures Find(q, q[0].owner) == 0 && Without(q, q[0].owner) == q[1..]
  {
  }

  lemma WithoutKeepsSorted(xs: seq<Item>, t: int)
    ensures Sorted(xs) ==> Sorted(Without(xs, t))
  {
  }

  /** A list without an owner's only item: the other items, as distinct as before. */
  lemma WithoutKeepsDistinct(xs: seq<Item>, t: int)
    requires Distinct(xs)
    ensures Distinct(Without(xs, t))
    ensures forall k :: 0 <= k < |Without(xs, t)| ==> Without(xs, t)[k] in xs && Without(xs, t)[k].owner != t
  {
    var r, p := Without(xs, t), Find(xs, t);
    if p >= 0 {
      hide Find;
      forall k | 0 <= k < |r|
        ensures r[k] == xs[Skip(k, p)]
      {
      }
    }
  }

  lemma WithoutKeeps(xs: seq<Item>, t: int, e: Item)
    requires e.owner != t
    ensures e in Without(xs, t) <==> e in xs
  {
  }

  /** Exactly the owner's items are gone. */
  lemma WithoutIs(xs: seq<Item>, t: int, e: Item)
    requires Distinct(xs)
    ensures e in Without(xs, t) <==> e in xs && e.owner != t
  {
    hide Distinct, Without;
    WithoutKeepsDistinct(xs, t);
    if e.owner != t {
      WithoutKeeps(xs, t, e);
    }
  }

  /** Where item k of a list without item p was before. */
  function Skip(k: int, p: int): int { if k < p then k else k + 1 }

  lemma InsertKeepsSorted(s: seq<Item>, x: Item)
    requires Sorted(s)
    ensures Sorted(InsertSorted(s, x))
  {
  }

  lemma InsertMembers(s: seq<Item>, x: Item, e: Item)
    ensures e in InsertSorted(s, x) <==> e == x || e in s
  {
  }

  lemma InsertDistinct(s: seq<Item>, x: Item)
    requires Distinct(s) && forall i :: 0 <= i < |s| ==> s[i].owner != x.owner
    ensures Distinct(InsertSorted(s, x))
  {
  }

  /** In a sorted list the insertion point is determined by its two neighbours. */
  lemma PosUnique(s: seq<Item>, v: int, p: int)
    requires Sorted(s) && 0 <= p <= |s|
    requires p > 0 ==> s[p - 1].value <= v
    requires p < |s| ==> v < s[p].value
    ensures Pos(s, v) == p
  {
  }

  // ---------------------------------------------------------------- ring operations

  /** vListInsertEnd: just behind everything but the item the index is on. */
  function InsertEnd(r: Ring, x: Item): (r': Ring)
    requires r.Ok()
    ensures r'.Ok()
  {
    if r.index == 0 then Ring(r.items + [x], 0)
    else Ring(InsertAt(r.items, r.index - 1, x), r.index + 1)
  }

  /** uxListRemove: an index on the removed item steps back. */
  function Remove(r: Ring, p: int): (r': Ring)
    requires r.Ok() && 0 <= p < |r.items|
    ensures r'.Ok()
  {
    Ring(RemoveAt(r.items, p), if p < r.index then r.index - 1 else r.index)
  }

  /** listGET_OWNER_OF_NEXT_ENTRY: advance, skipping the end marker. */
  function Advance(r: Ring): (r': Ring)
    requires r.Ok() && r.items != []
    ensures r'.Ok() && r'.index > 0
  {
    Ring(r.items, if r.index == |r.items| then 1 else r.index + 1)
  }

  function Picked(r: Ring): Item
    requires r.Ok() && r.items != []
  {
    r.items[Advance(r).index - 1]
  }

  /** Owners returned by n successive picks. */
  function Picks(r: Ring, n: nat): seq<Item>
    requires r.Ok() && r.items != []
    decreases n
  {
    if n == 0 then [] else [Picked(r)] + Picks(Advance(r), n - 1)
  }

  /** A pick takes the first upcoming item and sends it to the back of the rotation. */
  lemma AdvanceRotates(r: Ring)
    requires r.Ok() && r.items != []
    ensures Picked(r) == r.Upcoming()[0]
    ensures Advance(r).Upcoming() == r.Upcoming()[1..] + [r.Upcoming()[0]]
  {
  }

  lemma {:induction false} PicksFollowRotation(r: Ring, n: nat)
    requires r.Ok() && r.items != [] && n <= |r.items|
    ensures Picks(r, n) == r.Upcoming()[..n]
    decreases n
  {
    if n > 0 {
      AdvanceRotates(r);
      PicksFollowRotation(Advance(r), n - 1);
    }
  }

  /** As many picks as there are items return every item exactly once. */
  lemma FullTurnVisitsEachOnce(r: Ring)
    requires r.Ok() && r.items != []
    ensures Picks(r, |r.items|) == r.Upcoming()
    ensures multiset(Picks(r, |r.items|)) == multiset(r.items)
  {
    hide Picks;
    PicksFollowRotation(r, |r.items|);
    SwapParts(r.items, r.index);
  }

  lemma SwapParts(s: seq<Item>, k: nat)
    requires k <= |s|
    ensures multiset(s[k..] + s[..k]) == multiset(s)
  {
    assert s == s[..k] + s[k..];
  }

  /** A newcomer is picked after every item except the one just picked, which ends its turn there. */
  lemma NewcomerIsLast(r: Ring, x: Item)
    requires r.Ok()
    ensures var u := r.Upcoming();
            InsertEnd(r, x).Upcoming() == if r.index == 0 then u + [x] else u[..|u| - 1] + [x] + [u[|u| - 1]]
  {
  }

  /** Removal leaves the order of everybody else's turns alone. */
  lemma RemoveKeepsOrder(r: Ring, p: int)
    requires r.Ok() && 0 <= p < |r.items|
    ensures var u, q := r.Upcoming(), if p < r.index then p + |r.items| - r.index else p - r.index;
            0 <= q < |u| && u[q] == r.items[p] && Remove(r, p).Upcoming() == RemoveAt(u, q)
  {
    var a, b := r.items[r.index..], r.items[..r.index];
    var c := Remove(r, p);
    if p < r.index {
      assert c.items[c.index..] == a && c.items[..c.index] == RemoveAt(b, p);
    } else {
      assert c.items[c.index..] == RemoveAt(a, p - r.index) && c.items[..c.index] == b;
    }
  }
}

module Lists {
  import opened ListSpec
  import opened Ticks

  lemma InsertAtEnd(s: seq<Item>, x: Item)
    ensures InsertAt(s, |s|, x) == s + [x]
  {
  }

  class ListItem {
    var value: int
    var next: ListItem?
    var previous: ListItem?
    var container: List?
    const owner: int

    constructor (owner: int, value: int)
      ensures container == null && this.owner == owner && this.value == value
    {
      this.owner := owner;
      this.value := value;
      next, previous, container := null, null, null;
    }
  }

  class List {
    const end: ListItem
    var index: ListItem
    var count: nat
    ghost var items: seq<ListItem>
    ghost var entries: seq<Item>
    ghost var at: nat  // position of the index in the cycle

    /** The cycle, starting at the end marker. */
    ghost function Nodes(): seq<ListItem>
      reads this
    {
      [end] + items
    }

    ghost function Repr(): set<object>
      reads this
    {
      {this, end} + SetOf(items)
    }

    ghost predicate Valid()
      reads this, end, items
    {
      Shape(this, end, items, entries, at, count, index)
    }

    /** The end marker and the items form the cycle of list l, the index at a position of it. */
    static ghost predicate Shape(l: List, e: ListItem, xs: seq<ListItem>, es: seq<Item>, at: nat, count: nat,
                                 index: ListItem)
      reads e, xs
    {
      && count == |xs| && at <= |xs| && index == ([e] + xs)[at]
      && e.value == MAX_DELAY && e.container == null
      && Cycle([e] + xs)
      && Members(xs, es, l)
    }

    /** The shape without item p, once it has been bypassed. */
    static lemma ShapeWithout(l: List, e: ListItem, xs: seq<ListItem>, es: seq<Item>, at: nat, index: ListItem, p: nat)
      requires |es| == |xs| && p < |xs| && at <= |xs| && CycleWithout([e] + xs, p + 1)
      requires forall i :: 0 <= i < |xs| && i != p ==> Member(xs[i], es[i], l)
      requires e.value == MAX_DELAY && e.container == null && index == ([e] + xs)[if at == p + 1 then p else at]
      ensures Shape(l, e, xs[..p] + xs[p + 1..], RemoveAt(es, p), if p < at then at - 1 else at, |xs| - 1, index)
    {
      hide Cycle, CycleWithout, Members, RemoveAt;
      Bypassed([e] + xs, p + 1);
      MembersRemove(xs, es, l, p);
      NodesRemove(e, xs, p, at);
    }

    /** The shape with x, once it has been linked in behind node p. */
    static lemma ShapeWith(l: List, e: ListItem, xs: seq<ListItem>, es: seq<Item>, at: nat, index: ListItem, p: nat,
                           x: ListItem)
      requires p <= |xs| && at <= |xs| && CycleWith([e] + xs, p, x) && Members(xs, es, l)
      requires x.container == l && 0 <= x.value <= MAX_DELAY
      requires e.value == MAX_DELAY && e.container == null && index == ([e] + xs)[at]
      ensures |es| == |xs|
      ensures Shape(l, e, xs[..p] + [x] + xs[p..], InsertAt(es, p, Item(x.value, x.owner)),
                    if p < at then at + 1 else at, |xs| + 1, index)
    {
      hide Cycle, CycleWith, InsertAt;
      Spliced([e] + xs, p, x);
      MembersInsert(xs, es, l, p, x);
      NodesInsert(e, xs, p, x, at);
    }

    /** An item knows its list, and its value and owner are those of its entry. */
    static ghost predicate Member(x: ListItem, e: Item, l: List)
      reads x
    {
      x.container == l && e == Item(x.value, x.owner) && 0 <= x.value <= MAX_DELAY
    }

    static ghost predicate Members(xs: seq<ListItem>, es: seq<Item>, l: List)
      reads xs
    {
      && |es| == |xs|
      && (forall i :: 0 <= i < |xs| ==> Member(xs[i], es[i], l))
    }

    static lemma MembersInsert(xs: seq<ListItem>, es: seq<Item>, l: List, p: int, x: ListItem)
      requires Members(xs, es, l) && 0 <= p <= |xs| && x.container == l && 0 <= x.value <= MAX_DELAY
      ensures Members(xs[..p] + [x] + xs[p..], InsertAt(es, p, Item(x.value, x.owner)), l)
    {
    }

    static lemma MembersRemove(xs: seq<ListItem>, es: seq<Item>, l: List, p: int)
      requires |es| == |xs| && 0 <= p < |xs| && forall i :: 0 <= i < |xs| && i != p ==> Member(xs[i], es[i], l)
      ensures Members(xs[..p] + xs[p + 1..], RemoveAt(es, p), l)
    {
    }

    static lemma NodesRemove(e: ListItem, xs: seq<ListItem>, p: int, k: int)
      requires 0 <= p < |xs| && 0 <= k <= |xs|
      ensures ([e] + (xs[..p] + xs[p + 1..]))[if p < k then k - 1 else k] == ([e] + xs)[if k == p + 1 then p else k]
      ensures [e] + (xs[..p] + xs[p + 1..]) == ([e] + xs)[..p + 1] + ([e] + xs)[p + 2..]
    {
    }

    static lemma SetRemove(e: ListItem, xs: seq<ListItem>, p: int)
      requires 0 <= p < |xs| && Distinct([e] + xs)
      ensures SetOf(xs[..p] + xs[p + 1..]) == SetOf(xs) - {xs[p]} && xs[p] != e
    {
      var n := [e] + xs;
      assert n[0] == e && forall i :: 0 <= i < |xs| ==> xs[i] == n[i + 1];
      assert xs == xs[..p] + [xs[p]] + xs[p + 1..];
    }

    static ghost predicate Distinct(n: seq<ListItem>) {
      forall i, j :: 0 <= i < j < |n| ==> n[i] != n[j]
    }

    static predicate Linked(x: ListItem, y: ListItem)
      reads x, y
    {
      x.next == y && y.previous == x
    }

    static ghost function SetOf(xs: seq<ListItem>): set<ListItem> {
      set x | x in xs
    }

    static lemma NodesInsert(e: ListItem, xs: seq<ListItem>, p: int, x: ListItem, k: int)
      requires 0 <= p <= |xs| && 0 <= k <= |xs|
      ensures ([e] + (xs[..p] + [x] + xs[p..]))[if p < k then k + 1 else k] == ([e] + xs)[k]
      ensures [e] + (xs[..p] + [x] + xs[p..]) == ([e] + xs)[..p + 1] + [x] + ([e] + xs)[p + 1..]
    {
    }

    static lemma SetInsert(xs: seq<ListItem>, p: int, x: ListItem)
      requires 0 <= p <= |xs|
      ensures SetOf(xs[..p] + [x] + xs[p..]) == SetOf(xs) + {x}
    {
      assert xs == xs[..p] + xs[p..];
    }

    /** Distinct nodes, each linked to the next one and the last to the first, both ways. */
    static ghost predicate Cycle(n: seq<ListItem>)
      reads n
    {
      && n != [] && Distinct(n)
      && (forall i, j :: 0 <= i && j == i + 1 && j < |n| ==> Linked(n[i], n[j]))
      && Linked(n[|n| - 1], n[0])
    }

    /** As Cycle, but x has been linked in behind node k. */
    static ghost predicate CycleWith(n: seq<ListItem>, k: int, x: ListItem)
      reads n, x
    {
      && 0 <= k < |n| && x !in n && Distinct(n)
      && (forall i, j :: 0 <= i && j == i + 1 && j < |n| && i != k ==> Linked(n[i], n[j]))
      && (k != |n| - 1 ==> Linked(n[|n| - 1], n[0]))
      && Linked(n[k], x) && Linked(x, n[if k == |n| - 1 then 0 else k + 1])
    }

    static lemma Spliced(n: seq<ListItem>, k: int, x: ListItem)
      requires CycleWith(n, k, x)
      ensures Cycle(n[..k + 1] + [x] + n[k + 1..])
    {
      var m := n[..k + 1] + [x] + n[k + 1..];
      assert |m| == |n| + 1;
      assert forall i :: 0 <= i < |m| ==> m[i] == if i <= k then n[i] else if i == k + 1 then x else n[i - 1];
    }

    /** As Cycle, but node k > 0 has been bypassed. */
    static ghost predicate CycleWithout(n: seq<ListItem>, k: int)
      reads n
    {
      && 0 < k < |n| && Distinct(n)
      && (forall i, j :: 0 <= i && j == i + 1 && j < |n| && i != k && j != k ==> Linked(n[i], n[j]))
      && (k != |n| - 1 ==> Linked(n[|n| - 1], n[0]))
      && Linked(n[k - 1], n[if k == |n| - 1 then 0 else k + 1])
    }

    static lemma Bypassed(n: seq<ListItem>, k: int)
      requires CycleWithout(n, k)
      ensures Cycle(n[..k] + n[k + 1..])
    {
      var m := n[..k] + n[k + 1..];
      assert |m| == |n| - 1;
      assert forall i :: 0 <= i < |m| ==> m[i] == if i < k then n[i] else n[i + 1];
    }

    /** What the list stands for. */
    ghost function View(): (r: Ring)
      requires Valid()
      reads this, end, items
      ensures r.Ok()
    {
      Ring(entries, at)
    }

    /** vListInitialise */
    constructor ()
      ensures Valid() && fresh(Repr()) && View() == EMPTY
    {
      end := new ListItem(0, MAX_DELAY);
      count := 0;
      items := [];
      entries := [];
      index := end;
      at := 0;
      new;
      end.next, end.previous := end, end;
    }

    /** Neighbours of the k-th node of the cycle. */
    ghost function After(k: int): int
      reads this
    {
      if k == |items| then 0 else k + 1
    }

    ghost function Before(k: int): int
      reads this
    {
      if k == 0 then |items| else k - 1
    }

    lemma Neighbours(k: int)
      requires Valid() && 0 <= k <= |items|
      ensures 0 <= Before(k) <= |items| && 0 <= After(k) <= |items|
      ensures var n := Nodes(); n[k].next == n[After(k)] && n[k].previous == n[Before(k)]
      ensures Before(After(k)) == k == After(Before(k))
    {
      var n := Nodes();
      if k > 0 {
        assert Linked(n[k - 1], n[k]);
      }
      if k < |items| {
        assert Linked(n[k], n[k + 1]);
      }
    }

    /** An item that is on no list is not on this one. */
    lemma NotListed(x: ListItem)
      requires Valid() && x.container != this && x != end
      ensures x !in Nodes()
    {
    }

    /** The four pointer writes that put x behind node. */
    method WriteLinks(x: ListItem, node: ListItem, ghost p: int)
      requires Valid() && x.container == null && x != end && 0 <= p <= |items| && Nodes()[p] == node
      modifies x, Nodes()
      ensures CycleWith(Nodes(), p, x) && Members(items, entries, this)
      ensures end.value == old(end.value) && end.container == null
      ensures x.value == old(x.value) && x.container == this
    {
      NotListed(x);
      Neighbours(p);
      x.next := node.next;
      x.next.previous := x;
      x.previous := node;
      node.next := x;
      x.container := this;
    }

    method LinkBehind(x: ListItem, node: ListItem, ghost p: int)
      requires Valid() && x.container == null && x != end && 0 <= x.value <= MAX_DELAY
      requires 0 <= p <= |items| && Nodes()[p] == node
      modifies this, x, Nodes()
      ensures Valid() && x.value == old(x.value)
      ensures items == old(items)[..p] + [x] + old(items)[p..] && Repr() == old(Repr()) + {x}
      ensures entries == InsertAt(old(entries), p, Item(x.value, x.owner))
      ensures at == (if p < old(at) then old(at) + 1 else old(at))
    {
      hide Shape, Cycle, CycleWith, Distinct, Members, SetOf, InsertAt;
      ShapeParts();
      WriteLinks(x, node, p);
      ShapeWith(this, end, items, entries, at, index, p, x);
      SetInsert(items, p, x);
      count := count + 1;
      Become(items[..p] + [x] + items[p..], InsertAt(entries, p, Item(x.value, x.owner)),
        if p < at then at + 1 else at);
    }

    /** What the list stands for is brought up to date. */
    ghost method Become(xs: seq<ListItem>, es: seq<Item>, k: nat)
      requires Shape(this, end, xs, es, k, count, index)
      modifies this`items, this`entries, this`at
      ensures Valid() && items == xs && entries == es && at == k
    {
      hide Shape;
      items, entries, at := xs, es, k;
    }

    lemma ShapeParts()
      requires Valid()
      ensures count == |items| == |entries| && at <= |items| && index == Nodes()[at] && Distinct(Nodes())
      ensures end.value == MAX_DELAY && end.container == null
    {
    }

    /** vListInsertEnd */
    method InsertEnd(x: ListItem)
      requires Valid() && x.container == null && x != end && 0 <= x.value <= MAX_DELAY
      modifies this, x, Nodes()
      ensures Valid() && Repr() == old(Repr()) + {x} && x.value == old(x.value)
      ensures View() == ListSpec.InsertEnd(old(View()), Item(x.value, x.owner))
    {
      Neighbours(at);
      LinkBehind(x, index.previous, Before(at));
      InsertAtEnd(old(entries), Item(x.value, x.owner));
    }

    /** The node to insert x behind, and its position in the cycle. */
    method Search(x: ListItem) returns (node: ListItem, ghost p: int)
      requires Valid() && 0 <= x.value <= MAX_DELAY
      ensures 0 <= p <= |items| == |entries| && node == Nodes()[p]
      ensures p > 0 ==> entries[p - 1].value <= x.value
      ensures p < |items| ==> x.value < entries[p].value
    {
      p := 0;
      node := end;
      Neighbours(0);
      if x.value == MAX_DELAY {
        node := end.previous;
        p := |items|;
      } else {
        while node.next.value <= x.value
          invariant 0 <= p <= |items| == |entries| && node == Nodes()[p] && node.next == Nodes()[After(p)]
          invariant p > 0 ==> entries[p - 1].value <= x.value
          decreases |items| - p
        {
          assert p < |items| && node.next == items[p];
          node := node.next;
          p := p + 1;
          Neighbours(p);
        }
      }
    }

    /** vListInsert */
    method Insert(x: ListItem)
      requires Valid() && x.container == null && x != end && 0 <= x.value <= MAX_DELAY
      requires Sorted(View().items)
      modifies this, x, Nodes()
      ensures Valid() && Repr() == old(Repr()) + {x} && x.value == old(x.value)
      ensures View().items == InsertSorted(old(View()).items, Item(x.value, x.owner)) && Sorted(View().items)
      ensures View().index == old(View()).index + (if Pos(old(View()).items, x.value) < old(View()).index then 1 else 0)
    {
      var node, p := Search(x);
      PosUnique(entries, x.value, p);
      InsertKeepsSorted(entries, Item(x.value, x.owner));
      LinkBehind(x, node, p);
    }

    /** The writes of uxListRemove, for the p-th item. */
    method Bypass(x: ListItem, ghost p: int)
      requires Valid() && 0 <= p < |items| && items[p] == x
      modifies this`index, Nodes()
      ensures CycleWithout(Nodes(), p + 1) && end.value == old(end.value) && end.container == null
      ensures x.container == null
      ensures |entries| == |items| && index == Nodes()[if at == p + 1 then p else at]
      ensures forall i :: 0 <= i < |items| && i != p ==>
        items[i].container == old(items[i].container) && items[i].value == old(items[i].value)
    {
      hide Members;
      ShapeParts();
      Neighbours(p + 1);
      OtherItems(p);
      x.next.previous := x.previous;
      x.previous.next := x.next;
      if index == x {
        index := x.previous;
      }
      x.container := null;
    }

    /** uxListRemove */
    method Remove(x: ListItem, ghost p: int) returns (left: nat)
      requires Valid() && 0 <= p < |items| && items[p] == x
      modifies this, Nodes()
      ensures Valid() && Repr() == old(Repr()) - {x} && x.container == null
      ensures View() == ListSpec.Remove(old(View()), p) && left == |View().items|
    {
      hide Shape, Cycle, CycleWithout, Distinct, Members, SetOf;
      ShapeParts();
      ItemsAre();
      Bypass(x, p);
      ShapeWithout(this, end, items, entries, at, index, p);
      SetRemove(end, items, p);
      count := count - 1;
      Become(items[..p] + items[p + 1..], RemoveAt(entries, p), if p < at then at - 1 else at);
      return count;
    }

    lemma ItemsAre()
      requires Valid()
      ensures |items| == |entries| && forall i :: 0 <= i < |items| ==> Member(items[i], entries[i], this)
    {
    }

    lemma OtherItems(p: int)
      requires Valid() && 0 <= p < |items|
      ensures forall i :: 0 <= i < |items| && i != p ==> items[i] != items[p]
      ensures forall i :: 0 <= i < |items| ==> items[i] != end
    {
      var n := Nodes();
      assert forall i :: 0 <= i < |items| ==> items[i] == n[i + 1];
    }

    /** listGET_OWNER_OF_NEXT_ENTRY */
    method NextOwner() returns (owner: int)
      requires Valid() && items != []
      modifies this
      ensures Valid() && Repr() == old(Repr())
      ensures View() == Advance(old(View())) && owner == Picked(old(View())).owner
    {
      Neighbours(at);
      index := index.next;
      at := After(at);
      if index == end {
        Neighbours(0);
        index := index.next;
        at := 1;
      }
      owner := index.owner;
    }
  }
}
