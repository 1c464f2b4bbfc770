/**
 Event groups: who waits for which bits, who is released with which value, and what is left of the
 bits. Proved over all runs: no listed waiter's condition is met, released tasks see the bits that
 released them, and a rendezvous is all or none.
 */
module EventSpec {
  const CLEAR_ON_EXIT: bv32 := 0x0100_0000
  const UNBLOCKED: bv32 := 0x0200_0000
  const WAIT_FOR_ALL: bv32 := 0x0400_0000
  const CONTROL: bv32 := 0xff00_0000
  const IN_USE: bv32 := 0x8000_0000

  /** A listed task and the value of its event list item: the bits waited for, and control bits. */
  datatype Waiter = Waiter(task: int, value: bv32)

  /** A blocked or returning call. */
  datatype Call = Call(mask: bv32, clear: bool, all: bool)

  datatype State = State(
    bits: bv32,
    waiters: seq<Waiter>,
    calls: map<int, Call>,     // tasks between blocking and returning
    results: map<int, bv32>    // event item values of released tasks
  )

  /** Some bit in common; and all bits of a mask set. */
  predicate Has(a: bv32, b: bv32) { a & b != 0 }

  predicate Covers(bits: bv32, mask: bv32) { bits & mask == mask }

  /** prvTestWaitCondition */
  predicate Met(bits: bv32, mask: bv32, all: bool) {
    if all then Covers(bits, mask) else Has(bits, mask)
  }

  /** The item value vTaskPlaceOnUnorderedEventList stores for a call. */
  function ItemValue(c: Call): bv32 {
    c.mask | (if c.clear then CLEAR_ON_EXIT else 0) | (if c.all then WAIT_FOR_ALL else 0) | IN_USE
  }

  function Mask(value: bv32): bv32 { value & !CONTROL }

  /** The match found by the loop of xEventGroupSetBits. */
  predicate Matches(bits: bv32, value: bv32) {
    if !Has(value, WAIT_FOR_ALL) then Has(bits, Mask(value)) else Covers(bits, Mask(value))
  }

  function Clears(value: bv32): bv32 {
    if Has(value, CLEAR_ON_EXIT) then Mask(value) else 0
  }

  /** What a released task finds in its event list item. */
  function Result(bits: bv32): bv32 { Union(Union(bits, UNBLOCKED), IN_USE) }

  function Union(a: bv32, b: bv32): bv32 { a | b }


  lemma ItemValueParts(c: Call)
    requires c.mask & CONTROL == 0
    ensures Mask(ItemValue(c)) == c.mask
    ensures Has(ItemValue(c), WAIT_FOR_ALL) <==> c.all
    ensures Has(ItemValue(c), CLEAR_ON_EXIT) <==> c.clear
  {
  }

  /** An item value matches exactly when the call's condition is met. */
  lemma MatchesMet(bits: bv32, c: Call)
    requires c.mask & CONTROL == 0
    ensures Matches(bits, ItemValue(c)) <==> Met(bits, c.mask, c.all)
    ensures Clears(ItemValue(c)) == if c.clear then c.mask else 0
  {
    hide ItemValue, Mask, Has, Covers;
    ItemValueParts(c);
  }

  lemma AndShuffle(a: bv32, b: bv32, c: bv32)
    ensures (a & b) & c == (a & c) & b
  {
  }

  lemma AndTwice(a: bv32, b: bv32)
    ensures (a & b) & b == a & b && a & (a & b) == a & b
  {
  }

  lemma AndOrder(a: bv32, b: bv32)
    ensures a & b == b & a
  {
  }

  lemma AndNothing(a: bv32)
    ensures 0 & a == 0
  {
  }

  lemma AndUnion(a: bv32, b: bv32)
    ensures a & Union(a, b) == a && b & Union(a, b) == b
  {
  }

  lemma FewerHas(bits: bv32, keep: bv32, mask: bv32)
    ensures Has(bits & keep, mask) ==> Has(bits, mask)
  {
    AndShuffle(bits, keep, mask);
    AndNothing(keep);
  }

  lemma FewerCovers(bits: bv32, keep: bv32, mask: bv32)
    ensures Covers(bits & keep, mask) ==> Covers(bits, mask)
  {
    AndShuffle(bits, keep, mask);
    AndTwice(bits, mask);
    AndTwice(bits & mask, keep);
  }

  /** Fewer bits match less. */
  lemma FewerBits(bits: bv32, clear: bv32, value: bv32)
    ensures Matches(Less(bits, clear), value) ==> Matches(bits, value)
  {
    hide Has, Covers, Mask;
    FewerHas(bits, !clear, Mask(value));
    FewerCovers(bits, !clear, Mask(value));
  }

  /** bits with some cleared */
  function Less(bits: bv32, clear: bv32): bv32 { bits & !clear }

  // ---------------------------------------------------------------- set bits

  /** The waiters a bit pattern releases, and those it leaves, in list order. */
  function Released(ws: seq<Waiter>, bits: bv32): seq<Waiter> {
    if ws == [] then []
    else Released(ws[..|ws| - 1], bits) + if Matches(bits, ws[|ws| - 1].value) then [ws[|ws| - 1]] else []
  }

  function Left(ws: seq<Waiter>, bits: bv32): seq<Waiter> {
    if ws == [] then []
    else Left(ws[..|ws| - 1], bits) + if Matches(bits, ws[|ws| - 1].value) then [] else [ws[|ws| - 1]]
  }

  /** The union of the released waiters' clear-on-exit masks. */
  function Cleared(ws: seq<Waiter>, bits: bv32): bv32 {
    if ws == [] then 0
    else Union(Cleared(ws[..|ws| - 1], bits),
      if Matches(bits, ws[|ws| - 1].value) then Clears(ws[|ws| - 1].value) else 0)
  }


  function WithResults(results: map<int, bv32>, ws: seq<Waiter>, bits: bv32): map<int, bv32> {
    if ws == [] then results
    else
      var r := WithResults(results, ws[..|ws| - 1], bits);
      if Matches(bits, ws[|ws| - 1].value) then r[ws[|ws| - 1].task := Result(bits)] else r
  }

  /** xEventGroupSetBits */
  function SetBits(s: State, set_: bv32): State {
    var b := Union(s.bits, set_);
    s.(bits := Less(b, Cleared(s.waiters, b)), waiters := Left(s.waiters, b),
      results := WithResults(s.results, s.waiters, b))
  }

  lemma {:induction false} ReleasedExactly(ws: seq<Waiter>, bits: bv32, w: Waiter)
    ensures w in Released(ws, bits) <==> w in ws && Matches(bits, w.value)
    ensures w in Left(ws, bits) <==> w in ws && !Matches(bits, w.value)
  {
    hide Matches;
    if ws != [] {
      var n := |ws| - 1;
      ReleasedExactly(ws[..n], bits, w);
      assert ws == ws[..n] + [ws[n]];
    }
  }

  lemma UnionHasEach(a: bv32, b: bv32, bit: bv32)
    ensures Has(a, bit) ==> Has(Union(a, b), bit)
    ensures Has(b, bit) ==> Has(Union(a, b), bit)
  {
    hide Union;
    AndUnion(a, b);
    FewerHas(Union(a, b), a, bit);
    FewerHas(Union(a, b), b, bit);
    AndOrder(a, Union(a, b));
    AndOrder(b, Union(a, b));
  }

  lemma UnionHasOnly(a: bv32, b: bv32, bit: bv32)
    ensures Has(Union(a, b), bit) ==> Has(a, bit) || Has(b, bit)
  {
  }

  lemma UnionHas(a: bv32, b: bv32, bit: bv32)
    ensures Has(Union(a, b), bit) <==> Has(a, bit) || Has(b, bit)
  {
    hide Has, Union;
    UnionHasEach(a, b, bit);
    UnionHasOnly(a, b, bit);
  }

  lemma NoneHas(bit: bv32)
    ensures !Has(0, bit)
  {
  }

  /** A bit that some released waiter clears on exit. */
  ghost predicate SomeClears(ws: seq<Waiter>, bits: bv32, bit: bv32) {
    exists i :: 0 <= i < |ws| && Matches(bits, ws[i].value) && Has(Clears(ws[i].value), bit)
  }

  lemma SomeClearsStep(ws: seq<Waiter>, bits: bv32, bit: bv32)
    requires ws != []
    ensures var n := |ws| - 1;
            SomeClears(ws, bits, bit) <==>
              SomeClears(ws[..n], bits, bit) || (Matches(bits, ws[n].value) && Has(Clears(ws[n].value), bit))
  {
  }

  /** The bits cleared are exactly those some released waiter clears on exit. */
  lemma {:induction false} ClearedExactly(ws: seq<Waiter>, bits: bv32, bit: bv32)
    ensures Has(Cleared(ws, bits), bit) <==> SomeClears(ws, bits, bit)
  {
    hide Matches, Clears, Has, Union;
    NoneHas(bit);
    if ws != [] {
      var n := |ws| - 1;
      ClearedExactly(ws[..n], bits, bit);
      UnionHas(Cleared(ws[..n], bits), if Matches(bits, ws[n].value) then Clears(ws[n].value) else 0, bit);
      SomeClearsStep(ws, bits, bit);
    }
  }

  // ---------------------------------------------------------------- the other operations

  /** vTaskPlaceOnUnorderedEventList */
  function Place(s: State, t: int, c: Call): State {
    s.(waiters := s.waiters + [Waiter(t, ItemValue(c))], calls := s.calls[t := c])
  }

  /** xEventGroupWaitBits up to where the caller may block */
  function WaitBits(s: State, t: int, c: Call, wait: bool): State {
    if Met(s.bits, c.mask, c.all) then s.(bits := if c.clear then Less(s.bits, c.mask) else s.bits)
    else if wait then Place(s, t, c)
    else s
  }

  /** xEventGroupSync up to where the caller may block */
  function Sync(s: State, t: int, set_: bv32, mask: bv32, wait: bool): State {
    var u := SetBits(s, set_);
    if Covers(Union(s.bits, set_), mask) then u.(bits := Less(u.bits, mask))
    else if wait then Place(u, t, Call(mask, true, true))
    else u
  }

  function ClearBits(s: State, clear: bv32): State {
    s.(bits := Less(s.bits, clear))
  }

  function Dropped(ws: seq<Waiter>, t: int): seq<Waiter> {
    if ws == [] then []
    else Dropped(ws[..|ws| - 1], t) + if ws[|ws| - 1].task == t then [] else [ws[|ws| - 1]]
  }

  /** The tail of xEventGroupWaitBits and xEventGroupSync, when the task runs again. */
  function Returned(s: State, t: int): State
    requires t in s.calls
  {
    var c := s.calls[t];
    var u := s.(calls := s.calls - {t}, results := s.results - {t});
    if t in s.results && Has(s.results[t], UNBLOCKED) then u
    else if Met(s.bits, c.mask, c.all) && c.clear then u.(bits := Less(s.bits, c.mask))
    else u
  }

  function ReturnValue(s: State, t: int): bv32 {
    if t in s.results && Has(s.results[t], UNBLOCKED) then Mask(s.results[t]) else Mask(s.bits)
  }

  datatype Step =
    | DoWait(task: int, call: Call, wait: bool)
    | DoSync(task: int, set_: bv32, mask: bv32, wait: bool)
    | DoSet(set_: bv32)
    | DoClear(clear: bv32)
    | Timeout(task: int)
    | Return(task: int)

  ghost predicate Listed(ws: seq<Waiter>, t: int) {
    exists i :: 0 <= i < |ws| && ws[i].task == t
  }

  predicate Plain(mask: bv32) { mask & CONTROL == 0 }

  ghost predicate Enabled(s: State, e: Step) {
    match e
    case DoWait(t, c, _) => t !in s.calls && Plain(c.mask)
    case DoSync(t, set_, mask, _) => t !in s.calls && Plain(set_) && Plain(mask)
    case DoSet(set_) => Plain(set_)
    case DoClear(clear) => Plain(clear)
    case Timeout(t) => true
    case Return(t) => t in s.calls && !Listed(s.waiters, t)
  }

  function Apply(s: State, e: Step): State
    requires e.Return? ==> e.task in s.calls
  {
    match e
    case DoWait(t, c, wait) => WaitBits(s, t, c, wait)
    case DoSync(t, set_, mask, wait) => Sync(s, t, set_, mask, wait)
    case DoSet(set_) => SetBits(s, set_)
    case DoClear(clear) => ClearBits(s, clear)
    case Timeout(t) => s.(waiters := Dropped(s.waiters, t))
    case Return(t) => Returned(s, t)
  }

  // ---------------------------------------------------------------- invariant

  /** Each listed task is in a call, listed once, and its condition is not met. */
  ghost predicate WaitersOk(ws: seq<Waiter>, calls: map<int, Call>, bits: bv32) {
    && (forall i, j :: 0 <= i < j < |ws| ==> ws[i].task != ws[j].task)
    && (forall w :: w in ws ==> w.task in calls && w.value == ItemValue(calls[w.task]) && !Matches(bits, w.value))
  }

  /** Each released task has seen bits that meet its condition. */
  ghost predicate ResultOk(c: Call, value: bv32) {
    Has(value, UNBLOCKED) && Met(Mask(value), c.mask, c.all)
  }

  ghost predicate Good(s: State) {
    && Plain(s.bits)
    && (forall t :: t in s.calls ==> Plain(s.calls[t].mask))
    && WaitersOk(s.waiters, s.calls, s.bits)
    && (forall t :: t in s.results ==> t in s.calls && ResultOk(s.calls[t], s.results[t]) && !Listed(s.waiters, t))
  }

  lemma PlainLess(bits: bv32, clear: bv32)
    requires Plain(bits)
    ensures Plain(Less(bits, clear))
  {
  }

  lemma PlainUnion(a: bv32, b: bv32)
    requires Plain(a) && Plain(b)
    ensures Plain(Union(a, b))
  {
  }

  lemma LessWaiters(ws: seq<Waiter>, calls: map<int, Call>, bits: bv32, clear: bv32)
    requires WaitersOk(ws, calls, bits)
    ensures WaitersOk(ws, calls, Less(bits, clear))
  {
    hide Matches, ItemValue, Less;
    forall w | w in ws
      ensures !Matches(Less(bits, clear), w.value)
    {
      FewerBits(bits, clear, w.value);
    }
  }

  lemma LessGood(s: State, clear: bv32)
    requires Good(s)
    ensures Good(s.(bits := Less(s.bits, clear)))
  {
    hide WaitersOk, ResultOk, Less, Plain;
    PlainLess(s.bits, clear);
    LessWaiters(s.waiters, s.calls, s.bits, clear);
  }

  lemma {:induction false} LeftDistinct(ws: seq<Waiter>, bits: bv32)
    requires forall i, j :: 0 <= i < j < |ws| ==> ws[i].task != ws[j].task
    ensures forall i, j :: 0 <= i < j < |Left(ws, bits)| ==> Left(ws, bits)[i].task != Left(ws, bits)[j].task
  {
    hide Matches;
    if ws != [] {
      var n := |ws| - 1;
      LeftDistinct(ws[..n], bits);
      forall i | 0 <= i < |Left(ws[..n], bits)|
        ensures Left(ws[..n], bits)[i].task != ws[n].task
      {
        ReleasedExactly(ws[..n], bits, Left(ws[..n], bits)[i]);
      }
    }
  }

  /** Released tasks find the unmodified value, everybody else's result is unchanged. */
  lemma {:induction false} ResultsExactly(results: map<int, bv32>, ws: seq<Waiter>, bits: bv32, t: int)
    ensures var r, out := WithResults(results, ws, bits), Listed(Released(ws, bits), t);
            && (out ==> t in r && r[t] == Result(bits))
            && (!out ==> (t in r <==> t in results) && (t in results ==> r[t] == results[t]))
  {
    hide Matches, Result;
    if ws != [] {
      var n := |ws| - 1;
      ResultsExactly(results, ws[..n], bits, t);
      var a, b := Released(ws[..n], bits), Released(ws, bits);
      assert forall i :: 0 <= i < |a| ==> a[i] == b[i];
      assert Matches(bits, ws[n].value) ==> b[|a|] == ws[n];
    }
  }

  lemma InListed(ws: seq<Waiter>, w: Waiter)
    requires w in ws
    ensures Listed(ws, w.task)
  {
  }

  lemma ListedIn(ws: seq<Waiter>, t: int) returns (w: Waiter)
    requires Listed(ws, t)
    ensures w in ws && w.task == t
  {
    var i :| 0 <= i < |ws| && ws[i].task == t;
    w := ws[i];
  }

  /** The waiters left are those whose condition the new bits do not meet. */
  lemma SetWaiters(s: State, b: bv32)
    requires WaitersOk(s.waiters, s.calls, s.bits)
    ensures WaitersOk(Left(s.waiters, b), s.calls, Less(b, Cleared(s.waiters, b)))
  {
    hide Matches, ItemValue, Less, Cleared;
    var r := Left(s.waiters, b);
    LeftDistinct(s.waiters, b);
    forall w | w in r
      ensures w in s.waiters && !Matches(Less(b, Cleared(s.waiters, b)), w.value)
    {
      ReleasedExactly(s.waiters, b, w);
      FewerBits(b, Cleared(s.waiters, b), w.value);
    }
  }

  /** Two items of the same task are the same item. */
  lemma SameItem(ws: seq<Waiter>, v: Waiter, w: Waiter)
    requires forall i, j :: 0 <= i < j < |ws| ==> ws[i].task != ws[j].task
    requires v in ws && w in ws && v.task == w.task
    ensures v == w
  {
  }

  /** A released task is off the list, and its result meets its condition. */
  lemma SetResult(s: State, b: bv32, t: int)
    requires Good(s) && Plain(b) && t in WithResults(s.results, s.waiters, b)
    ensures t in s.calls && ResultOk(s.calls[t], WithResults(s.results, s.waiters, b)[t])
    ensures !Listed(Left(s.waiters, b), t)
  {
    hide Matches, ItemValue, Result, Plain, Met, Has, Mask;
    ResultsExactly(s.results, s.waiters, b, t);
    if Listed(Released(s.waiters, b), t) {
      var w := ListedIn(Released(s.waiters, b), t);
      ReleasedExactly(s.waiters, b, w);
      PlainMask(s, t);
      MatchesMet(b, s.calls[t]);
      PlainResult(b);
      if Listed(Left(s.waiters, b), t) {
        var v := ListedIn(Left(s.waiters, b), t);
        ReleasedExactly(s.waiters, b, v);
        SameItem(s.waiters, v, w);
      }
    } else if Listed(Left(s.waiters, b), t) {
      var v := ListedIn(Left(s.waiters, b), t);
      ReleasedExactly(s.waiters, b, v);
      InListed(s.waiters, v);
    }
  }

  lemma PlainMask(s: State, t: int)
    requires Good(s) && t in s.calls
    ensures s.calls[t].mask & CONTROL == 0
  {
  }

  lemma PlainResult(b: bv32)
    requires Plain(b)
    ensures Has(Result(b), UNBLOCKED) && Mask(Result(b)) == b
  {
  }

  lemma SetBitsGood(s: State, set_: bv32)
    requires Good(s) && Plain(set_)
    ensures Good(SetBits(s, set_)) && SetBits(s, set_).calls == s.calls
  {
    hide WaitersOk, ResultOk, Plain, Less, Left, Cleared, WithResults, Union, Listed;
    var b := Union(s.bits, set_);
    PlainUnion(s.bits, set_);
    PlainLess(b, Cleared(s.waiters, b));
    SetWaiters(s, b);
    var u := SetBits(s, set_);
    forall t | t in u.results
      ensures t in s.calls && ResultOk(s.calls[t], u.results[t]) && !Listed(u.waiters, t)
    {
      SetResult(s, b, t);
    }
  }

  // ---------------------------------------------------------------- steps and runs

  /** A task whose condition is not met may go onto the list. */
  lemma PlaceGood(s: State, t: int, c: Call)
    requires Good(s) && t !in s.calls && Plain(c.mask) && !Met(s.bits, c.mask, c.all)
    ensures Good(Place(s, t, c))
  {
    hide Matches, ItemValue, Met, ResultOk;
    assert c.mask & CONTROL == 0;
    MatchesMet(s.bits, c);
    var u := Place(s, t, c);
    forall w | w in u.waiters
      ensures w == Waiter(t, ItemValue(c)) || w in s.waiters
    {
    }
    forall i | 0 <= i < |s.waiters|
      ensures s.waiters[i].task != t
    {
      assert s.waiters[i] in s.waiters;
    }
    forall x | x in u.results
      ensures !Listed(u.waiters, x)
    {
      if Listed(u.waiters, x) {
        var w := ListedIn(u.waiters, x);
        assert w in s.waiters;
        InListed(s.waiters, w);
      }
    }
  }

  /** What the new bits do not cover, what is left of them does not either. */
  lemma StillUncovered(bits: bv32, clear: bv32, mask: bv32)
    requires !Covers(bits, mask)
    ensures !Covers(Less(bits, clear), mask)
  {
  }

  lemma SyncGood(s: State, t: int, set_: bv32, mask: bv32, wait: bool)
    requires Good(s) && Enabled(s, DoSync(t, set_, mask, wait))
    ensures Good(Sync(s, t, set_, mask, wait))
  {
    hide Good, Covers, Less, Plain, Union, Cleared, Left, WithResults;
    SetBitsGood(s, set_);
    var u := SetBits(s, set_);
    if Covers(Union(s.bits, set_), mask) {
      LessGood(u, mask);
    } else if wait {
      StillUncovered(Union(s.bits, set_), Cleared(s.waiters, Union(s.bits, set_)), mask);
      PlaceGood(u, t, Call(mask, true, true));
    }
  }

  lemma {:induction false} DroppedExactly(ws: seq<Waiter>, t: int)
    ensures forall w :: w in Dropped(ws, t) <==> w in ws && w.task != t
    ensures (forall i, j :: 0 <= i < j < |ws| ==> ws[i].task != ws[j].task) ==>
            forall i, j :: 0 <= i < j < |Dropped(ws, t)| ==> Dropped(ws, t)[i].task != Dropped(ws, t)[j].task
  {
    if ws != [] {
      var n := |ws| - 1;
      DroppedExactly(ws[..n], t);
      assert ws == ws[..n] + [ws[n]];
      forall i | 0 <= i < |Dropped(ws[..n], t)|
        ensures Dropped(ws[..n], t)[i] in ws[..n]
      {
        assert Dropped(ws[..n], t)[i] in Dropped(ws[..n], t);
      }
    }
  }

  lemma TimeoutGood(s: State, t: int)
    requires Good(s)
    ensures Good(s.(waiters := Dropped(s.waiters, t)))
  {
    hide Matches, ItemValue, ResultOk, Plain, Dropped;
    DroppedExactly(s.waiters, t);
    forall x | x in s.results
      ensures !Listed(Dropped(s.waiters, t), x)
    {
      if Listed(Dropped(s.waiters, t), x) {
        var w := ListedIn(Dropped(s.waiters, t), x);
        InListed(s.waiters, w);
      }
    }
  }

  lemma ForgetGood(s: State, t: int)
    requires Good(s) && !Listed(s.waiters, t)
    ensures Good(s.(calls := s.calls - {t}, results := s.results - {t}))
  {
  }

  lemma ReturnedGood(s: State, t: int)
    requires Good(s) && Enabled(s, Return(t))
    ensures Good(Returned(s, t))
  {
    hide Good, Met, Less, Has;
    ForgetGood(s, t);
    LessGood(s.(calls := s.calls - {t}, results := s.results - {t}), s.calls[t].mask);
  }

  lemma WaitBitsGood(s: State, t: int, c: Call, wait: bool)
    requires Good(s) && Enabled(s, DoWait(t, c, wait))
    ensures Good(WaitBits(s, t, c, wait))
  {
    hide Good, Met, Less, Plain;
    LessGood(s, c.mask);
    if wait && !Met(s.bits, c.mask, c.all) {
      PlaceGood(s, t, c);
    }
  }

  lemma StepGood(s: State, e: Step)
    requires Good(s) && Enabled(s, e)
    ensures Good(Apply(s, e))
  {
    hide Good, WaitBits, Sync, SetBits, Returned, Less;
    match e
    case DoWait(t, c, wait) => WaitBitsGood(s, t, c, wait);
    case DoSync(t, set_, mask, wait) => SyncGood(s, t, set_, mask, wait);
    case DoSet(set_) => SetBitsGood(s, set_);
    case DoClear(clear) => LessGood(s, clear);
    case Timeout(t) => TimeoutGood(s, t);
    case Return(t) => ReturnedGood(s, t);
  }

  ghost predicate Run(states: seq<State>, steps: seq<Step>) {
    && |states| == |steps| + 1 && Good(states[0])
    && (forall k :: 0 <= k < |steps| ==> Enabled(states[k], steps[k]) && states[k + 1] == Apply(states[k], steps[k]))
  }

  lemma {:induction false} RunGood(states: seq<State>, steps: seq<Step>, k: nat)
    requires Run(states, steps) && k <= |steps|
    ensures Good(states[k])
  {
    hide Good, Enabled, Apply;
    if k > 0 {
      RunGood(states, steps, k - 1);
      StepGood(states[k - 1], steps[k - 1]);
    }
  }

  /** A new event group starts a run. */
  lemma FreshGood()
    ensures Good(State(0, [], map[], map[]))
  {
  }

  /** In every reachable state no listed task's condition is met by the current bits. */
  lemma NobodyWaitsInVain(states: seq<State>, steps: seq<Step>, k: nat, w: Waiter)
    requires Run(states, steps) && k <= |steps| && w in states[k].waiters
    ensures var s := states[k]; w.task in s.calls && !Met(s.bits, s.calls[w.task].mask, s.calls[w.task].all)
  {
    hide Enabled, Apply, Matches, Met;
    RunGood(states, steps, k);
    var s := states[k];
    PlainMask(s, w.task);
    MatchesMet(s.bits, s.calls[w.task]);
  }

  /** A released task returns bits that meet its condition, whatever happens to the bits before it runs. */
  lemma ReleasedSeeTheirBits(states: seq<State>, steps: seq<Step>, k: nat, t: int)
    requires Run(states, steps) && k <= |steps| && t in states[k].results
    ensures var s := states[k]; t in s.calls && Met(ReturnValue(s, t), s.calls[t].mask, s.calls[t].all)
  {
    hide Enabled, Apply, Matches, Met, Mask;
    RunGood(states, steps, k);
  }

  /**
   xEventGroupSetBits releases exactly the waiters whose condition the old bits and the new ones meet
   together, gives each of them that value, and leaves everybody else waiting.
   */
  lemma SetBitsReleasesExactly(s: State, set_: bv32, w: Waiter)
    requires Good(s) && Plain(set_) && w in s.waiters
    ensures var u, b, c := SetBits(s, set_), Union(s.bits, set_), s.calls[w.task];
            && (Met(b, c.mask, c.all) <==> w !in u.waiters)
            && (Met(b, c.mask, c.all) <==> w.task in u.results)
            && (Met(b, c.mask, c.all) ==> u.results[w.task] == Result(b) && ReturnValue(u, w.task) == b)
  {
    hide Matches, Met, Union, Result, Plain, Mask, Has, Less, Cleared;
    var b := Union(s.bits, set_);
    PlainMask(s, w.task);
    PlainUnion(s.bits, set_);
    PlainResult(b);
    MatchesMet(b, s.calls[w.task]);
    ReleasedExactly(s.waiters, b, w);
    ResultsExactly(s.results, s.waiters, b, w.task);
    InListed(s.waiters, w);
    if Listed(Released(s.waiters, b), w.task) {
      var v := ListedIn(Released(s.waiters, b), w.task);
      ReleasedExactly(s.waiters, b, v);
      SameItem(s.waiters, v, w);
    }
    if w in Released(s.waiters, b) {
      InListed(Released(s.waiters, b), w);
    }
  }

  // ---------------------------------------------------------------- rendezvous

  /** Everybody on the list is in a rendezvous on the same bits. */
  ghost predicate AllMeetAt(s: State, mask: bv32) {
    forall w :: w in s.waiters ==> w.task in s.calls && s.calls[w.task] == Call(mask, true, true)
  }

  lemma {:induction false} AllReleased(ws: seq<Waiter>, bits: bv32, mask: bv32)
    requires forall w :: w in ws ==> Matches(bits, w.value) && Clears(w.value) == mask
    ensures Released(ws, bits) == ws && Left(ws, bits) == [] && Cleared(ws, bits) == if ws == [] then 0 else mask
  {
    hide Matches, Clears, Union;
    if ws != [] {
      var n := |ws| - 1;
      AllReleased(ws[..n], bits, mask);
      assert ws == ws[..n] + [ws[n]];
      UnionSelf(mask);
    }
  }

  lemma UnionSelf(mask: bv32)
    ensures Union(mask, mask) == mask && Union(0, mask) == mask
  {
  }

  lemma {:induction false} NoneReleased(ws: seq<Waiter>, bits: bv32)
    requires forall w :: w in ws ==> !Matches(bits, w.value)
    ensures Released(ws, bits) == [] && Left(ws, bits) == ws && Cleared(ws, bits) == 0
  {
    hide Matches, Clears, Union;
    if ws != [] {
      var n := |ws| - 1;
      NoneReleased(ws[..n], bits);
      assert ws == ws[..n] + [ws[n]];
      UnionSelf(0);
    }
  }

  lemma LessNothing(bits: bv32)
    ensures Less(bits, 0) == bits
  {
  }

  lemma LessHas(bits: bv32, clear: bv32, mask: bv32)
    ensures !Has(Less(bits, mask), mask)
  {
  }

  /** One rendezvous call in a state in which everybody listed meets at the same bits. */
  lemma SyncAllOrNone(s: State, t: int, set_: bv32, mask: bv32, wait: bool)
    requires Good(s) && Enabled(s, DoSync(t, set_, mask, wait)) && AllMeetAt(s, mask)
    ensures var u, b := Sync(s, t, set_, mask, wait), Union(s.bits, set_);
            if Covers(b, mask) then
              && u.waiters == [] && !Has(u.bits, mask)
              && (forall w :: w in s.waiters ==> w.task in u.results && ReturnValue(u, w.task) == b)
            else
              && u.bits == b && u.results == s.results
              && u.waiters == s.waiters + if wait then [Waiter(t, ItemValue(Call(mask, true, true)))] else []
  {
    hide Good, Matches, Clears, Covers, Has, Less, Union, ItemValue, Plain, ReturnValue, Result, AllMeetAt;
    var b := Union(s.bits, set_);
    MeetMatches(s, b, mask);
    if Covers(b, mask) {
      AllReleased(s.waiters, b, mask);
      var u := SetBits(s, set_);
      LessHas(u.bits, 0, mask);
      forall w | w in s.waiters
        ensures w.task in u.results && ReturnValue(u.(bits := Less(u.bits, mask)), w.task) == b
      {
        RendezvousReturns(s, set_, mask, w);
      }
    } else {
      NoneReleased(s.waiters, b);
      LessNothing(b);
      NoResults(s.results, s.waiters, b);
    }
  }

  lemma MeetMatches(s: State, b: bv32, mask: bv32)
    requires Good(s) && AllMeetAt(s, mask)
    ensures forall w :: w in s.waiters ==> (Matches(b, w.value) <==> Covers(b, mask)) && Clears(w.value) == mask
  {
  }

  lemma RendezvousReturns(s: State, set_: bv32, mask: bv32, w: Waiter)
    requires Good(s) && Plain(set_) && AllMeetAt(s, mask) && w in s.waiters && Covers(Union(s.bits, set_), mask)
    ensures var u := SetBits(s, set_);
            w.task in u.results && ReturnValue(u.(bits := Less(u.bits, mask)), w.task) == Union(s.bits, set_)
  {
    hide Matches, Clears, Covers, Has, Less, Union, ItemValue, Plain, Mask, Result, WithResults, Left, Cleared;
    var u, b := SetBits(s, set_), Union(s.bits, set_);
    SetBitsReleasesExactly(s, set_, w);
    PlainUnion(s.bits, set_);
    PlainResult(b);
    ReleasedValue(u, w.task, Less(u.bits, mask));
  }

  lemma ReleasedValue(u: State, t: int, bits: bv32)
    requires t in u.results && Has(u.results[t], UNBLOCKED)
    ensures ReturnValue(u.(bits := bits), t) == ReturnValue(u, t)
  {
  }

  lemma {:induction false} NoResults(results: map<int, bv32>, ws: seq<Waiter>, bits: bv32)
    requires forall w :: w in ws ==> !Matches(bits, w.value)
    ensures WithResults(results, ws, bits) == results
  {
    hide Matches;
    if ws != [] {
      NoResults(results, ws[..|ws| - 1], bits);
    }
  }

  /** Bits set from outside the rendezvous complete it for everybody listed, or for nobody. */
  lemma SetAllOrNone(s: State, set_: bv32, mask: bv32)
    requires Good(s) && Plain(set_) && AllMeetAt(s, mask)
    ensures var u, b := SetBits(s, set_), Union(s.bits, set_);
            if Covers(b, mask) then
              u.waiters == [] && forall w :: w in s.waiters ==> w.task in u.results && ReturnValue(u, w.task) == b
            else
              u.bits == b && u.results == s.results && u.waiters == s.waiters
  {
    hide Good, Matches, Clears, Covers, Has, Less, Union, ItemValue, Plain, ReturnValue, Result, AllMeetAt;
    var b := Union(s.bits, set_);
    MeetMatches(s, b, mask);
    if Covers(b, mask) {
      AllReleased(s.waiters, b, mask);
      forall w | w in s.waiters
        ensures w.task in SetBits(s, set_).results && ReturnValue(SetBits(s, set_), w.task) == b
      {
        MeetCondition(s, w, b, mask);
        SetBitsReleasesExactly(s, set_, w);
      }
    } else {
      NoneReleased(s.waiters, b);
      LessNothing(b);
      NoResults(s.results, s.waiters, b);
    }
  }

  lemma MeetCondition(s: State, w: Waiter, b: bv32, mask: bv32)
    requires AllMeetAt(s, mask) && w in s.waiters
    ensures w.task in s.calls && (Met(b, s.calls[w.task].mask, s.calls[w.task].all) <==> Covers(b, mask))
  {
  }

  /** Steps in which nobody waits but in a rendezvous on mask. */
  ghost predicate Meeting(steps: seq<Step>, mask: bv32) {
    forall k :: 0 <= k < |steps| ==> !steps[k].DoWait? && (steps[k].DoSync? ==> steps[k].mask == mask)
  }

  ghost predicate CallsMeetAt(s: State, mask: bv32) {
    forall t :: t in s.calls ==> s.calls[t] == Call(mask, true, true)
  }

  lemma StepMeets(s: State, e: Step, mask: bv32)
    requires Enabled(s, e) && CallsMeetAt(s, mask) && !e.DoWait? && (e.DoSync? ==> e.mask == mask)
    ensures CallsMeetAt(Apply(s, e), mask)
  {
    hide Less, Union, Covers, Left, Cleared, WithResults, Met, ItemValue, Plain;
  }

  /** In such a run, started with nobody in a call, everybody listed meets at mask. */
  lemma {:induction false} RunMeets(states: seq<State>, steps: seq<Step>, k: nat, mask: bv32)
    requires Run(states, steps) && k <= |steps| && Meeting(steps, mask) && states[0].calls == map[]
    ensures Good(states[k]) && CallsMeetAt(states[k], mask) && AllMeetAt(states[k], mask)
  {
    hide Enabled, Apply, Matches, ResultOk, Plain, ItemValue;
    if k > 0 {
      RunMeets(states, steps, k - 1, mask);
      StepMeets(states[k - 1], steps[k - 1], mask);
    }
    RunGood(states, steps, k);
  }

  /**
   A rendezvous is all or none, at every step of every run in which all callers of xEventGroupSync meet
   at the same bits. A call that completes them releases every blocked participant, shows each the
   complete bits, and leaves none of the bits set; a call that does not complete them releases nobody,
   clears nothing, and joins the participants if it may wait.
   */
  lemma RendezvousAllOrNone(states: seq<State>, steps: seq<Step>, k: nat, mask: bv32)
    requires Run(states, steps) && k < |steps| && Meeting(steps, mask) && states[0].calls == map[] && steps[k].DoSync?
    ensures var s, u, b := states[k], states[k + 1], Union(states[k].bits, steps[k].set_);
            if Covers(b, mask) then
              && u.waiters == [] && !Has(u.bits, mask)
              && (forall w :: w in s.waiters ==> w.task in u.results && ReturnValue(u, w.task) == b)
            else
              && u.bits == b && u.results == s.results
              && u.waiters == s.waiters +
                   if steps[k].wait then [Waiter(steps[k].task, ItemValue(Call(mask, true, true)))] else []
  {
    hide Good, Has, Covers, Union, ItemValue, ReturnValue, AllMeetAt, Sync;
    RunMeets(states, steps, k, mask);
    SyncAllOrNone(states[k], steps[k].task, steps[k].set_, mask, steps[k].wait);
  }

  /** Bits set by others in such a run release all participants or none as well. */
  lemma RendezvousFromOutside(states: seq<State>, steps: seq<Step>, k: nat, mask: bv32)
    requires Run(states, steps) && k < |steps| && Meeting(steps, mask) && states[0].calls == map[] && steps[k].DoSet?
    ensures var s, u, b := states[k], states[k + 1], Union(states[k].bits, steps[k].set_);
            if Covers(b, mask) then
              u.waiters == [] && forall w :: w in s.waiters ==> w.task in u.results && ReturnValue(u, w.task) == b
            else
              u.bits == b && u.results == s.results && u.waiters == s.waiters
  {
    hide Good, Has, Covers, Union, ReturnValue, AllMeetAt, SetBits;
    RunMeets(states, steps, k, mask);
    SetAllOrNone(states[k], steps[k].set_, mask);
  }
}
