/**
 What each call of an event group does for every waiter and every bit: who is on the list afterwards, and
 which bits are left.
 */
module EventCalls {
  import opened EventSpec

  /** The bits of clear are gone, and all others are as before. */
  predicate ClearedOf(before: bv32, after: bv32, clear: bv32) {
    after & clear == 0 && after & !clear == before & !clear
  }

  lemma LessIs(bits: bv32, clear: bv32)
    ensures ClearedOf(bits, Less(bits, clear), clear)
  {
    NoneLeft(bits, clear);
    OthersLeft(bits, clear);
  }

  lemma NoneLeft(bits: bv32, clear: bv32)
    ensures Less(bits, clear) & clear == 0
  {
  }

  lemma OthersLeft(bits: bv32, clear: bv32)
    ensures Less(bits, clear) & !clear == bits & !clear
  {
    AndTwice(bits, !clear);
  }

  /** The bits as waiters are tested against them. */
  function Tested(s: State, e: Step): bv32 {
    match e
    case DoSet(set_) => Union(s.bits, set_)
    case DoSync(_, set_, _, _) => Union(s.bits, set_)
    case _ => s.bits
  }

  /** The call finds what it waits for. */
  predicate Complete(s: State, e: Step) {
    match e
    case DoWait(_, c, _) => Met(s.bits, c.mask, c.all)
    case DoSync(_, set_, mask, _) => Covers(Union(s.bits, set_), mask)
    case _ => false
  }

  /** The waiter the step puts on the list: a call that may wait and does not find its bits. */
  predicate Joins(s: State, e: Step, w: Waiter) {
    match e
    case DoWait(t, c, wait) => wait && !Complete(s, e) && w == Waiter(t, ItemValue(c))
    case DoSync(t, _, mask, wait) => wait && !Complete(s, e) && w == Waiter(t, ItemValue(Call(mask, true, true)))
    case _ => false
  }

  /** The waiter the step takes off: released by the bits set, or out of time. */
  predicate TakesOff(s: State, e: Step, w: Waiter) {
    match e
    case DoSet(_) => Matches(Tested(s, e), w.value)
    case DoSync(_, _, _, _) => Matches(Tested(s, e), w.value)
    case Timeout(t) => w.task == t
    case _ => false
  }

  /** Who waits after any step: those that were and are not taken off, and the caller if it blocks. */
  lemma StepWaiters(s: State, e: Step, w: Waiter)
    requires Enabled(s, e)
    ensures w in Apply(s, e).waiters <==> (w in s.waiters && !TakesOff(s, e, w)) || Joins(s, e, w)
  {
    hide Matches, ItemValue, Met, Covers, Left, Dropped, Cleared, WithResults, Less, Union, Has;
    match e
    case DoSet(_) => ReleasedExactly(s.waiters, Tested(s, e), w);
    case DoSync(_, _, _, _) => ReleasedExactly(s.waiters, Tested(s, e), w);
    case Timeout(t) => DroppedExactly(s.waiters, t);
    case _ =>
  }

  /** The bits the step clears. */
  function Clearing(s: State, e: Step): bv32 {
    match e
    case DoWait(_, c, _) => if Complete(s, e) && c.clear then c.mask else 0
    case DoSync(_, _, mask, _) =>
      Union(Cleared(s.waiters, Tested(s, e)), if Complete(s, e) then mask else 0)
    case DoSet(_) => Cleared(s.waiters, Tested(s, e))
    case DoClear(clear) => clear
    case Timeout(_) => 0
    case Return(t) =>
      if t in s.calls && !(t in s.results && Has(s.results[t], UNBLOCKED)) && s.calls[t].clear
         && Met(s.bits, s.calls[t].mask, s.calls[t].all) then s.calls[t].mask
      else 0
  }

  lemma LessTwice(bits: bv32, a: bv32, b: bv32)
    ensures Less(Less(bits, a), b) == Less(bits, Union(a, b))
  {
  }

  lemma LessNothing(bits: bv32)
    ensures Less(bits, 0) == bits
  {
  }

  lemma UnionNone(a: bv32)
    ensures Union(a, 0) == a
  {
  }

  /**
   Which bits are left after any step. A wait that is met clears its bits if it was asked to and no others; a
   rendezvous that is complete leaves none of its bits; a call out of time looks once more, as a wait does;
   and setting bits clears what the released waiters asked for.
   */
  lemma StepBits(s: State, e: Step)
    requires Enabled(s, e)
    ensures ClearedOf(Tested(s, e), Apply(s, e).bits, Clearing(s, e))
  {
    hide Apply, Tested, Clearing, Less, ClearedOf;
    LessIs(Tested(s, e), Clearing(s, e));
    BitsLeft(s, e);
  }

  lemma BitsLeft(s: State, e: Step)
    requires Enabled(s, e)
    ensures Apply(s, e).bits == Less(Tested(s, e), Clearing(s, e))
  {
    hide Matches, ItemValue, Met, Covers, Left, Dropped, Cleared, WithResults, Less, Union, Has, Plain, Listed;
    LessNothing(s.bits);
    match e
    case DoSync(t, set_, mask, wait) => SyncBits(s, t, set_, mask, wait);
    case _ =>
  }

  lemma SyncBits(s: State, t: int, set_: bv32, mask: bv32, wait: bool)
    ensures var e := DoSync(t, set_, mask, wait);
      Sync(s, t, set_, mask, wait).bits == Less(Tested(s, e), Clearing(s, e))
  {
    hide Matches, ItemValue, Covers, Left, Cleared, WithResults, Less, Union, Has;
    var b := Union(s.bits, set_);
    LessTwice(b, Cleared(s.waiters, b), mask);
    UnionNone(Cleared(s.waiters, b));
  }

  /**
   A wait returns at once or blocks: if its condition is met the caller is on no list and leaves no trace but
   the bits cleared; if not, and it may wait, it is listed for its bits and nothing else changes.
   */
  lemma WaitReturnsOrBlocks(s: State, t: int, c: Call, wait: bool)
    requires Good(s) && Enabled(s, DoWait(t, c, wait))
    ensures var u := Apply(s, DoWait(t, c, wait));
            && u.results == s.results
            && (Met(s.bits, c.mask, c.all) ==>
                  u.waiters == s.waiters && u.calls == s.calls
                    && ClearedOf(s.bits, u.bits, if c.clear then c.mask else 0))
            && (!Met(s.bits, c.mask, c.all) ==> u.bits == s.bits)
            && (!Met(s.bits, c.mask, c.all) && !wait ==> u == s)
            && (!Met(s.bits, c.mask, c.all) && wait ==> Listed(u.waiters, t) && t in u.calls && u.calls[t] == c)
    ensures !Listed(s.waiters, t)
  {
    hide Matches, ItemValue, Met, ResultOk, Plain, ClearedOf;
    StepBits(s, DoWait(t, c, wait));
    if Listed(s.waiters, t) {
      var w := ListedIn(s.waiters, t);
    }
    if !Met(s.bits, c.mask, c.all) && wait {
      InListed(Apply(s, DoWait(t, c, wait)).waiters, Waiter(t, ItemValue(c)));
    }
  }

  /** A call that returns is forgotten; one that was not released returns the bits as they are. */
  lemma ReturnForgets(s: State, t: int)
    requires Good(s) && Enabled(s, Return(t))
    ensures var u := Apply(s, Return(t));
            && u.calls == s.calls - {t} && u.results == s.results - {t} && u.waiters == s.waiters
            && (t !in s.results ==> ReturnValue(s, t) == s.bits)
            && (t in s.results ==> u.bits == s.bits)
  {
    hide Matches, ItemValue, Met, WaitersOk, Less;
    if t !in s.results {
      PlainBits(s.bits);
    }
  }

  lemma PlainBits(bits: bv32)
    requires Plain(bits)
    ensures Mask(bits) == bits
  {
  }
}
