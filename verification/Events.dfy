/**
 The event group code: the walk over the waiters that unlinks the ones it releases, the waits, the
 rendezvous and the returns, proved to be the steps of module EventSpec.
 */
module Events {
  import opened EventSpec

  class EventGroup {
    var bits: bv32                   // uxEventBits
    var waiting: seq<int>            // xTasksWaitingForBits, by task
    var itemValue: map<int, bv32>    // the tasks' event list item values
    var calls: map<int, Call>        // what each task asked for, on its own stack
    ghost var released: set<int>     // released and not yet returned

    /** The list with the item values the walk will find. */
    static ghost function Items(waiting: seq<int>, itemValue: map<int, bv32>): (ws: seq<Waiter>)
      ensures |ws| == |waiting|
      ensures forall i :: 0 <= i < |ws| ==>
        ws[i] == Waiter(waiting[i], if waiting[i] in itemValue then itemValue[waiting[i]] else 0)
    {
      seq(|waiting|, i requires 0 <= i < |waiting| => Waiter(waiting[i],
        if waiting[i] in itemValue then itemValue[waiting[i]] else 0))
    }

    ghost function View(): State
      reads this
    {
      State(bits, Items(waiting, itemValue), calls, Results())
    }

    ghost predicate Linked()
      reads this`waiting, this`itemValue, this`released
    {
      && (forall t :: t in waiting ==> t in itemValue && t !in released)
      && (forall t :: t in released ==> t in itemValue)
      && (forall i, j :: 0 <= i < j < |waiting| ==> waiting[i] != waiting[j])
    }

    /** Every task on the list or released is in a call, and one that is not released still holds what it asked for. */
    ghost predicate CallsOk()
      reads this`waiting, this`itemValue, this`calls, this`released
    {
      && (forall t :: t in waiting ==> t in calls) && (forall t :: t in released ==> t in calls)
      && (forall t :: t in calls && t !in released ==> t in itemValue && itemValue[t] == ItemValue(calls[t]))
    }

    /** xEventGroupCreate */
    constructor ()
      ensures Linked() && View() == State(0, [], map[], map[])
    {
      bits, waiting, itemValue, calls, released := 0, [], map[], map[], {};
    }

    /** xEventGroupClearBits: the value returned is the one before. */
    method ClearEventBits(clear: bv32) returns (before: bv32)
      requires Linked()
      modifies this`bits
      ensures Linked() && View() == ClearBits(old(View()), clear) && before == old(bits)
    {
      before := bits;
      bits := bits & !clear;
    }

    /** vTaskRemoveFromUnorderedEventList for the i-th listed task */
    method RemoveFromUnorderedEventList(i: nat, value: bv32)
      requires Linked() && i < |waiting|
      modifies this`waiting, this`itemValue, this`released
      ensures Linked() && waiting == old(waiting[..i] + waiting[i + 1..])
      ensures itemValue == old(itemValue)[old(waiting)[i] := Union(value, IN_USE)]
      ensures released == old(released) + {old(waiting)[i]}
    {
      hide Union;
      var t := waiting[i];
      itemValue := itemValue[t := Union(value, IN_USE)];
      waiting := waiting[..i] + waiting[i + 1..];
      released := released + {t};
    }

    /** The release of the i-th waiter with the current bits. */
    method Release(i: nat)
      requires Linked() && i < |waiting|
      modifies this`waiting, this`itemValue, this`released
      ensures Linked() && |waiting| == |old(waiting)| - 1
      ensures Items(waiting[..i], itemValue) == old(Items(waiting[..i], itemValue))
      ensures Items(waiting[i..], itemValue) == old(Items(waiting[i..], itemValue))[1..]
      ensures Results() == old(Results())[old(waiting)[i] := Result(bits)]
      ensures old(CallsOk()) ==> CallsOk()
    {
      hide Union, Items, ItemValue;
      ItemsRemoved(waiting, itemValue, i, Result(bits));
      RemoveFromUnorderedEventList(i, Union(bits, UNBLOCKED));
    }

    /** The match test of the walk, on an item value with its control bits split off. */
    method TestWaiter(value: bv32) returns (matchFound: bool, clears: bv32)
      ensures matchFound <==> Matches(bits, value)
      ensures clears == Clears(value)
    {
      hide Matches, Clears, Mask, Has, Covers;
      WalkTests(value, bits);
      var control, waitedFor := value & CONTROL, Mask(value);
      matchFound := false;
      if !Has(control, WAIT_FOR_ALL) {
        if Has(bits, waitedFor) {
          matchFound := true;
        }
      } else if Covers(bits, waitedFor) {
        matchFound := true;
      }
      clears := if Has(control, CLEAR_ON_EXIT) then waitedFor else 0;
    }

    /** What released tasks find in their event list items. */
    ghost function Results(): map<int, bv32>
      reads this`itemValue, this`released
    {
      map t | t in released && t in itemValue :: itemValue[t]
    }

    /** The walk of xEventGroupSetBits over the list, which unlinks as it goes. */
    method ReleaseMatching() returns (toClear: bv32)
      requires Linked()
      modifies this`waiting, this`itemValue, this`released
      ensures Linked() && (old(CallsOk()) ==> CallsOk())
      ensures var ws := old(Items(waiting, itemValue));
              && Items(waiting, itemValue) == Left(ws, bits) && toClear == Cleared(ws, bits)
              && Results() == WithResults(old(Results()), ws, bits)
    {
      hide Matches, Clears, Mask, Result, Union, Has, Covers, Less, Items, Left, Cleared, WithResults, ItemValue,
           CallsOk, Results;
      ghost var ws, results := Items(waiting, itemValue), Results();
      toClear := 0;
      var i := 0;
      ghost var k := 0;
      WalkStart(ws, bits, waiting, results);
      while i < |waiting|
        invariant 0 <= k <= |ws| && |waiting| - i == |ws| - k && 0 <= i
        invariant Linked() && toClear == Cleared(ws[..k], bits)
        invariant Items(waiting[..i], itemValue) == Left(ws[..k], bits)
        invariant Items(waiting[i..], itemValue) == ws[k..]
        invariant Results() == WithResults(results, ws[..k], bits)
        invariant old(CallsOk()) ==> CallsOk()
        decreases |waiting| - i
      {
        var value := itemValue[waiting[i]];
        WalkStep(ws, k, bits, results);
        HeadItem(waiting, itemValue, i, ws, k);
        var matchFound, clears := TestWaiter(value);
        if matchFound {
          toClear := Union(toClear, clears);
          Release(i);
        } else {
          UnionNothing(toClear);
          ItemsKept(waiting, itemValue, i);
          i := i + 1;
        }
        k := k + 1;
      }
      WalkEnd(ws, k, waiting, i);
    }

    /** xEventGroupSetBits */
    method SetEventBits(set_: bv32) returns (now: bv32)
      requires Linked()
      modifies this`bits, this`waiting, this`itemValue, this`released
      ensures Linked() && View() == SetBits(old(View()), set_) && now == bits
      ensures old(CallsOk()) ==> CallsOk()
    {
      hide Less, Items, Left, Cleared, WithResults, CallsOk, Union;
      bits := Union(bits, set_);
      var toClear := ReleaseMatching();
      bits := Less(bits, toClear);
      now := bits;
    }

    /** vTaskPlaceOnUnorderedEventList for the running task */
    method PlaceOnList(t: int, c: Call)
      requires Linked() && CallsOk() && t !in calls
      modifies this`waiting, this`itemValue, this`calls
      ensures Linked() && CallsOk() && View() == Place(old(View()), t, c)
    {
      hide ItemValue, Items;
      ItemsPlaced(waiting, itemValue, t, ItemValue(c));
      itemValue := itemValue[t := ItemValue(c)];
      waiting := waiting + [t];
      calls := calls[t := c];
    }

    /** xEventGroupWaitBits up to where the caller may block */
    method WaitForEventBits(t: int, mask: bv32, clear: bool, all: bool, wait: bool) returns (value: bv32, blocked: bool)
      requires Linked() && CallsOk() && t !in calls
      modifies this`bits, this`waiting, this`itemValue, this`calls
      ensures Linked() && CallsOk() && View() == WaitBits(old(View()), t, Call(mask, clear, all), wait)
      ensures blocked <==> wait && !Met(old(bits), mask, all)
      ensures value == if blocked then 0 else old(bits)
    {
      hide ItemValue, Items, Less, Met;
      value, blocked := bits, false;
      if Met(value, mask, all) {
        if clear {
          bits := Less(bits, mask);
        }
      } else if wait {
        PlaceOnList(t, Call(mask, clear, all));
        value := 0;
        blocked := true;
      }
    }

    /** xEventGroupSync up to where the caller may block */
    method SyncEventBits(t: int, set_: bv32, mask: bv32, wait: bool) returns (value: bv32, blocked: bool)
      requires Linked() && CallsOk() && t !in calls
      modifies this`bits, this`waiting, this`itemValue, this`calls, this`released
      ensures Linked() && CallsOk() && View() == Sync(old(View()), t, set_, mask, wait)
      ensures blocked <==> wait && !Covers(Union(old(bits), set_), mask)
      ensures value ==
        if Covers(Union(old(bits), set_), mask) then Union(old(bits), set_) else if blocked then 0 else bits
    {
      hide ItemValue, Items, Less, Covers, SetBits, Union;
      var original := bits;
      blocked := false;
      SetsOnly(View(), set_);
      value := SetEventBits(set_);
      if Covers(Union(original, set_), mask) {
        value := Union(original, set_);
        bits := Less(bits, mask);
      } else if wait {
        PlaceOnList(t, Call(mask, true, true));
        value := 0;
        blocked := true;
      }
    }

    /** uxTaskResetEventItemValue, normal being the value that stands for the task's priority; the call is over */
    method ResetEventItemValue(t: int, normal: bv32) returns (value: bv32)
      requires Linked() && CallsOk() && t in calls && t !in waiting
      modifies this`calls, this`itemValue, this`released
      ensures Linked() && CallsOk() && value == old(itemValue)[t]
      ensures View() == old(View()).(calls := old(calls) - {t}, results := old(Results()) - {t})
    {
      hide ItemValue, Items;
      value := itemValue[t];
      ItemsForgotten(waiting, itemValue, t, normal);
      itemValue := itemValue[t := normal];
      calls := calls - {t};
      released := released - {t};
    }

    /** The tail of both calls, when the task runs again: released, or out of time and looking once more. */
    method ReturnFromWait(t: int, normal: bv32) returns (value: bv32)
      requires Linked() && CallsOk() && t in calls && t !in waiting && Good(View())
      modifies this`bits, this`calls, this`itemValue, this`released
      ensures Linked() && CallsOk() && View() == Returned(old(View()), t) && value == ReturnValue(old(View()), t)
    {
      hide ItemValue, Items, Less, Met, Mask, Has, Plain, Good;
      ResultsReleased(View());
      var c := calls[t];
      PlainMask(View(), t);
      NotReleased(c);
      ghost var wasReleased := t in released;
      assert wasReleased ==> t in View().results && View().results[t] == itemValue[t];
      value := ResetEventItemValue(t, normal);
      assert Has(value, UNBLOCKED) <==> wasReleased;
      if !Has(value, UNBLOCKED) {
        value := bits;
        if Met(value, c.mask, c.all) {
          if c.clear {
            bits := Less(bits, c.mask);
          }
        }
      }
      value := Mask(value);
    }
  }

  lemma ItemsPlaced(waiting: seq<int>, itemValue: map<int, bv32>, t: int, value: bv32)
    requires t !in waiting
    ensures EventGroup.Items(waiting + [t], itemValue[t := value]) ==
      EventGroup.Items(waiting, itemValue) + [Waiter(t, value)]
  {
  }

  lemma ItemsForgotten(waiting: seq<int>, itemValue: map<int, bv32>, t: int, value: bv32)
    requires t !in waiting
    ensures EventGroup.Items(waiting, itemValue[t := value]) == EventGroup.Items(waiting, itemValue)
  {
  }

  lemma ResultsReleased(s: State)
    requires Good(s)
    ensures forall t :: t in s.results ==> Has(s.results[t], UNBLOCKED)
  {
  }

  /** What a task asks for does not look like a release. */
  lemma NotReleased(c: Call)
    requires c.mask & CONTROL == 0
    ensures !Has(ItemValue(c), UNBLOCKED)
  {
  }

  lemma SetsOnly(s: State, set_: bv32)
    ensures SetBits(s, set_).calls == s.calls
  {
  }

  lemma WalkTests(value: bv32, bits: bv32)
    ensures Has(value & CONTROL, WAIT_FOR_ALL) <==> Has(value, WAIT_FOR_ALL)
    ensures Has(value & CONTROL, CLEAR_ON_EXIT) <==> Has(value, CLEAR_ON_EXIT)
    ensures Matches(bits, value) <==>
      if !Has(value, WAIT_FOR_ALL) then Has(bits, Mask(value)) else Covers(bits, Mask(value))
    ensures Clears(value) == if Has(value, CLEAR_ON_EXIT) then Mask(value) else 0
  {
  }

  lemma UnionNothing(a: bv32)
    ensures Union(a, 0) == a
  {
  }

  lemma HeadItem(waiting: seq<int>, itemValue: map<int, bv32>, i: nat, ws: seq<Waiter>, k: nat)
    requires i < |waiting| && k < |ws| && EventGroup.Items(waiting[i..], itemValue) == ws[k..]
    requires waiting[i] in itemValue
    ensures ws[k] == Waiter(waiting[i], itemValue[waiting[i]]) && ws[k..][1..] == ws[k + 1..]
  {
  }

  lemma ItemsKept(waiting: seq<int>, itemValue: map<int, bv32>, i: nat)
    requires i < |waiting| && waiting[i] in itemValue
    ensures EventGroup.Items(waiting[..i + 1], itemValue) ==
      EventGroup.Items(waiting[..i], itemValue) + [Waiter(waiting[i], itemValue[waiting[i]])]
    ensures EventGroup.Items(waiting[i + 1..], itemValue) == EventGroup.Items(waiting[i..], itemValue)[1..]
  {
  }

  lemma ItemsRemoved(waiting: seq<int>, itemValue: map<int, bv32>, i: nat, value: bv32)
    requires i < |waiting| && forall j, k :: 0 <= j < k < |waiting| ==> waiting[j] != waiting[k]
    ensures var r, v := waiting[..i] + waiting[i + 1..], itemValue[waiting[i] := value];
            && EventGroup.Items(r[..i], v) == EventGroup.Items(waiting[..i], itemValue)
            && EventGroup.Items(r[i..], v) == EventGroup.Items(waiting[i..], itemValue)[1..]
  {
  }

  lemma WalkEnd(ws: seq<Waiter>, k: nat, waiting: seq<int>, i: nat)
    ensures k == |ws| ==> ws[..k] == ws
    ensures i == |waiting| ==> waiting[..i] == waiting
  {
  }

  lemma WalkStart(ws: seq<Waiter>, bits: bv32, waiting: seq<int>, results: map<int, bv32>)
    ensures ws[..0] == [] && waiting[..0] == [] && ws[0..] == ws && waiting[0..] == waiting
    ensures Left(ws[..0], bits) == [] && Cleared(ws[..0], bits) == 0 && WithResults(results, ws[..0], bits) == results
  {
  }

  lemma WalkStep(ws: seq<Waiter>, k: nat, bits: bv32, results: map<int, bv32>)
    requires k < |ws|
    ensures var m := Matches(bits, ws[k].value);
            && Left(ws[..k + 1], bits) == Left(ws[..k], bits) + (if m then [] else [ws[k]])
            && Cleared(ws[..k + 1], bits) == Union(Cleared(ws[..k], bits), if m then Clears(ws[k].value) else 0)
            && WithResults(results, ws[..k + 1], bits) ==
               if m then WithResults(results, ws[..k], bits)[ws[k].task := Result(bits)]
                 else WithResults(results, ws[..k], bits)
  {
    hide Matches, Clears, Result, Union;
    assert ws[..k + 1][..k] == ws[..k];
  }
}
