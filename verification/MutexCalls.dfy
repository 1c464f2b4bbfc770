/**
 What each mutex call does to holders, waiters and priorities, and what follows for runs: one holder at a
 time, nobody forgotten on a free mutex, and an inherited priority given back.
 */
module MutexCalls {
  import opened Basics
  import opened ListSpec
  import opened KernelSpec
  import opened KernelRuns
  import opened MutexSpec

  // ---------------------------------------------------------------- one holder at a time

  /** The step takes mutex m. */
  predicate Takes(s: MutexSpec.State, e: Step, m: int) {
    e.Take? && e.task in s.phases && !s.phases[e.task].Idle? && s.phases[e.task].mutex == m
  }

  lemma TakeHolds(s: MutexSpec.State, t: int)
    requires MutexSpec.Good(s) && MutexSpec.Enabled(s, Take(t))
    ensures t in s.phases && !s.phases[t].Idle? && s.phases[t].mutex in s.mutexes
    ensures var u, m := MutexSpec.Apply(s, Take(t)), s.phases[t].mutex;
            && m in u.mutexes && u.mutexes[m].holder == Some(t) && !u.mutexes[m].available
            && u.mutexes[m].waiters == s.mutexes[m].waiters && s.mutexes[m].holder == None
            && PrioOf(u.held, t) == PrioOf(s.held, t) + 1 && PhaseOf(u, t).Idle? && u.kernel == s.kernel
  {
    hide MutexSpec.Good, MutexSpec.Enabled, MutexSpec.Apply;
    TakeWritten(s, t);
    TakeFree(s, t);
  }

  lemma TakeFree(s: MutexSpec.State, t: int)
    requires MutexSpec.Good(s) && MutexSpec.Enabled(s, Take(t))
    ensures t in s.phases && s.phases[t].Trying? && s.phases[t].mutex in s.mutexes
    ensures s.mutexes[s.phases[t].mutex].available && s.mutexes[s.phases[t].mutex].holder == None
  {
    hide KernelRuns.Good, HeldOk, ListsOk, ProtectedAll, PrioOk;
  }

  /** Mutexes other than the one taken or given keep their holder. */
  lemma StepHolder(s: MutexSpec.State, e: Step, m: int)
    requires MutexSpec.Good(s) && MutexSpec.Enabled(s, e) && m in s.mutexes && s.mutexes[m].holder.Some?
    requires e != Give(s.mutexes[m].holder.value, m)
    ensures m in MutexSpec.Apply(s, e).mutexes && MutexSpec.Apply(s, e).mutexes[m].holder == s.mutexes[m].holder
    ensures !Takes(s, e, m)
  {
    hide MutexSpec.Good, MutexSpec.Enabled, MutexSpec.Apply, KernelRuns.Apply;
    match e
    case Take(t) =>
      TakeWritten(s, t);
      TakeFree(s, t);
    case Block(t) => BlockWritten(s, t);
    case Give(t, l) =>
      GiveWritten(s, t, l);
      GiveHolder(s, t, l);
    case Leave(t) => LeaveWritten(s, t);
    case _ => OtherSteps(s, e);
  }

  lemma GiveHolder(s: MutexSpec.State, t: int, m: int)
    requires MutexSpec.Good(s) && MutexSpec.Enabled(s, Give(t, m))
    ensures m in s.mutexes && s.mutexes[m].holder == Some(t)
  {
  }

  /** The steps that take or give nothing, block nobody and relieve nobody. */
  lemma OtherSteps(s: MutexSpec.State, e: Step)
    requires MutexSpec.Good(s) && MutexSpec.Enabled(s, e)
    requires e.Call? || e.Poll? || e.Timeout? || e.Expire? || e.Elsewhere?
    ensures var u := MutexSpec.Apply(s, e);
            && u.held == s.held && u.base == s.base && u.mutexes.Keys == s.mutexes.Keys
            && u.kernel.prio == s.kernel.prio && |u.kernel.ready| == Limit(s)
            && (forall l :: l in s.mutexes ==> u.mutexes[l] == s.mutexes[l].(waiters := u.mutexes[l].waiters))
            && (!e.Timeout? ==> u.mutexes == s.mutexes)
            && (e.Elsewhere? ==> u.phases == s.phases)
  {
    hide KernelRuns.Good, KernelRuns.Enabled, HeldOk, ProtectedAll, PrioOk, Without;
    if e.Elsewhere? {
      KeepsLimit(s, e.op);
    } else {
      StepKnown(s, e);
    }
  }

  lemma KeepsLimit(s: MutexSpec.State, op: Op)
    requires MutexSpec.Good(s) && MutexSpec.Enabled(s, Elsewhere(op))
    ensures KernelRuns.Enabled(s.kernel, op) && KernelRuns.Good(s.kernel)
    ensures |KernelRuns.Apply(s.kernel, op).ready| == Limit(s)
  {
    hide KernelRuns.Good, KernelRuns.Enabled, KernelRuns.Apply, HeldOk, ProtectedAll, PrioOk, HolderOk, ListsOk,
         PhasesOk;
    SamePriorities(s.kernel, op);
  }

  /**
   Mutual exclusion. From the step in which a task takes a mutex to the one in which it gives it back, it is
   the holder, the mutex is not available, and nobody else takes it.
   */
  lemma {:induction false} OneHolder(states: seq<MutexSpec.State>, steps: seq<Step>, i: nat, j: nat, m: int)
    requires MutexSpec.Run(states, steps) && i < j <= |steps| && Takes(states[i], steps[i], m)
    requires forall k :: i < k < j ==> steps[k] != Give(steps[i].task, m)
    ensures m in states[j].mutexes && states[j].mutexes[m].holder == Some(steps[i].task)
    ensures !states[j].mutexes[m].available
    ensures j < |steps| ==> !Takes(states[j], steps[j], m)
  {
    hide MutexSpec.Good, MutexSpec.Enabled, MutexSpec.Apply;
    MutexSpec.RunGood(states, steps, j - 1);
    MutexSpec.RunGood(states, steps, j);
    if j == i + 1 {
      TakesIt(states[i], steps[i], m);
    } else {
      OneHolder(states, steps, i, j - 1, m);
      StepHolder(states[j - 1], steps[j - 1], m);
    }
    HeldNotFree(states[j], m);
    if j < |steps| && steps[j] != Give(steps[i].task, m) {
      StepHolder(states[j], steps[j], m);
    } else if j < |steps| {
      GiveTakesNothing(states[j], steps[j], m);
    }
  }

  lemma TakesIt(s: MutexSpec.State, e: Step, m: int)
    requires MutexSpec.Good(s) && MutexSpec.Enabled(s, e) && Takes(s, e, m)
    ensures m in MutexSpec.Apply(s, e).mutexes && MutexSpec.Apply(s, e).mutexes[m].holder == Some(e.task)
  {
    hide MutexSpec.Good, MutexSpec.Enabled, MutexSpec.Apply;
    TakeHolds(s, e.task);
  }

  lemma GiveTakesNothing(s: MutexSpec.State, e: Step, m: int)
    requires e.Give?
    ensures !Takes(s, e, m)
  {
  }

  lemma HeldNotFree(s: MutexSpec.State, m: int)
    requires MutexSpec.Good(s) && m in s.mutexes && s.mutexes[m].holder.Some?
    ensures !s.mutexes[m].available
  {
  }

  // ---------------------------------------------------------------- nobody is forgotten

  /** A free mutex that somebody waits for has been handed to somebody: a task is awake and about to take it. */
  ghost predicate Claimed(s: MutexSpec.State) {
    forall m :: m in s.mutexes && s.mutexes[m].available && s.mutexes[m].waiters != [] ==> ClaimedAt(s, m)
  }

  ghost predicate ClaimedAt(s: MutexSpec.State, m: int) {
    exists t :: t in s.phases && s.phases[t].Trying? && s.phases[t].mutex == m
  }

  /** Giving a mutex wakes the most urgent waiter, to try again, and only that one. */
  lemma GiveWakesHead(s: MutexSpec.State, t: int, m: int)
    requires MutexSpec.Good(s) && MutexSpec.Enabled(s, Give(t, m)) && s.mutexes[m].waiters != []
    ensures var u, xs := MutexSpec.Apply(s, Give(t, m)), s.mutexes[m].waiters;
            && m in u.mutexes && u.mutexes[m].available && u.mutexes[m].holder == None
            && u.mutexes[m].waiters == xs[1..]
            && xs[0].owner in u.phases && u.phases[xs[0].owner].Trying? && u.phases[xs[0].owner].mutex == m
            && (forall i :: 0 <= i < |xs| ==> Prio(s.kernel, xs[i].owner) <= Prio(s.kernel, xs[0].owner))
            && (forall x :: x != xs[0].owner ==> PhaseOf(u, x) == PhaseOf(s, x))
  {
    hide MutexSpec.Good, MutexSpec.Enabled, MutexSpec.Apply, Prio;
    GiveWritten(s, t, m);
    HighestIsMost(s, m);
    HeadPhase(s, m);
  }

  lemma HeadPhase(s: MutexSpec.State, m: int)
    requires MutexSpec.Good(s) && m in s.mutexes && s.mutexes[m].waiters != []
    ensures var t := s.mutexes[m].waiters[0].owner; t in s.phases && s.phases[t].Waiting? && s.phases[t].mutex == m
  {
    hide KernelRuns.Good, HeldOk, HolderOk, ProtectedAll, PrioOk, ListsOk;
    ListAt(s, m);
  }

  lemma GiveClaimed(s: MutexSpec.State, t: int, m: int)
    requires MutexSpec.Good(s) && MutexSpec.Enabled(s, Give(t, m)) && Claimed(s)
    ensures Claimed(MutexSpec.Apply(s, Give(t, m)))
  {
    hide MutexSpec.Good, MutexSpec.Enabled, MutexSpec.Apply, Prio, Disinherit;
    GiveWritten(s, t, m);
    if s.mutexes[m].waiters != [] {
      GiveWakesHead(s, t, m);
      HeadPhase(s, m);
    }
    var u := MutexSpec.Apply(s, Give(t, m));
    forall l | l in u.mutexes && u.mutexes[l].available && u.mutexes[l].waiters != []
      ensures ClaimedAt(u, l)
    {
      if l != m {
        var x :| x in s.phases && s.phases[x].Trying? && s.phases[x].mutex == l;
        assert u.phases[x] == s.phases[x];
      }
    }
  }

  lemma TakeClaimed(s: MutexSpec.State, t: int)
    requires MutexSpec.Good(s) && MutexSpec.Enabled(s, Take(t)) && Claimed(s)
    ensures Claimed(MutexSpec.Apply(s, Take(t)))
  {
    hide MutexSpec.Good, MutexSpec.Enabled, MutexSpec.Apply;
    TakeWritten(s, t);
    TakeFree(s, t);
    var u := MutexSpec.Apply(s, Take(t));
    forall l | l in u.mutexes && u.mutexes[l].available && u.mutexes[l].waiters != []
      ensures ClaimedAt(u, l)
    {
      var x :| x in s.phases && s.phases[x].Trying? && s.phases[x].mutex == l;
      assert u.phases[x] == s.phases[x];
    }
  }

  predicate MayTake(s: MutexSpec.State, t: int) {
    t in s.phases && s.phases[t].Trying? && s.phases[t].mutex in s.mutexes && s.mutexes[s.phases[t].mutex].available
  }

  /** The step changes one task's phase, and that task, if it was about to take a mutex, found it taken. */
  lemma PhaseClaimed(s: MutexSpec.State, u: MutexSpec.State, t: int)
    requires Claimed(s) && u.mutexes.Keys == s.mutexes.Keys
    requires forall l :: l in s.mutexes && u.mutexes[l].available ==> s.mutexes[l].available
    requires forall l :: l in s.mutexes && u.mutexes[l].available && u.mutexes[l].waiters != [] ==>
      s.mutexes[l].waiters != []
    requires forall x :: x in s.phases && x != t ==> x in u.phases && u.phases[x] == s.phases[x]
    requires MayTake(s, t) ==> t in u.phases && u.phases[t] == s.phases[t]
    ensures Claimed(u)
  {
    forall l | l in u.mutexes && u.mutexes[l].available && u.mutexes[l].waiters != []
      ensures ClaimedAt(u, l)
    {
      var x :| x in s.phases && s.phases[x].Trying? && s.phases[x].mutex == l;
    }
  }

  lemma OtherClaimed(s: MutexSpec.State, e: Step)
    requires MutexSpec.Good(s) && MutexSpec.Enabled(s, e) && Claimed(s)
    requires e.Call? || e.Poll? || e.Timeout? || e.Expire?
    ensures Claimed(MutexSpec.Apply(s, e))
  {
    hide KernelRuns.Good, HeldOk, ListsOk, ProtectedAll, PrioOk, Claimed, Without;
    OtherSteps(s, e);
    StepKnown(s, e);
    var u := MutexSpec.Apply(s, e);
    if e.Timeout? {
      WithoutNothing(s.mutexes[s.phases[e.task].mutex].waiters, e.task);
    }
    PhaseClaimed(s, u, e.task);
  }

  lemma WithoutNothing(xs: seq<Item>, t: int)
    ensures xs == [] ==> Without(xs, t) == []
  {
  }

  lemma StepClaimed(s: MutexSpec.State, e: Step)
    requires MutexSpec.Good(s) && MutexSpec.Enabled(s, e) && Claimed(s)
    ensures Claimed(MutexSpec.Apply(s, e))
  {
    hide MutexSpec.Good, MutexSpec.Enabled, MutexSpec.Apply, Claimed, Inherit, DisinheritTo, InsertSorted;
    match e
    case Take(t) => TakeClaimed(s, t);
    case Give(t, m) => GiveClaimed(s, t, m);
    case Block(t) =>
      BlockWritten(s, t);
      HeldNotFree(s, s.phases[t].mutex);
      PhaseClaimed(s, MutexSpec.Apply(s, e), t);
    case Leave(t) =>
      LeaveWritten(s, t);
      PhaseClaimed(s, MutexSpec.Apply(s, e), t);
    case Elsewhere(_) =>
      OtherSteps(s, e);
      SameClaimed(s, MutexSpec.Apply(s, e));
    case _ => OtherClaimed(s, e);
  }

  lemma SameClaimed(s: MutexSpec.State, u: MutexSpec.State)
    requires Claimed(s) && u.mutexes == s.mutexes && u.phases == s.phases
    ensures Claimed(u)
  {
    assert forall m :: ClaimedAt(s, m) ==> ClaimedAt(u, m);
  }

  /**
   No waiter is forgotten: in every run, whenever a mutex is free and a task waits for it, some task is awake
   and about to take it.
   */
  lemma {:induction false} FreeMutexIsClaimed(states: seq<MutexSpec.State>, steps: seq<Step>, k: nat, m: int)
    requires MutexSpec.Run(states, steps) && k <= |steps| && Claimed(states[0])
    ensures Claimed(states[k])
    ensures m in states[k].mutexes && states[k].mutexes[m].available && states[k].mutexes[m].waiters != [] ==>
      exists t :: t in states[k].phases && states[k].phases[t].Trying? && states[k].phases[t].mutex == m
  {
    hide MutexSpec.Good, MutexSpec.Enabled, MutexSpec.Apply;
    if k > 0 {
      FreeMutexIsClaimed(states, steps, k - 1, m);
      MutexSpec.RunGood(states, steps, k - 1);
      StepClaimed(states[k - 1], steps[k - 1]);
    }
    if m in states[k].mutexes && states[k].mutexes[m].available && states[k].mutexes[m].waiters != [] {
      assert ClaimedAt(states[k], m);
    }
  }

  // ---------------------------------------------------------------- priorities

  function Greater(a: int, b: int): (c: int)
    ensures c >= a && c >= b && (c == a || c == b)
  {
    if a < b then b else a
  }

  /** Every task but t has the priority it had. */
  ghost predicate OthersKeep(k: KernelSpec.State, l: KernelSpec.State, t: int) {
    forall x :: x != t ==> Prio(l, x) == Prio(k, x)
  }

  /**
   Blocking raises the holder to the blocked task's priority, or leaves it where it is if that is no lower,
   and changes no other priority. The wait counts as inherited exactly if the task is more urgent than the
   holder's base priority.
   */
  lemma BlockRaises(s: MutexSpec.State, t: int)
    requires MutexSpec.Good(s) && MutexSpec.Enabled(s, Block(t))
    ensures t in s.phases && s.phases[t].Trying? && s.phases[t].mutex in s.mutexes
    ensures s.mutexes[s.phases[t].mutex].holder.Some?
    ensures var u, m := MutexSpec.Apply(s, Block(t)), s.phases[t].mutex;
            var h := s.mutexes[m].holder.value;
            && Prio(u.kernel, h) == Greater(Prio(s.kernel, h), Prio(s.kernel, t)) && OthersKeep(s.kernel, u.kernel, h)
            && PhaseOf(u, t) == Waiting(m, PrioOf(s.base, h) < Prio(s.kernel, t)) && u.held == s.held
            && u.base == s.base
            && m in u.mutexes
            && (forall l :: l in s.mutexes && l != m ==> l in u.mutexes && u.mutexes[l] == s.mutexes[l])
            && Item(Limit(s) - Prio(s.kernel, t), t) in u.mutexes[m].waiters && t in u.mutexes[m].since
            && (forall x :: x in s.mutexes[m].waiters ==> x in u.mutexes[m].waiters)
  {
    hide MutexSpec.Good, MutexSpec.Enabled, MutexSpec.Apply, InsertSorted, SetPrio;
    BlockWritten(s, t);
    var m := s.phases[t].mutex;
    var h := s.mutexes[m].holder.value;
    BaseBelow(s, h);
    var x := Item(Limit(s) - Prio(s.kernel, t), t);
    InsertMembers(s.mutexes[m].waiters, x, x);
    forall y | y in s.mutexes[m].waiters
      ensures y in InsertSorted(s.mutexes[m].waiters, x)
    {
      InsertMembers(s.mutexes[m].waiters, x, y);
    }
  }

  lemma BaseBelow(s: MutexSpec.State, t: int)
    requires MutexSpec.Good(s) && t in s.kernel.prio
    ensures PrioOf(s.base, t) <= Prio(s.kernel, t)
  {
    hide KernelRuns.Good, HeldOk, HolderOk, ProtectedAll, ListsOk, PhasesOk;
  }

  /** Giving back the last mutex gives back the base priority; before that it stays. Nobody else's changes. */
  lemma GiveRestores(s: MutexSpec.State, t: int, m: int)
    requires MutexSpec.Good(s) && MutexSpec.Enabled(s, Give(t, m))
    ensures var u := MutexSpec.Apply(s, Give(t, m));
            && PrioOf(u.held, t) == PrioOf(s.held, t) - 1 && u.base == s.base
            && Prio(u.kernel, t) == (if PrioOf(u.held, t) == 0 then PrioOf(s.base, t) else Prio(s.kernel, t))
            && OthersKeep(s.kernel, u.kernel, t)
            && (forall l :: l in s.mutexes && l != m ==> l in u.mutexes && u.mutexes[l] == s.mutexes[l])
  {
    hide MutexSpec.Good, MutexSpec.Enabled, MutexSpec.Apply, SetPrio;
    GiveWritten(s, t, m);
  }

  /** Whether p is the greatest priority of the tasks waiting for a mutex and of b. */
  ghost predicate GreatestOf(s: MutexSpec.State, m: int, b: int, p: int)
    requires m in s.mutexes
  {
    var xs := s.mutexes[m].waiters;
    && b <= p && (forall i :: 0 <= i < |xs| ==> Prio(s.kernel, xs[i].owner) <= p)
    && (p == b || exists i :: 0 <= i < |xs| && Prio(s.kernel, xs[i].owner) == p)
  }

  /**
   Giving up after a wait that made a holder inherit brings the holder of one mutex to the greatest of its
   base priority and those of the tasks still waiting; a holder of several keeps its priority, and so does
   everybody else.
   */
  lemma LeaveLowers(s: MutexSpec.State, t: int)
    requires MutexSpec.Good(s) && MutexSpec.Enabled(s, Leave(t))
    ensures t in s.phases && s.phases[t].Expired? && s.phases[t].mutex in s.mutexes
    ensures var u, m := MutexSpec.Apply(s, Leave(t)), s.phases[t].mutex;
            var h := s.mutexes[m].holder;
            && PhaseOf(u, t).Idle? && u.mutexes == s.mutexes && u.held == s.held
            && (!s.phases[t].inherited || h.None? ==> u.kernel == s.kernel)
            && (s.phases[t].inherited && h.Some? ==>
                  && OthersKeep(s.kernel, u.kernel, h.value)
                  && (PrioOf(s.held, h.value) != 1 ==> Prio(u.kernel, h.value) == Prio(s.kernel, h.value))
                  && (PrioOf(s.held, h.value) == 1 ==>
                        GreatestOf(s, m, PrioOf(s.base, h.value), Prio(u.kernel, h.value))))
  {
    hide MutexSpec.Good, MutexSpec.Enabled, MutexSpec.Apply, SetPrio, HighestWaiting;
    LeaveWritten(s, t);
    HighestIsMost(s, s.phases[t].mutex);
    NobodyIdle(s, s.phases[t].mutex);
  }

  lemma NobodyIdle(s: MutexSpec.State, m: int)
    requires m in s.mutexes
    ensures s.mutexes[m].waiters == [] ==> HighestWaiting(Limit(s), s.mutexes[m]) == 0
  {
  }

  /** No other step changes anybody's priority. */
  lemma OthersKeepPriorities(s: MutexSpec.State, e: Step)
    requires MutexSpec.Good(s) && MutexSpec.Enabled(s, e) && !e.Block? && !e.Give? && !e.Leave?
    ensures MutexSpec.Apply(s, e).kernel.prio == s.kernel.prio
  {
    hide MutexSpec.Good, MutexSpec.Enabled, MutexSpec.Apply;
    if e.Take? {
      TakeWritten(s, e.task);
    } else {
      OtherSteps(s, e);
    }
  }

  // ---------------------------------------------------------------- a wait from its beginning to its end

  /** A step by which task t begins or ends something other than running out of time. */
  predicate OwnStep(e: Step, t: int) {
    (e.Call? || e.Take? || e.Poll? || e.Block? || e.Leave?) && e.task == t
  }

  /** Task t is in a call on mutex m, blocked, woken or out of time, with the given mark. */
  ghost predicate InCall(s: MutexSpec.State, t: int, m: int, inherited: bool) {
    t in s.phases && !s.phases[t].Idle? && s.phases[t].mutex == m && s.phases[t].inherited == inherited
  }

  lemma StepInCall(s: MutexSpec.State, e: Step, t: int, m: int, inherited: bool)
    requires MutexSpec.Good(s) && MutexSpec.Enabled(s, e) && InCall(s, t, m, inherited) && !OwnStep(e, t)
    ensures InCall(MutexSpec.Apply(s, e), t, m, inherited)
  {
    hide MutexSpec.Good, MutexSpec.Enabled, MutexSpec.Apply;
    match e
    case Take(x) => TakeWritten(s, x);
    case Block(x) => BlockWritten(s, x);
    case Give(x, l) =>
      GiveWritten(s, x, l);
    case Leave(x) => LeaveWritten(s, x);
    case _ => OtherPhases(s, e, t);
  }

  lemma OtherPhases(s: MutexSpec.State, e: Step, t: int)
    requires MutexSpec.Good(s) && MutexSpec.Enabled(s, e) && t in s.phases && !s.phases[t].Idle? && !OwnStep(e, t)
    requires e.Call? || e.Poll? || e.Timeout? || e.Expire? || e.Elsewhere?
    ensures var u := MutexSpec.Apply(s, e);
            && t in u.phases && !u.phases[t].Idle? && u.phases[t].mutex == s.phases[t].mutex
            && u.phases[t].inherited == s.phases[t].inherited
  {
    hide KernelRuns.Good, KernelRuns.Enabled, HeldOk, ProtectedAll, PrioOk, Without, ListsOk, HolderOk;
  }

  lemma {:induction false} InCallAlong(states: seq<MutexSpec.State>, steps: seq<Step>, i: nat, j: nat, t: int, m: int,
                                       inherited: bool)
    requires MutexSpec.Run(states, steps) && i <= j <= |steps| && InCall(states[i], t, m, inherited)
    requires forall k :: i <= k < j ==> !OwnStep(steps[k], t)
    ensures InCall(states[j], t, m, inherited)
  {
    hide MutexSpec.Good, MutexSpec.Enabled, MutexSpec.Apply, InCall;
    if i < j {
      InCallAlong(states, steps, i, j - 1, t, m, inherited);
      MutexSpec.RunGood(states, steps, j - 1);
      StepInCall(states[j - 1], steps[j - 1], t, m, inherited);
    }
  }

  /**
   A wait that ends with a timeout is undone. If a task blocks in step i, more urgent than the base priority
   of the holder it finds, and gives up in step j, then a holder of no other mutex ends with the greatest of
   its base priority and those of the tasks still waiting.
   */
  lemma TimedOutWaitIsUndone(states: seq<MutexSpec.State>, steps: seq<Step>, i: nat, j: nat, m: int, h: int, g: int)
    requires MutexSpec.Run(states, steps) && i < j < |steps| && steps[i].Block? && steps[j] == Leave(steps[i].task)
    requires forall k :: i < k < j ==> !OwnStep(steps[k], steps[i].task)
    requires steps[i].task in states[i].phases && states[i].phases[steps[i].task].Trying?
    requires states[i].phases[steps[i].task].mutex == m
    requires m in states[i].mutexes && states[i].mutexes[m].holder == Some(h)
    requires PrioOf(states[i].base, h) < Prio(states[i].kernel, steps[i].task)
    requires m in states[j].mutexes && states[j].mutexes[m].holder == Some(g) && PrioOf(states[j].held, g) == 1
    ensures GreatestOf(states[j], m, PrioOf(states[j].base, g), Prio(states[j + 1].kernel, g))
    ensures OthersKeep(states[j].kernel, states[j + 1].kernel, g)
  {
    hide MutexSpec.Good, MutexSpec.Enabled, MutexSpec.Apply, OwnStep, GreatestOf, OthersKeep, Prio;
    var t := steps[i].task;
    MutexSpec.RunGood(states, steps, i);
    MutexSpec.RunGood(states, steps, j);
    BlockRaises(states[i], t);
    InCallAlong(states, steps, i + 1, j, t, m, true);
    LeaveLowers(states[j], t);
  }

  // ---------------------------------------------------------------- who blocked during a holding

  lemma StepSince(s: MutexSpec.State, e: Step, m: int, t: int)
    requires MutexSpec.Good(s) && MutexSpec.Enabled(s, e) && m in s.mutexes
    requires t in s.mutexes[m].since && !Takes(s, e, m)
    ensures m in MutexSpec.Apply(s, e).mutexes && t in MutexSpec.Apply(s, e).mutexes[m].since
  {
    hide MutexSpec.Good, MutexSpec.Enabled, MutexSpec.Apply;
    match e
    case Take(x) =>
      TakeWritten(s, x);
      TakeFree(s, x);
    case Block(x) => BlockWritten(s, x);
    case Give(x, l) => GiveWritten(s, x, l);
    case Leave(x) => LeaveWritten(s, x);
    case _ => OtherSteps(s, e);
  }

  lemma {:induction false} SinceAlong(states: seq<MutexSpec.State>, steps: seq<Step>, i: nat, j: nat, m: int, t: int)
    requires MutexSpec.Run(states, steps) && i <= j <= |steps| && m in states[i].mutexes
    requires t in states[i].mutexes[m].since
    requires forall k :: i <= k < j ==> !Takes(states[k], steps[k], m)
    ensures m in states[j].mutexes && t in states[j].mutexes[m].since
  {
    hide MutexSpec.Good, MutexSpec.Enabled, MutexSpec.Apply, Takes;
    if i < j {
      SinceAlong(states, steps, i, j - 1, m, t);
      MutexSpec.RunGood(states, steps, j - 1);
      StepSince(states[j - 1], steps[j - 1], m, t);
    }
  }

  /**
   Priority inheritance, in terms of the run: if a task blocks on a mutex in step i, and nobody takes the mutex
   from there to step j, then as long as the task still waits the holder is at least as urgent as it.
   */
  lemma HolderKeepsUp(states: seq<MutexSpec.State>, steps: seq<Step>, i: nat, j: nat, m: int, x: nat)
    requires MutexSpec.Run(states, steps) && i < j <= |steps| && steps[i].Block?
    requires steps[i].task in states[i].phases && !states[i].phases[steps[i].task].Idle?
    requires states[i].phases[steps[i].task].mutex == m
    requires forall k :: i < k < j ==> !Takes(states[k], steps[k], m)
    requires m in states[j].mutexes && states[j].mutexes[m].holder.Some?
    requires x < |states[j].mutexes[m].waiters| && states[j].mutexes[m].waiters[x].owner == steps[i].task
    ensures Prio(states[j].kernel, states[j].mutexes[m].holder.value) >= Prio(states[j].kernel, steps[i].task)
  {
    hide MutexSpec.Good, MutexSpec.Enabled, MutexSpec.Apply, Takes, Prio;
    MutexSpec.RunGood(states, steps, i);
    BlockRaises(states[i], steps[i].task);
    SinceAlong(states, steps, i + 1, j, m, steps[i].task);
    HolderIsUrgent(states, steps, j, m, x);
  }

  // ---------------------------------------------------------------- the phases of a call

  /**
   A call begins trying, not having made anybody inherit; a poll of a mutex that is taken ends it; running out
   of time takes the task off the list, to try once more, and if the mutex is taken still, to give up.
   */
  lemma CallPhases(s: MutexSpec.State, e: Step)
    requires MutexSpec.Good(s) && MutexSpec.Enabled(s, e) && (e.Call? || e.Poll? || e.Timeout? || e.Expire?)
    ensures var u, p := MutexSpec.Apply(s, e), PhaseOf(s, e.task);
            && (forall x :: x != e.task ==> PhaseOf(u, x) == PhaseOf(s, x))
            && (e.Call? ==> PhaseOf(u, e.task) == Trying(e.mutex, false))
            && (e.Poll? ==> PhaseOf(u, e.task) == Idle)
            && (e.Timeout? ==> !p.Idle? && PhaseOf(u, e.task) == Trying(p.mutex, p.inherited))
            && (e.Expire? ==> !p.Idle? && PhaseOf(u, e.task) == Expired(p.mutex, p.inherited))
  {
    hide KernelRuns.Good, HeldOk, ProtectedAll, PrioOk, Without, ListsOk, HolderOk;
  }

  /** A timeout takes exactly its task off the mutex's list. */
  lemma TimeoutLeavesList(s: MutexSpec.State, t: int, x: Item)
    requires MutexSpec.Good(s) && MutexSpec.Enabled(s, Timeout(t))
    ensures t in s.phases && !s.phases[t].Idle? && s.phases[t].mutex in s.mutexes
    ensures var u, m := MutexSpec.Apply(s, Timeout(t)), s.phases[t].mutex;
            && m in u.mutexes && (x in u.mutexes[m].waiters <==> x in s.mutexes[m].waiters && x.owner != t)
            && (forall l :: l in s.mutexes && l != m ==> l in u.mutexes && u.mutexes[l] == s.mutexes[l])
  {
    hide KernelRuns.Good, HeldOk, ProtectedAll, PrioOk, Without, ListsOk, HolderOk, Distinct;
    StepKnown(s, Timeout(t));
    ListAt(s, s.phases[t].mutex);
    WithoutIs(s.mutexes[s.phases[t].mutex].waiters, t, x);
  }
}
