/** The virtual runtimes of threads that are always ready stay within the largest single charge. */
module SchedSpread {
  import opened Common
  import opened SchedModel
  import opened SchedLists
  import opened SchedInvariant
  import opened SchedSelect
  import opened SchedSteps
  import opened SchedFair

  /** The most a thread of this weight can be charged at once. */
  function MaxCharge(p: Proc): nat {
    var weight := if p.weight == 0 then DEFAULT_WEIGHT else p.weight;
    var most := Timeslice(MAX_PRIORITY) * BASE_WEIGHT / weight;
    if most == 0 then 1 else most
  }

  lemma DivMono(a: nat, b: nat, d: nat)
    requires a <= b && d > 0
    ensures a / d <= b / d
  {
    QuotientTimes(a, d);
    QuotientTimes(b, d);
    var q := b / d + 1;
    var m := if a / d > q then a / d else q;
    MulLe(q, m, d);
  }

  lemma QuotientTimes(a: nat, d: nat)
    requires d > 0
    ensures a / d * d <= a < (a / d + 1) * d
  {
    assert a == a / d * d + a % d;
  }

  lemma MulLe(a: nat, b: nat, d: nat)
    requires a <= b
    ensures a * d <= b * d
  {
  }

  lemma ChargeBounded(p: Proc)
    requires Sane(p)
    ensures Charge(p) <= MaxCharge(p)
  {
    var used := if p.remaining <= p.ticks then p.ticks - p.remaining else p.ticks;
    var weight := if p.weight == 0 then DEFAULT_WEIGHT else p.weight;
    MulLe(used, Timeslice(MAX_PRIORITY), BASE_WEIGHT);
    DivMono(used * BASE_WEIGHT, Timeslice(MAX_PRIORITY) * BASE_WEIGHT, weight);
  }

  /** The threads `group` are fair, ready or running, and charged at most `limit` at once. */
  ghost predicate Busy(s: State, group: set<nat>, limit: nat) {
    forall a :: a in group ==>
      && a < |s.procs| && a != IDLE && s.procs[a].state in {Ready, Running} && s.procs[a].policy.Fair?
      && MaxCharge(s.procs[a]) <= limit
  }

  ghost predicate Within(s: State, group: set<nat>, limit: nat) {
    forall a, b :: a in group && b in group && a < |s.procs| && b < |s.procs| ==> s.procs[a].vruntime <= s.procs[b].vruntime + limit
  }

  /** A group member that runs, or has not been charged yet, is one with the least runtime. */
  ghost predicate RunsLeast(s: State, group: set<nat>) {
    s.current.Some? && s.current.value in group && s.current.value < |s.procs| ==>
      forall b :: b in group && b < |s.procs| ==> s.procs[s.current.value].vruntime <= s.procs[b].vruntime
  }

  ghost predicate Spread(s: State, group: set<nat>, limit: nat) {
    Busy(s, group, limit) && Within(s, group, limit) && RunsLeast(s, group)
  }

  lemma SpreadSame(s: State, s': State, group: set<nat>, limit: nat)
    requires Spread(s, group, limit) && Busy(s', group, limit) && |s'.procs| == |s.procs| && s'.current == s.current
    requires forall a :: a in group ==> s'.procs[a].vruntime == s.procs[a].vruntime
    ensures Spread(s', group, limit)
  {
  }

  /** Creating and configuring leave the runtimes of the group alone. */
  lemma OtherSteps(s: State, step: Step, group: set<nat>, limit: nat)
    requires Ok(s) && Enabled(s, step) && Busy(s, group, limit) && !step.Dispatch?
    ensures |Next(s, step).procs| == |s.procs| && Next(s, step).current == s.current
    ensures forall a :: a in group ==> Next(s, step).procs[a].vruntime == s.procs[a].vruntime
  {
    if step.Create? {
      OkParts(s);
      hide Ok, Held;
    } else if step.Configure? {
      hide Ok, Held;
    } else {
      StepSame(s, step);
      hide Ok, Next;
      forall a | a in group
        ensures Next(s, step).procs[a].vruntime == s.procs[a].vruntime
      {
        assert SameAt(s, Next(s, step), a);
      }
    }
  }

  /** When the scheduler loop is back, everybody in the group is ready and within the limit. */
  lemma ReturnSpread(s: State, now: nat, group: set<nat>, limit: nat)
    requires Ok(s) && s.phase.Switching? && Spread(s, group, limit) && |Return(s, now).procs| == |s.procs|
    requires forall a :: a in group ==> a < |s.procs| && Live(Return(s, now).procs[a])
    ensures forall a, b :: a in group && b in group ==> Return(s, now).procs[a].vruntime <= Return(s, now).procs[b].vruntime + limit
    ensures forall a :: a in group ==> Return(s, now).procs[a].policy.Fair?
  {
    var r := Return(s, now);
    hide Return;
    forall a | a in group
      ensures r.procs[a].vruntime == Charged(s, a) && r.procs[a].policy.Fair?
    {
      ReturnAt(s, now, a);
    }
    hide Ok, Charge;
    forall a | a in group
      ensures s.procs[a].vruntime <= Charged(s, a) <= s.procs[a].vruntime + limit
    {
      GroupSane(s, a);
      ChargeBounded(s.procs[a]);
    }
  }

  lemma GroupSane(s: State, a: nat)
    requires Ok(s) && a < |s.procs|
    ensures Sane(s.procs[a])
  {
  }

  /** A group member that is dispatched has the least runtime of the group. */
  lemma ChosenLeast(r: State, group: set<nat>, c: nat)
    requires Held(r, {}) && InRange(r.procs, Flatten(r.queues)) && c < |r.procs| && c in group && RightChoice(r.procs, r.queues, c)
    requires forall a :: a in group ==> a < |r.procs| && a != IDLE && r.procs[a].state.Ready? && r.procs[a].policy.Fair?
    ensures forall a :: a in group ==> r.procs[c].vruntime <= r.procs[a].vruntime
  {
    var all := Flatten(r.queues);
    hide Flatten;
    forall a | a in group
      ensures r.procs[c].vruntime <= r.procs[a].vruntime
    {
      ReadyIsQueued(r, {}, a);
      FlattenHas(r.queues, a);
      hide Held, Queued;
      var i :| 0 <= i < |all| && all[i] == a;
      assert Eligible(r.procs[all[i]], ByRuntime);
    }
  }

  lemma DispatchSpread(s: State, now: nat, group: set<nat>, limit: nat)
    requires Ok(s) && s.phase.Switching? && Spread(s, group, limit)
    requires InRange(Return(s, now).procs, Flatten(Return(s, now).queues)) && IDLE < |Return(s, now).procs|
    requires Busy(DispatchStep(s, now), group, limit)
    ensures Spread(DispatchStep(s, now), group, limit)
  {
    hide *;
    DispatchIs(s, now);
    var r, t := Return(s, now), DispatchStep(s, now);
    GroupReady(r, t, group, limit);
    ReturnSpread(s, now, group, limit);
    var c := t.current.value;
    if c in group {
      ChosenLeast(r, group, c);
    }
    SpreadIntro(r, t, group, limit);
  }

  lemma SpreadIntro(r: State, t: State, group: set<nat>, limit: nat)
    requires Busy(t, group, limit) && |r.procs| == |t.procs| && forall a :: a in group ==> a < |r.procs|
    requires forall q :: 0 <= q < |r.procs| ==> t.procs[q].vruntime == r.procs[q].vruntime
    requires forall a, b :: a in group && b in group ==> r.procs[a].vruntime <= r.procs[b].vruntime + limit
    requires t.current.Some? && t.current.value in group ==> forall a :: a in group ==> r.procs[t.current.value].vruntime <= r.procs[a].vruntime
    ensures Spread(t, group, limit)
  {
    hide Busy;
  }

  /** Members of a busy group are ready when the choice is made. */
  lemma GroupReady(r: State, t: State, group: set<nat>, limit: nat)
    requires Busy(t, group, limit) && |r.procs| == |t.procs| && t.current.Some? && t.current.value < |t.procs| && Held(r, {})
    requires t.current.value != IDLE ==> r.procs[t.current.value].state.Ready?
    requires forall q :: 0 <= q < |r.procs| && q != t.current.value ==> t.procs[q] == r.procs[q]
    ensures forall a :: a in group ==> a < |r.procs| && a != IDLE && r.procs[a].state.Ready? && Live(r.procs[a])
  {
    forall a | a in group
      ensures a < |r.procs| && a != IDLE && r.procs[a].state.Ready? && Live(r.procs[a])
    {
      assert PlacedAt(r, a);
    }
  }

  /** A run in which the group stays busy. */
  ghost predicate StaysBusy(s: State, steps: seq<Step>, group: set<nat>, limit: nat, t: State)
    decreases |steps|
  {
    if steps == [] then t == s
    else
      && Ok(s) && Enabled(s, steps[0]) && Busy(Next(s, steps[0]), group, limit)
      && StaysBusy(Next(s, steps[0]), steps[1..], group, limit, t)
  }

  /**
   Once the runtimes of always-ready threads are within the largest single charge and the one
   that runs has the least, they stay within it, and every one that runs later has the least.
   */
  lemma {:induction false} SpreadStays(s: State, steps: seq<Step>, group: set<nat>, limit: nat, t: State)
    requires Spread(s, group, limit) && StaysBusy(s, steps, group, limit, t)
    ensures Spread(t, group, limit)
    decreases |steps|
  {
    if steps != [] {
      var step := steps[0];
      if step.Dispatch? {
        DispatchKeeps(s, step.now);
        hide Ok, DispatchStep, Return, Spread, InRange, Flatten, Busy;
        SpreadIs(s, group, limit);
        DispatchSpread(s, step.now, group, limit);
      } else {
        hide Ok, Next, Spread;
        SpreadIs(s, group, limit);
        OtherSteps(s, step, group, limit);
        SpreadSame(s, Next(s, step), group, limit);
      }
      SpreadStays(Next(s, step), steps[1..], group, limit, t);
    }
  }

  lemma SpreadIs(s: State, group: set<nat>, limit: nat)
    requires Spread(s, group, limit)
    ensures Busy(s, group, limit)
  {
  }

  // ---------------------------------------------------------------- from any start within the limit

  lemma ChargedBy(s: State, group: set<nat>, limit: nat, a: nat)
    requires Ok(s) && Busy(s, group, limit) && a in group
    ensures a < |s.procs| && s.procs[a].vruntime <= Charged(s, a) <= s.procs[a].vruntime + limit
  {
    GroupSane(s, a);
    ChargeBounded(s.procs[a]);
    hide Ok, Charge, MaxCharge;
  }

  /** After a dispatch the group has the runtimes it was charged, and a member that runs has the least. */
  lemma DispatchCharges(s: State, now: nat, group: set<nat>, limit: nat)
    requires Ok(s) && s.phase.Switching? && Busy(s, group, limit)
    requires InRange(Return(s, now).procs, Flatten(Return(s, now).queues)) && IDLE < |Return(s, now).procs|
    requires Busy(DispatchStep(s, now), group, limit)
    ensures |DispatchStep(s, now).procs| == |s.procs| && RunsLeast(DispatchStep(s, now), group)
    ensures forall a :: a in group ==> a < |s.procs| && DispatchStep(s, now).procs[a].vruntime == Charged(s, a)
  {
    hide *;
    DispatchIs(s, now);
    var r, t := Return(s, now), DispatchStep(s, now);
    GroupReady(r, t, group, limit);
    forall a | a in group
      ensures a < |s.procs| && r.procs[a].vruntime == Charged(s, a) && r.procs[a].policy.Fair?
    {
      ReturnAt(s, now, a);
      ReturnedParts(s, r, a);
      BusyAt(s, group, limit, a);
    }
    var c := t.current.value;
    if c in group {
      ChosenLeast(r, group, c);
    }
    LeastIntro(r, t, group);
  }

  lemma ReturnedParts(s: State, r: State, q: nat)
    requires ReturnedAt(s, r, q) && q < |r.procs| && Live(r.procs[q])
    ensures q < |s.procs| && r.procs[q].vruntime == Charged(s, q) && r.procs[q].policy == s.procs[q].policy
  {
  }

  lemma BusyAt(s: State, group: set<nat>, limit: nat, a: nat)
    requires Busy(s, group, limit) && a in group
    ensures a < |s.procs| && a != IDLE && s.procs[a].policy.Fair? && s.procs[a].state in {Ready, Running}
  {
  }

  lemma LeastIntro(r: State, t: State, group: set<nat>)
    requires |r.procs| == |t.procs| && forall q :: 0 <= q < |r.procs| ==> t.procs[q].vruntime == r.procs[q].vruntime
    requires t.current.Some? && t.current.value < |t.procs|
    requires t.current.value in group ==> forall a :: a in group ==> a < |r.procs| && r.procs[t.current.value].vruntime <= r.procs[a].vruntime
    ensures RunsLeast(t, group)
  {
  }

  /**
   One dispatch, exactly: a group within the limit is within it afterwards if and only if the
   member that returns, if any, is not charged beyond the limit over any other.
   */
  lemma DispatchWithinIff(s: State, now: nat, group: set<nat>, limit: nat)
    requires Ok(s) && s.phase.Switching? && Busy(s, group, limit) && Within(s, group, limit)
    requires InRange(Return(s, now).procs, Flatten(Return(s, now).queues)) && IDLE < |Return(s, now).procs|
    requires Busy(DispatchStep(s, now), group, limit)
    ensures Within(DispatchStep(s, now), group, limit) <==>
      forall a, b :: a in group && b in group && s.current == Some(a) && a != b && a < |s.procs| && b < |s.procs| ==>
        s.procs[a].vruntime + Charge(s.procs[a]) <= s.procs[b].vruntime + limit
  {
    hide *;
    DispatchCharges(s, now, group, limit);
    forall a | a in group
      ensures a < |s.procs| && a != IDLE && s.procs[a].policy.Fair?
    {
      BusyAt(s, group, limit, a);
    }
    ChargedWithinIff(s, DispatchStep(s, now), group, limit);
  }

  lemma ChargedWithinIff(s: State, t: State, group: set<nat>, limit: nat)
    requires |t.procs| == |s.procs| && Within(s, group, limit)
    requires forall a :: a in group ==> a < |s.procs| && a != IDLE && s.procs[a].policy.Fair? && t.procs[a].vruntime == Charged(s, a)
    ensures Within(t, group, limit) <==>
      forall a, b :: a in group && b in group && s.current == Some(a) && a != b && a < |s.procs| && b < |s.procs| ==>
        s.procs[a].vruntime + Charge(s.procs[a]) <= s.procs[b].vruntime + limit
  {
    hide Charge;
    forall a, b | a in group && b in group && s.current == Some(a) && a != b
      ensures Within(t, group, limit) ==> s.procs[a].vruntime + Charge(s.procs[a]) <= s.procs[b].vruntime + limit
    {
      assert t.procs[a].vruntime == Charged(s, a) && t.procs[b].vruntime == Charged(s, b);
    }
  }

  lemma BusyMore(s: State, group: set<nat>, limit: nat, more: nat)
    requires Busy(s, group, limit) && limit <= more
    ensures Busy(s, group, more)
  {
    hide MaxCharge;
  }

  lemma {:induction false} StaysBusyMore(s: State, steps: seq<Step>, group: set<nat>, limit: nat, more: nat, t: State)
    requires StaysBusy(s, steps, group, limit, t) && limit <= more
    ensures StaysBusy(s, steps, group, more, t)
    decreases |steps|
  {
    if steps != [] {
      hide Ok, Next, Busy;
      BusyMore(Next(s, steps[0]), group, limit, more);
      StaysBusyMore(Next(s, steps[0]), steps[1..], group, limit, more, t);
    }
  }

  /** The first dispatch after any start within the limit: within twice the limit, and the runner has the least. */
  lemma FirstDispatch(s: State, now: nat, group: set<nat>, limit: nat)
    requires Ok(s) && s.phase.Switching? && Busy(s, group, limit) && Within(s, group, limit)
    requires InRange(Return(s, now).procs, Flatten(Return(s, now).queues)) && IDLE < |Return(s, now).procs|
    requires Busy(DispatchStep(s, now), group, limit)
    ensures Spread(DispatchStep(s, now), group, limit + limit)
  {
    DispatchCharges(s, now, group, limit);
    BusyMore(DispatchStep(s, now), group, limit, limit + limit);
    hide Ok, DispatchStep, Return, RunsLeast, InRange, Flatten, Busy, Charged;
    var t := DispatchStep(s, now);
    forall a, b | a in group && b in group && a < |t.procs| && b < |t.procs|
      ensures t.procs[a].vruntime <= t.procs[b].vruntime + (limit + limit)
    {
      ChargedBy(s, group, limit, a);
      ChargedBy(s, group, limit, b);
    }
  }

  /**
   From any start within the limit, whoever runs: the runtimes of always-ready threads stay
   within twice the limit.
   */
  lemma {:induction false} WithinTwice(s: State, steps: seq<Step>, group: set<nat>, limit: nat, t: State)
    requires Busy(s, group, limit) && Within(s, group, limit) && StaysBusy(s, steps, group, limit, t)
    ensures Within(t, group, limit + limit)
    decreases |steps|
  {
    hide *;
    if steps == [] {
      StaysBusyNil(s, group, limit, t);
      WithinMore(s, group, limit);
    } else {
      var step := steps[0];
      StaysBusyCons(s, steps, group, limit, t);
      var u := Next(s, step);
      if step.Dispatch? {
        DispatchKeeps(s, step.now);
        DispatchNext(s, step.now);
        FirstDispatch(s, step.now, group, limit);
        StaysBusyMore(u, steps[1..], group, limit, limit + limit, t);
        SpreadStays(u, steps[1..], group, limit + limit, t);
        SpreadWithin(t, group, limit + limit);
      } else {
        OtherSteps(s, step, group, limit);
        GroupInRange(s, group, limit);
        WithinSame(s, u, group, limit);
        WithinTwice(u, steps[1..], group, limit, t);
      }
    }
  }

  lemma StaysBusyNil(s: State, group: set<nat>, limit: nat, t: State)
    requires StaysBusy(s, [], group, limit, t)
    ensures t == s
  {
  }

  lemma StaysBusyCons(s: State, steps: seq<Step>, group: set<nat>, limit: nat, t: State)
    requires steps != [] && StaysBusy(s, steps, group, limit, t)
    ensures Ok(s) && Enabled(s, steps[0]) && Busy(Next(s, steps[0]), group, limit) && StaysBusy(Next(s, steps[0]), steps[1..], group, limit, t)
    ensures steps[0].Dispatch? ==> s.phase.Switching?
  {
    hide Ok, Next, Busy;
  }

  lemma DispatchNext(s: State, now: nat)
    requires Ok(s) && Enabled(s, Dispatch(now))
    requires InRange(Return(s, now).procs, Flatten(Return(s, now).queues)) && IDLE < |Return(s, now).procs|
    ensures Next(s, Dispatch(now)) == DispatchStep(s, now)
  {
    hide Ok, DispatchStep, Return, Flatten, InRange;
  }

  lemma GroupInRange(s: State, group: set<nat>, limit: nat)
    requires Busy(s, group, limit)
    ensures forall a :: a in group ==> a < |s.procs|
  {
  }

  lemma WithinMore(s: State, group: set<nat>, limit: nat)
    requires Within(s, group, limit)
    ensures Within(s, group, limit + limit)
  {
  }

  lemma WithinSame(s: State, u: State, group: set<nat>, limit: nat)
    requires Within(s, group, limit) && |u.procs| == |s.procs|
    requires forall a :: a in group ==> a < |s.procs| && u.procs[a].vruntime == s.procs[a].vruntime
    ensures Within(u, group, limit)
  {
  }

  lemma SpreadWithin(s: State, group: set<nat>, limit: nat)
    requires Spread(s, group, limit)
    ensures Within(s, group, limit)
  {
  }

  // ---------------------------------------------------------------- exactly when a run stays within the limit

  /** What a thread is charged for a whole slice; a return that is not an exit always uses it up. */
  function FullCharge(p: Proc): nat {
    Charge(p.(remaining := 0))
  }

  /** Charged for its whole slice, the group member that runs would not be beyond the limit over any other. */
  ghost predicate RunnerNear(s: State, group: set<nat>, limit: nat) {
    forall a, b :: a in group && b in group && s.current == Some(a) && a != b && a < |s.procs| && b < |s.procs| ==>
      s.procs[a].vruntime + FullCharge(s.procs[a]) <= s.procs[b].vruntime + limit
  }

  /** Within the limit in every state of the run. */
  ghost predicate AlwaysWithin(s: State, steps: seq<Step>, group: set<nat>, limit: nat)
    decreases |steps|
  {
    && Within(s, group, limit)
    && (steps == [] || (Ok(s) && Enabled(s, steps[0]) && AlwaysWithin(Next(s, steps[0]), steps[1..], group, limit)))
  }

  /** Nobody changes the weight of the thread that runs before it returns. */
  predicate LeftAlone(current: Option<nat>, steps: seq<Step>)
    decreases |steps|
  {
    steps == [] || steps[0].Dispatch? || ((steps[0].Configure? ==> Some(steps[0].p) != current) && LeftAlone(current, steps[1..]))
  }

  predicate Dispatches(steps: seq<Step>) {
    exists i :: 0 <= i < |steps| && steps[i].Dispatch?
  }

  lemma RunnerSame(s: State, step: Step, c: nat)
    requires Ok(s) && Enabled(s, step) && !step.Dispatch? && (step.Configure? ==> step.p != c)
    requires s.current == Some(c) && c < |s.procs| && s.procs[c].state in {Ready, Running}
    ensures c < |Next(s, step).procs| && FullCharge(Next(s, step).procs[c]) == FullCharge(s.procs[c])
  {
    if step.Create? {
      hide Ok, Held;
    } else if step.Configure? {
      hide Ok, Held;
    } else {
      StepSame(s, step);
      hide Ok, Next;
      assert SameAt(s, Next(s, step), c);
    }
  }

  lemma NearSame(s: State, step: Step, group: set<nat>, limit: nat)
    requires Ok(s) && Enabled(s, step) && !step.Dispatch? && (step.Configure? ==> Some(step.p) != s.current) && Busy(s, group, limit)
    ensures RunnerNear(Next(s, step), group, limit) <==> RunnerNear(s, group, limit)
  {
    OtherSteps(s, step, group, limit);
    if s.current.Some? && s.current.value in group {
      BusyAt(s, group, limit, s.current.value);
      RunnerSame(s, step, s.current.value);
    }
    GroupInRange(s, group, limit);
    hide Ok, Next, Busy, FullCharge;
  }

  lemma SliceUsedUp(s: State, group: set<nat>, limit: nat, a: nat)
    requires Ok(s) && s.phase.Switching? && Busy(s, group, limit) && a in group && s.current == Some(a)
    ensures a < |s.procs| && Charge(s.procs[a]) == FullCharge(s.procs[a])
  {
    BusyAt(s, group, limit, a);
    hide Held, Charge;
    assert s.procs[a].(remaining := 0) == s.procs[a];
  }

  /** The condition of a dispatch, told from the whole slice. */
  lemma NearAtReturn(s: State, now: nat, group: set<nat>, limit: nat)
    requires Ok(s) && s.phase.Switching? && Busy(s, group, limit) && Within(s, group, limit)
    requires InRange(Return(s, now).procs, Flatten(Return(s, now).queues)) && IDLE < |Return(s, now).procs|
    requires Busy(DispatchStep(s, now), group, limit)
    ensures Within(DispatchStep(s, now), group, limit) <==> RunnerNear(s, group, limit)
  {
    hide *;
    DispatchWithinIff(s, now, group, limit);
    if s.current.Some? && s.current.value in group {
      SliceUsedUp(s, group, limit, s.current.value);
    }
    NearIs(s, group, limit);
  }

  lemma NearIs(s: State, group: set<nat>, limit: nat)
    requires s.current.Some? && s.current.value in group ==> s.current.value < |s.procs| && Charge(s.procs[s.current.value]) == FullCharge(s.procs[s.current.value])
    ensures RunnerNear(s, group, limit) <==>
      forall a, b :: a in group && b in group && s.current == Some(a) && a != b && a < |s.procs| && b < |s.procs| ==>
        s.procs[a].vruntime + Charge(s.procs[a]) <= s.procs[b].vruntime + limit
  {
    hide Charge, FullCharge;
  }

  lemma {:induction false} SpreadAlways(s: State, steps: seq<Step>, group: set<nat>, limit: nat, t: State)
    requires Spread(s, group, limit) && StaysBusy(s, steps, group, limit, t)
    ensures AlwaysWithin(s, steps, group, limit)
    decreases |steps|
  {
    hide *;
    SpreadWithin(s, group, limit);
    if steps == [] {
      AlwaysNil(s, group, limit);
    } else {
      StaysBusyCons(s, steps, group, limit, t);
      var u := Next(s, steps[0]);
      StaysBusyNow(u, group, limit);
      StaysBusyOne(s, steps[0], group, limit);
      SpreadStays(s, [steps[0]], group, limit, u);
      SpreadAlways(u, steps[1..], group, limit, t);
      AlwaysCons(s, steps, group, limit);
    }
  }

  lemma StaysBusyNow(s: State, group: set<nat>, limit: nat)
    ensures StaysBusy(s, [], group, limit, s)
  {
  }

  lemma StaysBusyOne(s: State, step: Step, group: set<nat>, limit: nat)
    requires Ok(s) && Enabled(s, step) && Busy(Next(s, step), group, limit)
    ensures StaysBusy(s, [step], group, limit, Next(s, step))
  {
    hide Ok, Next, Busy;
    assert [step][1..] == [];
  }

  lemma AlwaysNil(s: State, group: set<nat>, limit: nat)
    ensures AlwaysWithin(s, [], group, limit) <==> Within(s, group, limit)
  {
  }

  lemma AlwaysCons(s: State, steps: seq<Step>, group: set<nat>, limit: nat)
    requires steps != [] && Ok(s) && Enabled(s, steps[0])
    ensures AlwaysWithin(s, steps, group, limit) <==> Within(s, group, limit) && AlwaysWithin(Next(s, steps[0]), steps[1..], group, limit)
  {
    hide Ok, Next, Within;
  }

  lemma AlwaysFirst(s: State, steps: seq<Step>, group: set<nat>, limit: nat)
    requires AlwaysWithin(s, steps, group, limit)
    ensures Within(s, group, limit)
  {
  }

  lemma DispatchesCons(steps: seq<Step>)
    requires steps != []
    ensures steps[0].Dispatch? ==> Dispatches(steps)
    ensures !steps[0].Dispatch? ==> (Dispatches(steps) <==> Dispatches(steps[1..]))
  {
    if Dispatches(steps) && !steps[0].Dispatch? {
      var i :| 0 <= i < |steps| && steps[i].Dispatch?;
      assert steps[1..][i - 1].Dispatch?;
    }
    if Dispatches(steps[1..]) {
      var i :| 0 <= i < |steps[1..]| && steps[1..][i].Dispatch?;
      assert steps[i + 1].Dispatch?;
    }
  }

  /**
   Over whole runs, exactly: always-ready threads that start within the limit are within it in every
   state of a run if and only if the run dispatches nobody or the member that runs at the start, if
   any, charged for its whole slice is not beyond the limit over any other.
   */
  lemma {:induction false} AlwaysWithinIff(s: State, steps: seq<Step>, group: set<nat>, limit: nat, t: State)
    requires Busy(s, group, limit) && Within(s, group, limit) && StaysBusy(s, steps, group, limit, t) && LeftAlone(s.current, steps)
    ensures AlwaysWithin(s, steps, group, limit) <==> !Dispatches(steps) || RunnerNear(s, group, limit)
    decreases |steps|
  {
    hide *;
    if steps == [] {
      AlwaysNil(s, group, limit);
      NoDispatch();
    } else {
      var step := steps[0];
      StaysBusyCons(s, steps, group, limit, t);
      AlwaysCons(s, steps, group, limit);
      DispatchesCons(steps);
      var u := Next(s, step);
      if step.Dispatch? {
        DispatchKeeps(s, step.now);
        DispatchNext(s, step.now);
        NearAtReturn(s, step.now, group, limit);
        DispatchCharges(s, step.now, group, limit);
        if Within(u, group, limit) {
          SpreadOf(u, group, limit);
          SpreadAlways(u, steps[1..], group, limit, t);
        } else if AlwaysWithin(u, steps[1..], group, limit) {
          AlwaysFirst(u, steps[1..], group, limit);
        }
      } else {
        LeftAloneCons(s.current, steps);
        OtherSteps(s, step, group, limit);
        GroupInRange(s, group, limit);
        WithinSame(s, u, group, limit);
        NearSame(s, step, group, limit);
        AlwaysWithinIff(u, steps[1..], group, limit, t);
      }
    }
  }

  lemma NoDispatch()
    ensures !Dispatches([])
  {
  }

  lemma LeftAloneCons(current: Option<nat>, steps: seq<Step>)
    requires steps != [] && LeftAlone(current, steps) && !steps[0].Dispatch?
    ensures (steps[0].Configure? ==> Some(steps[0].p) != current) && LeftAlone(current, steps[1..])
  {
  }

  lemma SpreadOf(s: State, group: set<nat>, limit: nat)
    requires Busy(s, group, limit) && Within(s, group, limit) && RunsLeast(s, group)
    ensures Spread(s, group, limit)
  {
  }
}
