/**
 Fairness: a ready thread under the fair policy is passed over only a bounded number of
 times, and the virtual runtimes of threads that are always ready stay close together.
 */
module SchedFair {
  import opened Common
  import opened SchedModel
  import opened SchedLists
  import opened SchedInvariant
  import opened SchedSleep
  import opened SchedSelect
  import opened SchedSteps

  predicate Live(p: Proc) {
    p.state in {Ready, Running, Waiting}
  }

  // ---------------------------------------------------------------- what steps do to runtimes

  /** The runtime, policy, weight and slice of thread `q` stay, and it does not come to life. */
  ghost predicate SameAt(s: State, s': State, q: nat) {
    && q < |s.procs| == |s'.procs|
    && s'.procs[q].vruntime == s.procs[q].vruntime && s'.procs[q].policy == s.procs[q].policy
    && s'.procs[q].weight == s.procs[q].weight && s'.procs[q].deadline == s.procs[q].deadline && s'.procs[q].ticks == s.procs[q].ticks
    && (Live(s'.procs[q]) ==> Live(s.procs[q]))
  }

  ghost predicate SameRuntimes(s: State, s': State) {
    |s'.procs| == |s.procs| && forall q :: 0 <= q < |s.procs| ==> SameAt(s, s', q)
  }

  lemma WakingSame(s: State, held: set<nat>, now: nat)
    requires Held(s, held)
    ensures SameRuntimes(s, WakeSleepers(s, now)) && WakeSleepers(s, now).current == s.current && WakeSleepers(s, now).phase == s.phase
  {
    hide *;
    SleepersInRange(s, held);
    WakeExact(s, held, now);
    var w, n := WakeSleepers(s, now), DueCount(s.procs, s.sleep, now);
    IdleInRange(s, held);
    WokenAt(s, w, now, n, IDLE);
    forall q | 0 <= q < |s.procs|
      ensures SameAt(s, w, q)
    {
      WokenAt(s, w, now, n, q);
      SleeperWaits(s, held, n, q);
      SameAtIntro(s, w, q);
    }
    SameIntro(s, w);
  }

  lemma IdleInRange(s: State, held: set<nat>)
    requires Held(s, held)
    ensures IDLE < |s.procs|
  {
  }

  lemma SameIntro(s: State, s': State)
    requires |s'.procs| == |s.procs| && forall q :: 0 <= q < |s.procs| ==> SameAt(s, s', q)
    ensures SameRuntimes(s, s')
  {
  }

  lemma SameAtIntro(s: State, s': State, q: nat)
    requires q < |s.procs| == |s'.procs|
    requires s'.procs[q] == s.procs[q] || (s.procs[q].state.Waiting? && exists b: nat :: s'.procs[q] == s.procs[q].(wake := 0, dyn := b, state := Ready))
    ensures SameAt(s, s', q)
  {
  }

  lemma SleeperWaits(s: State, held: set<nat>, n: nat, q: nat)
    requires Held(s, held) && n <= |s.sleep|
    ensures q in s.sleep[..n] ==> q < |s.procs| && s.procs[q].state.Waiting?
  {
    if q in s.sleep[..n] {
      assert q in s.sleep;
    }
  }

  /** Steps other than dispatching, creating and configuring leave all runtimes alone. */
  lemma StepSame(s: State, step: Step)
    requires Ok(s) && Enabled(s, step) && !step.Dispatch? && !step.Create? && !step.Configure?
    ensures SameRuntimes(s, Next(s, step)) && Next(s, step).current == s.current
    ensures s.phase.InThread?
  {
    hide Ok, Held, WakeSleepers, Without, InsertByWake, Flatten, Queued, PutLast;
    OkParts(s);
    RunningParts(s);
    match step
    case Tick(now) =>
      WakingSame(s, InHand(s), now);
      TickWakes(s, now);
      forall q | 0 <= q < |s.procs|
        ensures SameAt(s, Next(s, step), q)
      {
        assert SameAt(s, WakeSleepers(s, now), q);
      }
    case _ =>
  }

  // ---------------------------------------------------------------- returning from a thread

  /** The runtime a thread has once the scheduler loop is back. */
  function Charged(s: State, q: nat): nat
    requires q < |s.procs|
  {
    if s.current == Some(q) && q != IDLE && s.procs[q].policy.Fair? then s.procs[q].vruntime + Charge(s.procs[q]) else s.procs[q].vruntime
  }

  /** Back in the loop only the thread that ran is charged, and an exited one is gone. */
  ghost predicate ReturnedAt(s: State, r: State, q: nat) {
    && q < |s.procs| == |r.procs|
    && (Live(r.procs[q]) ==>
      && Live(s.procs[q]) && r.procs[q].vruntime == Charged(s, q)
      && r.procs[q].policy == s.procs[q].policy && r.procs[q].weight == s.procs[q].weight && r.procs[q].deadline == s.procs[q].deadline)
  }

  lemma FinishAt(s: State, c: nat, q: nat)
    requires s.current == Some(c) && c < |s.procs| && q < |s.procs|
    ensures ReturnedAt(s, Finish(s, c), q)
  {
    hide Charge, Queued, PutLast, Without;
  }

  lemma ReturnAt(s: State, now: nat, q: nat)
    requires Ok(s) && s.phase.Switching? && q < |s.procs|
    ensures ReturnedAt(s, Return(s, now), q)
  {
    OkParts(s);
    CurrentInRange(s);
    var s1 := if s.current.None? then s else Finish(s, s.current.value);
    assert s.current.None? ==> InHand(s) == {};
    hide *;
    ReturnIs(s, s1, now);
    if s.current.Some? {
      FinishKeeps(s, s.current.value);
      FinishAt(s, s.current.value, q);
    } else {
      ReturnedSelf(s, q);
    }
    WakingSame(s1, {}, now);
    ReturnedThen(s, s1, WakeSleepers(s1, now), q);
  }

  lemma ReturnedSelf(s: State, q: nat)
    requires s.current.None? && q < |s.procs|
    ensures ReturnedAt(s, s, q)
  {
  }

  lemma ReturnedThen(s: State, s1: State, r: State, q: nat)
    requires ReturnedAt(s, s1, q) && SameRuntimes(s1, r)
    ensures ReturnedAt(s, r, q)
  {
    hide Charge;
    assert SameAt(s1, r, q);
  }

  /** A thread that returns has used up its slice and is charged at least 1. */
  lemma ReturningIsCharged(s: State, c: nat)
    requires Ok(s) && s.phase.Switching? && s.current == Some(c) && c != IDLE && c < |s.procs| && !s.procs[c].state.Zombie?
    ensures Charge(s.procs[c]) >= 1
  {
    hide Held;
  }

  /** What the dispatched state looks like. */
  lemma DispatchIs(s: State, now: nat)
    requires Ok(s) && s.phase.Switching?
    ensures InRange(Return(s, now).procs, Flatten(Return(s, now).queues)) && IDLE < |Return(s, now).procs|
    ensures var r := Return(s, now);
      var next := Choice(r.procs, r.queues);
      var t := DispatchStep(s, now);
      && |r.procs| == |s.procs| == |t.procs| && Held(r, {})
      && t.phase.InThread? && t.current.Some? && t.current.value < |t.procs| && t.procs[t.current.value].state.Running?
      && (next.Some? ==> next.value < |r.procs| && t.current == next && RightChoice(r.procs, r.queues, next.value) && r.procs[next.value].state.Ready? && next.value != IDLE)
      && (next.None? ==> t.current == Some(IDLE) && forall k :: 0 <= k < |r.queues| ==> r.queues[k] == [])
      && (forall q :: 0 <= q < |r.procs| ==>
        && t.procs[q].vruntime == r.procs[q].vruntime && t.procs[q].policy == r.procs[q].policy && t.procs[q].weight == r.procs[q].weight
        && (q != t.current.value ==> t.procs[q] == r.procs[q]))
  {
    OkParts(s);
    ReturnKeeps(s, now);
    var r := Return(s, now);
    hide Ok, Held, Return, Choice, TakeOut, Flatten, RightChoice;
    ChoiceFacts(r.procs, r.queues);
    var next := Choice(r.procs, r.queues);
    if next.Some? {
      QueuedInRange(r, {}, next.value);
    }
  }

  // ---------------------------------------------------------------- no starvation

  /** How far thread `q` is behind thread `p`, counting the step that overtakes it. */
  function Debt(s: State, p: nat, q: nat): nat
    requires p < |s.procs| && q < |s.procs|
  {
    var a, b := s.procs[p], s.procs[q];
    if q != p && q != IDLE && Live(b) && b.policy.Fair? && b.vruntime <= a.vruntime then a.vruntime + 1 - b.vruntime else 0
  }

  function Debts(s: State, p: nat): (r: seq<nat>)
    requires p < |s.procs|
    ensures |r| == |s.procs| && forall q :: 0 <= q < |r| ==> r[q] == Debt(s, p, q)
  {
    seq(|s.procs|, q requires 0 <= q < |s.procs| => Debt(s, p, q))
  }

  function Sum(a: seq<nat>): nat {
    if a == [] then 0 else a[0] + Sum(a[1..])
  }

  /** The sum over all other fair threads `q` of max(0, p.vruntime + 1 - q.vruntime). */
  function Bound(s: State, p: nat): nat
    requires p < |s.procs|
  {
    Sum(Debts(s, p))
  }

  lemma {:induction false} SumMono(a: seq<nat>, b: seq<nat>)
    requires |a| == |b| && forall i :: 0 <= i < |a| ==> a[i] <= b[i]
    ensures Sum(a) <= Sum(b)
  {
    if a != [] {
      SumMono(a[1..], b[1..]);
    }
  }

  lemma {:induction false} SumDrop(a: seq<nat>, b: seq<nat>, k: nat)
    requires |a| == |b| && k < |a| && a[k] < b[k] && forall i :: 0 <= i < |a| ==> a[i] <= b[i]
    ensures Sum(a) + 1 <= Sum(b)
  {
    if k == 0 {
      SumMono(a[1..], b[1..]);
    } else {
      SumDrop(a[1..], b[1..], k - 1);
    }
  }

  lemma {:induction false} SumAtLeast(a: seq<nat>, k: nat)
    requires k < |a|
    ensures Sum(a) >= a[k]
  {
    if k > 0 {
      SumAtLeast(a[1..], k - 1);
    }
  }

  /** A ready fair thread that was already charged for its last run. */
  ghost predicate Waits(s: State, p: nat) {
    p < |s.procs| && p != IDLE && s.procs[p].state.Ready? && s.procs[p].policy.Fair? && s.current != Some(p)
  }

  /** The current thread is behind `p` and its charge is still to come. */
  ghost predicate InFlight(s: State, p: nat)
    requires p < |s.procs|
  {
    && s.current.Some? && s.current.value < |s.procs| && Debt(s, p, s.current.value) > 0
  }

  /** The turns other threads can still take before `p`. */
  ghost function Turns(s: State, p: nat): int
    requires p < |s.procs|
  {
    Bound(s, p) - if InFlight(s, p) then 1 else 0
  }

  /** A step without new threads or changed policies; no urgent thread is ready at a dispatch. */
  ghost predicate Calm(s: State, step: Step) {
    && !step.Create? && !step.Configure?
    && (step.Dispatch? ==>
      var r := Return(s, step.now);
      forall q :: 0 <= q < |r.procs| && Queued(r.queues, q) ==> !Eligible(r.procs[q], ByDeadline))
  }

  lemma SameDebts(s: State, s': State, p: nat)
    requires SameRuntimes(s, s') && p < |s.procs| && s'.current == s.current
    ensures Turns(s', p) <= Turns(s, p)
  {
    var a, b := Debts(s', p), Debts(s, p);
    hide Sum;
    assert SameAt(s, s', p);
    forall q | 0 <= q < |a|
      ensures a[q] <= b[q]
    {
      assert SameAt(s, s', q);
    }
    SumMono(a, b);
    if InFlight(s, p) && !InFlight(s', p) {
      SumDrop(a, b, s.current.value);
    }
  }

  lemma DebtAfterReturn(s: State, r: State, p: nat, q: nat)
    requires p < |s.procs| && q < |s.procs| && ReturnedAt(s, r, p) && ReturnedAt(s, r, q) && s.current != Some(p) && Live(r.procs[p])
    ensures Debt(r, p, q) <= Debt(s, p, q)
    ensures s.current == Some(q) && Debt(s, p, q) > 0 && (Live(r.procs[q]) ==> Charge(s.procs[q]) >= 1) ==> Debt(r, p, q) < Debt(s, p, q)
  {
    hide Charge;
  }

  /** The charge of the thread that returns takes one turn off the bound. */
  lemma BoundAfterReturn(s: State, now: nat, p: nat)
    requires Ok(s) && s.phase.Switching? && p < |s.procs| && s.current != Some(p)
    requires |Return(s, now).procs| == |s.procs| && Live(Return(s, now).procs[p])
    ensures Bound(Return(s, now), p) <= Turns(s, p)
  {
    var r := Return(s, now);
    var a, b := Debts(r, p), Debts(s, p);
    hide Sum, Return, Ok, Debt, Charge, ReturnedAt;
    ReturnAt(s, now, p);
    forall q | 0 <= q < |s.procs|
      ensures a[q] <= b[q]
    {
      ReturnAt(s, now, q);
      DebtAfterReturn(s, r, p, q);
    }
    SumMono(a, b);
    if InFlight(s, p) {
      var c := s.current.value;
      FlightFacts(s, p);
      ReturnAt(s, now, c);
      ReturningCharged(s, r, c);
      DebtAfterReturn(s, r, p, c);
      SumDrop(a, b, c);
    }
  }

  lemma FlightFacts(s: State, p: nat)
    requires p < |s.procs| && InFlight(s, p)
    ensures s.current.Some? && s.current.value < |s.procs| && s.current.value != IDLE && Live(s.procs[s.current.value]) && Debt(s, p, s.current.value) > 0
  {
  }

  lemma ReturningCharged(s: State, r: State, c: nat)
    requires Ok(s) && s.phase.Switching? && s.current == Some(c) && c != IDLE && c < |s.procs| && Live(s.procs[c])
    ensures Charge(s.procs[c]) >= 1
  {
    hide Charge, Held;
    ReturningIsCharged(s, c);
  }

  /** A dispatch that passes over `p` uses up one turn. */
  lemma DispatchUsesTurn(s: State, now: nat, p: nat)
    requires Ok(s) && s.phase.Switching? && Waits(s, p) && Calm(s, Dispatch(now))
    requires InRange(Return(s, now).procs, Flatten(Return(s, now).queues)) && IDLE < |Return(s, now).procs|
    requires Waits(DispatchStep(s, now), p)
    ensures p < |DispatchStep(s, now).procs| && Turns(DispatchStep(s, now), p) + 1 <= Turns(s, p)
  {
    hide *;
    DispatchIs(s, now);
    var r, t := Return(s, now), DispatchStep(s, now);
    WaitsParts(t, p);
    ReadyIsQueued(r, {}, p);
    FairChosen(s, r, now, p);
    ReadyLives(r.procs[p]);
    WaitsParts(s, p);
    BoundAfterReturn(s, now, p);
    TurnTaken(r, t, p);
  }

  lemma WaitsParts(s: State, p: nat)
    requires Waits(s, p)
    ensures p < |s.procs| && p != IDLE && s.procs[p].state.Ready? && s.procs[p].policy.Fair? && s.current != Some(p)
  {
  }

  lemma ReadyLives(p: Proc)
    requires p.state.Ready?
    ensures Live(p)
  {
  }

  /** Starting a fair thread with no larger runtime takes a turn. */
  lemma TurnTaken(r: State, t: State, p: nat)
    requires p < |r.procs| == |t.procs| && t.current.Some? && t.current.value < |t.procs| && t.current.value != p && t.current.value != IDLE
    requires forall q :: 0 <= q < |r.procs| ==>
      && t.procs[q].vruntime == r.procs[q].vruntime && t.procs[q].policy == r.procs[q].policy
      && (q != t.current.value ==> t.procs[q] == r.procs[q])
    requires var c := r.procs[t.current.value]; c.policy.Fair? && c.vruntime <= r.procs[p].vruntime && c.state.Ready? && t.procs[t.current.value].state.Running?
    ensures Turns(t, p) + 1 <= Bound(r, p)
  {
    hide Sum;
    assert Debts(t, p) == Debts(r, p);
    assert Debt(t, p, t.current.value) > 0;
  }

  /** While a fair thread is ready and nothing is urgent, the choice is a fair thread with no larger runtime. */
  lemma FairChosen(s: State, r: State, now: nat, p: nat)
    requires r == Return(s, now) && Calm(s, Dispatch(now)) && Held(r, {}) && InRange(r.procs, Flatten(r.queues))
    requires p < |r.procs| && Queued(r.queues, p) && r.procs[p].policy.Fair?
    ensures Choice(r.procs, r.queues).Some?
    ensures var c := Choice(r.procs, r.queues).value;
      c < |r.procs| && r.procs[c].policy.Fair? && r.procs[c].vruntime <= r.procs[p].vruntime && r.procs[c].state.Ready? && c != IDLE
  {
    ChoiceFacts(r.procs, r.queues);
    FlattenHas(r.queues, p);
    var all := Flatten(r.queues);
    var i :| 0 <= i < |all| && all[i] == p;
    assert Eligible(r.procs[all[i]], ByRuntime);
    forall j | 0 <= j < |all|
      ensures !Eligible(r.procs[all[j]], ByDeadline)
    {
      FlattenHas(r.queues, all[j]);
    }
    NonemptyQueue(r.queues, p);
    hide Choice, Flatten, Held, Calm, Return;
    var c := Choice(r.procs, r.queues).value;
    QueuedInRange(r, {}, c);
  }

  lemma NonemptyQueue(queues: Queues, p: nat)
    requires Queued(queues, p)
    ensures !(forall k :: 0 <= k < |queues| ==> queues[k] == [])
  {
    var k :| 0 <= k < |queues| && p in queues[k];
    assert queues[k] != [];
  }

  /** A run during which `p` stays ready and is never dispatched. */
  ghost predicate Passed(s: State, steps: seq<Step>, p: nat)
    decreases |steps|
  {
    steps == [] ||
    (&& Ok(s) && Enabled(s, steps[0]) && Calm(s, steps[0])
     && Waits(Next(s, steps[0]), p) && Passed(Next(s, steps[0]), steps[1..], p))
  }

  function Dispatches(steps: seq<Step>): nat {
    if steps == [] then 0 else (if steps[0].Dispatch? then 1 else 0) + Dispatches(steps[1..])
  }

  lemma TurnsNonnegative(s: State, p: nat)
    requires p < |s.procs|
    ensures 0 <= Turns(s, p) <= Bound(s, p)
  {
    if InFlight(s, p) {
      SumAtLeast(Debts(s, p), s.current.value);
    }
  }

  lemma {:induction false} PassedTurns(s: State, steps: seq<Step>, p: nat)
    requires Waits(s, p) && Passed(s, steps, p)
    ensures Dispatches(steps) <= Turns(s, p)
    decreases |steps|
  {
    if steps == [] {
      TurnsNonnegative(s, p);
    } else {
      var step := steps[0];
      var t := Next(s, step);
      PassedTurns(t, steps[1..], p);
      if step.Dispatch? {
        DispatchKeeps(s, step.now);
        hide Ok, Calm, DispatchStep, Return, Turns, Waits, InRange, Flatten;
        DispatchUsesTurn(s, step.now, p);
      } else {
        hide Ok, Turns, Waits, Next;
        StepSame(s, step);
        WaitsInRange(s, p);
        SameDebts(s, t, p);
      }
    }
  }

  lemma WaitsInRange(s: State, p: nat)
    requires Waits(s, p)
    ensures p < |s.procs|
  {
  }

  /**
   No fair thread starves: while `p` is ready, nothing urgent is ready at a dispatch, no
   thread is created and no policy changes, other threads are dispatched at most Bound times.
   */
  lemma NoStarvation(s: State, steps: seq<Step>, p: nat)
    requires Waits(s, p) && Passed(s, steps, p)
    ensures p < |s.procs| && Dispatches(steps) <= Bound(s, p)
  {
    PassedTurns(s, steps, p);
    TurnsNonnegative(s, p);
  }
}
