/** Every step of the scheduler keeps the invariant, so every reachable state has it. */
module SchedSteps {
  import opened Common
  import opened SchedModel
  import opened SchedInvariant
  import opened SchedSleep
  import opened SchedSelect

  lemma OkParts(s: State)
    requires Ok(s)
    ensures CurrentOk(s) && Held(s, InHand(s)) && |s.procs| == SLOTS && |s.queues| == LEVELS
    ensures InRange(s.procs, s.sleep)
  {
  }

  /** In a thread, the current one is in hand unless it is the idle one. */
  lemma RunningParts(s: State)
    requires Ok(s) && s.phase.InThread?
    ensures s.current.Some? && s.current.value < |s.procs| && s.procs[s.current.value].state.Running?
    ensures s.current.value != IDLE ==>
      Held(s, {s.current.value}) && InHand(s) == {s.current.value} && Sane(s.procs[s.current.value])
      && 0 < s.procs[s.current.value].remaining <= s.procs[s.current.value].ticks
    ensures s.current.value == IDLE ==> Held(s, {}) && InHand(s) == {}
    ensures s.procs[IDLE].state in {Ready, Running}
  {
    hide SleepOk, QueuesOk, PidsOk;
  }

  lemma InThreadIntro(s: State, c: nat)
    requires s.phase.InThread? && s.current == Some(c) && c < |s.procs| && s.procs[c].state.Running?
    requires Held(s, if c == IDLE then {} else {c})
    requires IDLE < |s.procs| && s.procs[IDLE].state in {Ready, Running}
    requires c != IDLE ==> 0 < s.procs[c].remaining <= s.procs[c].ticks
    ensures Ok(s)
  {
    hide Held;
  }

  /** A thread that stays live has left: its whole slice is used up. */
  lemma SwitchingIntro(s: State, c: nat)
    requires s.phase.Switching? && s.current == Some(c) && c < |s.procs| && IDLE < |s.procs| && s.procs[IDLE].state in {Ready, Running}
    requires c != IDLE ==> s.procs[c].state in {Ready, Waiting, Zombie} && (!s.procs[c].state.Zombie? ==> s.procs[c].remaining == 0 && s.procs[c].ticks > 0)
    requires Held(s, if c != IDLE && s.procs[c].state.Zombie? then {c} else {})
    ensures Ok(s)
  {
    hide Held;
  }

  lemma HeldPhase(s: State, held: set<nat>, phase: Phase, current: Option<nat>)
    requires Held(s, held)
    ensures Held(s.(phase := phase, current := current), held)
  {
    var s' := s.(phase := phase, current := current);
    forall k | 0 <= k < LEVELS
      ensures QueueOk(s', held, k)
    {
      assert QueueOk(s, held, k);
    }
    forall p | 0 <= p < SLOTS && p != IDLE && p !in held
      ensures PlacedAt(s', p)
    {
      assert PlacedAt(s, p);
    }
    forall p | 0 <= p < SLOTS && p != IDLE
      ensures PidOk(s', p)
    {
      assert PidOk(s, p);
    }
  }

  lemma NoneLeft(c: nat)
    ensures {c} - {c} == {} && {} + {c} == {c}
  {
    var none: set<nat> := {};
    assert {c} - {c} == none && none + {c} == {c};
  }

  lemma BasicSane(p: Proc)
    requires Sane(p)
    ensures p.base < LEVELS && p.dyn < LEVELS && Sane(p.(dyn := p.base)) && Boosted(p.base) < LEVELS
    ensures p.dyn < MAX_PRIORITY ==> Sane(p.(dyn := p.dyn + 1))
  {
  }

  /** A thread in hand becomes ready, joins its queue and the scheduler takes over. */
  lemma LeaveReady(s: State, c: nat, proc: Proc)
    requires Held(s, {c}) && s.current == Some(c) && c < |s.procs| && c != IDLE && IDLE < |s.procs| && s.procs[IDLE].state in {Ready, Running}
    requires Sane(proc) && proc.state.Ready? && proc.pid == s.procs[c].pid && s.procs[c].state != Unused && proc.remaining == 0 && proc.ticks > 0
    ensures Ok(Enqueue(SetProc(s, c, proc), c).(phase := Switching))
  {
    var s1 := SetProc(s, c, proc);
    hide Held, Sane;
    SetHeld(s, {c}, c, proc);
    ReleaseReady(s1, {c}, c);
    NoneLeft(c);
    var s2 := Enqueue(s1, c);
    HeldPhase(s2, {}, Switching, s2.current);
    SwitchingIntro(s2.(phase := Switching), c);
  }

  lemma YieldKeeps(s: State)
    requires Ok(s) && s.phase.InThread?
    ensures s.current.Some? && s.current.value < |s.procs| && Ok(YieldStep(s))
  {
    hide Ok, Held, CurrentOk;
    OkParts(s);
    RunningParts(s);
    var c := s.current.value;
    if c != IDLE {
      LeaveReady(s, c, s.procs[c].(dyn := s.procs[c].base, state := Ready, remaining := 0));
    }
  }

  lemma BlockKeeps(s: State)
    requires Ok(s) && s.phase.InThread?
    ensures s.current.Some? && s.current.value < |s.procs| && Ok(BlockStep(s))
  {
    hide Ok, Held, CurrentOk;
    OkParts(s);
    RunningParts(s);
    var c := s.current.value;
    if c != IDLE {
      var proc := s.procs[c].(state := Waiting, remaining := 0);
      SetHeld(s, {c}, c, proc);
      var s1 := SetProc(s, c, proc);
      ReleaseIdleOne(s1, {c}, c);
      NoneLeft(c);
      HeldPhase(s1, {}, Switching, s1.current);
      SwitchingIntro(s1.(phase := Switching), c);
    }
  }

  /** A waiting thread in hand goes to its place in the sleep list. */
  lemma ReleaseAsleep(s: State, held: set<nat>, c: nat)
    requires Held(s, held) && c in held && c < |s.procs| && s.procs[c].state.Waiting?
    ensures InRange(s.procs, s.sleep) && Held(s.(sleep := InsertByWake(s.procs, s.sleep, c)), held - {c})
  {
    SleepersInRange(s, held);
    HeldNotAsleep(s, held, c);
    InsertKeeps(s.procs, s.sleep, c);
    ReleaseIdleOne(s, held, c);
    var q := InsertByWake(s.procs, s.sleep, c);
    hide InsertByWake, Distinct, Sorted, Without;
    AsleepFrame(s, held - {c}, q);
    HeldParts(s, held);
  }

  lemma AsleepFrame(s: State, held: set<nat>, q: seq<nat>)
    requires Held(s, held) && Distinct(q) && Sorted(s.procs, q)
    requires forall p :: p in q ==> p < |s.procs| && p != IDLE && p !in held && s.procs[p].state.Waiting?
    ensures Held(s.(sleep := q), held)
  {
    var s' := s.(sleep := q);
    forall k | 0 <= k < LEVELS
      ensures QueueOk(s', held, k)
    {
      assert QueueOk(s, held, k);
    }
    forall p | 0 <= p < SLOTS && p != IDLE && p !in held
      ensures PlacedAt(s', p)
    {
      assert PlacedAt(s, p);
    }
    forall p | 0 <= p < SLOTS && p != IDLE
      ensures PidOk(s', p)
    {
      assert PidOk(s, p);
    }
  }

  lemma SleepKeeps(s: State, ticks: nat, now: nat)
    requires Ok(s) && s.phase.InThread?
    ensures s.current.Some? && s.current.value < |s.procs| && InRange(s.procs, s.sleep) && Ok(SleepStep(s, ticks, now))
  {
    hide Ok, Held, CurrentOk, InsertByWake, Without;
    OkParts(s);
    RunningParts(s);
    var c := s.current.value;
    if c != IDLE {
      var proc := s.procs[c].(wake := now + (if ticks == 0 then 1 else ticks), state := Waiting, remaining := 0);
      SetHeld(s, {c}, c, proc);
      HeldNotAsleep(s, {c}, c);
      var s1 := SetProc(s, c, proc);
      ReleaseAsleep(s1, {c}, c);
      NoneLeft(c);
      var s2 := s1.(sleep := InsertByWake(s1.procs, s1.sleep, c));
      HeldPhase(s2, {}, Switching, s2.current);
      SwitchingIntro(s2.(phase := Switching), c);
    }
  }

  lemma ExitKeeps(s: State)
    requires Ok(s) && s.phase.InThread? && s.current != Some(IDLE)
    ensures s.current.Some? && s.current.value < |s.procs| && Ok(ExitStep(s))
  {
    hide Ok, Held, CurrentOk, Without;
    OkParts(s);
    RunningParts(s);
    var c := s.current.value;
    var proc := s.procs[c].(state := Zombie);
    SetHeld(s, {c}, c, proc);
    HeldNotAsleep(s, {c}, c);
    var s1 := SetProc(s, c, proc);
    HeldPhase(s1, {c}, Switching, s1.current);
    SwitchingIntro(s1.(phase := Switching), c);
  }

  /** Waking sleepers during a tick does not touch the running thread. */
  lemma TickWakes(s: State, now: nat)
    requires Ok(s) && s.phase.InThread?
    ensures Ok(WakeSleepers(s, now)) && WakeSleepers(s, now).phase.InThread? && WakeSleepers(s, now).current == s.current
    ensures s.current.Some? && s.current.value < |s.procs| == |WakeSleepers(s, now).procs| && WakeSleepers(s, now).procs[s.current.value] == s.procs[s.current.value]
  {
    hide *;
    OkParts(s);
    RunningParts(s);
    var held, c := InHand(s), s.current.value;
    WakeExact(s, held, now);
    WakesExactlyTheDue(s, held, now, c);
    WakesExactlyTheDue(s, held, now, IDLE);
    NotAsleep(s, held, c);
    NotAsleep(s, held, IDLE);
    WokenAt(s, WakeSleepers(s, now), now, DueCount(s.procs, s.sleep, now), c);
    InThreadIntro(WakeSleepers(s, now), c);
  }

  lemma NotAsleep(s: State, held: set<nat>, c: nat)
    requires Held(s, held) && (c in held || c == IDLE)
    ensures forall now :: !Due(s, c, now)
  {
  }

  lemma PreemptKeeps(s: State)
    requires s.current.Some? && s.current.value < |s.procs| && IDLE < |s.procs| && s.procs[IDLE].state in {Ready, Running}
    requires s.current.value == IDLE ==> Held(s, {})
    requires s.current.value != IDLE ==>
      && Held(s, {s.current.value}) && Sane(s.procs[s.current.value])
      && s.procs[s.current.value].state.Running? && s.procs[s.current.value].remaining == 0 && s.procs[s.current.value].ticks > 0
    ensures Ok(Preempt(s))
  {
    hide Ok, Held, CurrentOk, Sane;
    var c := s.current.value;
    if c == IDLE {
      HeldPhase(s, {}, Switching, s.current);
      SwitchingIntro(s.(phase := Switching), c);
    } else {
      var p := s.procs[c];
      BasicSane(p);
      var proc := p.(dyn := if p.dyn < MAX_PRIORITY then p.dyn + 1 else p.dyn, state := Ready);
      SaneSame(p, proc);
      LeaveReady(s, c, proc);
    }
  }

  lemma SaneSame(p: Proc, q: Proc)
    requires Sane(p) && q.base == p.base && q.ticks == p.ticks && (q.dyn == p.dyn || (p.dyn < MAX_PRIORITY && q.dyn == p.dyn + 1))
    ensures Sane(q)
  {
  }

  lemma TickKeeps(s: State, now: nat)
    requires Ok(s) && s.phase.InThread?
    ensures Ok(TickStep(s, now))
  {
    hide Ok, Held, CurrentOk, Preempt, WakeSleepers, Flatten, Sane;
    TickWakes(s, now);
    var s1 := WakeSleepers(s, now);
    OkParts(s1);
    RunningParts(s1);
    var c := s1.current.value;
    if c == IDLE {
      PreemptKeeps(s1);
    } else {
      var left := s1.procs[c].remaining - 1;
      var proc := s1.procs[c].(remaining := left);
      SaneSame(s1.procs[c], proc);
      SetHeld(s1, {c}, c, proc);
      var s2 := SetProc(s1, c, proc);
      if left == 0 {
        PreemptKeeps(s2);
      } else {
        InThreadIntro(s2, c);
      }
    }
  }

  lemma WakeKeeps(s: State, p: nat)
    requires Ok(s) && s.phase.InThread? && p < |s.procs|
    ensures Ok(WakeStep(s, p))
  {
    hide Ok, Held, CurrentOk, Without, Awake;
    OkParts(s);
    RunningParts(s);
    if s.procs[p].state.Waiting? {
      var c, held := s.current.value, InHand(s);
      hide InHand;
      TakeWaiting(s, held, p);
      var s1 := s.(sleep := Without(s.sleep, p));
      AwakeKeeps(s1, held + {p}, p);
      assert held + {p} - {p} == held;
      InThreadIntro(Awake(s1, p), c);
    }
  }

  /** An unused slot is in hand of whoever fills it. */
  lemma TakeUnused(s: State, held: set<nat>, p: nat)
    requires Held(s, held) && p < |s.procs| && p != IDLE && p !in held && s.procs[p].state.Unused?
    ensures Held(s, held + {p})
  {
    forall k | 0 <= k < LEVELS
      ensures QueueOk(s, held + {p}, k)
    {
      assert QueueOk(s, held, k);
    }
    forall q | 0 <= q < SLOTS && q != IDLE && q !in held + {p}
      ensures PlacedAt(s, q)
    {
      assert PlacedAt(s, q);
    }
  }

  /** A filled slot gets a number nobody else has. */
  lemma FillHeld(s: State, held: set<nat>, p: nat, proc: Proc)
    requires Held(s, held) && p in held && p < |s.procs| && Sane(proc) && proc.pid == s.nextPid && proc.state != Unused
    ensures Held(SetProc(s, p, proc).(nextPid := s.nextPid + 1), held)
  {
    var s' := SetProc(s, p, proc).(nextPid := s.nextPid + 1);
    SetQueues(s, held, p, proc);
    SetSleep(s, held, p, proc);
    FillQueues(SetProc(s, p, proc), held, s.nextPid + 1);
    forall q | 0 <= q < SLOTS && q != IDLE && q !in held
      ensures PlacedAt(s', q)
    {
      assert PlacedAt(s, q);
    }
    FillPids(s, p, proc);
    hide QueuesOk, SleepOk, PidsOk;
  }

  lemma FillQueues(s: State, held: set<nat>, n: nat)
    requires QueuesOk(s, held) && SleepOk(s, held)
    ensures QueuesOk(s.(nextPid := n), held) && SleepOk(s.(nextPid := n), held)
  {
    forall k | 0 <= k < LEVELS
      ensures QueueOk(s.(nextPid := n), held, k)
    {
      assert QueueOk(s, held, k);
    }
  }

  lemma FillPids(s: State, p: nat, proc: Proc)
    requires PidsOk(s) && p < |s.procs| && p != IDLE && proc.pid == s.nextPid
    ensures PidsOk(SetProc(s, p, proc).(nextPid := s.nextPid + 1))
  {
    var s' := SetProc(s, p, proc).(nextPid := s.nextPid + 1);
    forall q | 0 <= q < |s.procs| && q != IDLE
      ensures PidOk(s', q)
    {
      assert PidOk(s, q);
    }
    forall q, r | 0 <= q < r < |s.procs| && q != IDLE && s'.procs[q].state != Unused && s'.procs[r].state != Unused
      ensures s'.procs[q].pid != s'.procs[r].pid
    {
      assert PidOk(s, q) && PidOk(s, r);
    }
  }

  /** In a thread or at boot there are no exited threads, so a free slot is an unused one. */
  lemma FreeIsUnused(s: State, p: nat)
    requires Ok(s) && (s.phase.InThread? || s.current.None?) && FreeSlot(s.procs, 0) == Some(p)
    ensures p < |s.procs| && p != IDLE && p !in InHand(s) && s.procs[p].state.Unused?
  {
    if p != IDLE && p !in InHand(s) {
      assert PlacedAt(s, p);
    }
  }

  lemma CreateKeeps(s: State, priority: nat)
    requires Ok(s) && (s.phase.InThread? || s.current.None?)
    ensures Ok(CreateStep(s, priority))
  {
    hide Ok, Held, CurrentOk, FreeSlot, Sane;
    OkParts(s);
    var slot := FreeSlot(s.procs, 0);
    if slot.Some? {
      var p, held := slot.value, InHand(s);
      FreeIsUnused(s, p);
      hide InHand;
      TakeUnused(s, held, p);
      var proc := NewProc(s.nextPid, Clamp(priority));
      NewSane(s.nextPid, Clamp(priority));
      FillHeld(s, held + {p}, p, proc);
      var s1 := SetProc(s, p, proc).(nextPid := s.nextPid + 1);
      ReleaseReady(s1, held + {p}, p);
      assert held + {p} - {p} == held;
      SameCurrent(s, Enqueue(s1, p));
    }
  }

  lemma NewSane(pid: int, base: nat)
    requires base < LEVELS
    ensures Sane(NewProc(pid, base))
  {
  }

  /** The current thread and the idle thread are untouched, so the invariant carries over. */
  lemma SameCurrent(s: State, s': State)
    requires Ok(s) && s'.current == s.current && s'.phase == s.phase && |s'.procs| == |s.procs| && Held(s', InHand(s))
    requires s.current.Some? && s.current.value < |s.procs| ==>
      var p, p' := s.procs[s.current.value], s'.procs[s.current.value]; p'.state == p.state && p'.remaining == p.remaining && p'.ticks == p.ticks
    requires IDLE < |s.procs| && s'.procs[IDLE].state == s.procs[IDLE].state
    ensures Ok(s')
  {
    hide Held;
  }

  lemma ConfigureKeeps(s: State, p: nat, policy: Policy, weight: nat, deadline: nat, now: nat)
    requires Ok(s) && p < |s.procs|
    ensures Ok(ConfigureStep(s, p, policy, weight, deadline, now))
  {
    hide Ok, Held, CurrentOk;
    OkParts(s);
    SaneAt(s, InHand(s), p);
    var s' := ConfigureStep(s, p, policy, weight, deadline, now);
    SetInPlace(s, InHand(s), p, s'.procs[p]);
    hide InHand;
    SameCurrent(s, s');
  }

  // ---------------------------------------------------------------- dispatching

  /** The charge for a slice changes no place. */
  lemma ChargeKeeps(s: State, held: set<nat>, c: nat)
    requires Held(s, held) && c < |s.procs|
    ensures Held(SetProc(s, c, s.procs[c].(vruntime := s.procs[c].vruntime + Charge(s.procs[c]))), held)
  {
    hide Held, Charge;
    SaneAt(s, held, c);
    SetInPlace(s, held, c, s.procs[c].(vruntime := s.procs[c].vruntime + Charge(s.procs[c])));
  }

  /** A reclaimed slot is unused and in nobody's hand. */
  lemma ReclaimKeeps(s: State, c: nat)
    requires Held(s, {c}) && c < |s.procs|
    ensures Held(SetProc(s, c, Reclaimed()).(sleep := Without(s.sleep, c)), {})
  {
    HeldNotAsleep(s, {c}, c);
    var s' := SetProc(s, c, Reclaimed());
    SetQueues(s, {c}, c, Reclaimed());
    SetSleep(s, {c}, c, Reclaimed());
    forall q | 0 <= q < SLOTS && q != IDLE && q !in {c}
      ensures PlacedAt(s', q)
    {
      assert PlacedAt(s, q);
    }
    forall q | 0 <= q < SLOTS && q != IDLE
      ensures PidOk(s', q)
    {
      assert PidOk(s, q);
    }
    assert Held(s', {c});
    hide Held;
    ReleaseIdleOne(s', {c}, c);
    NoneLeft(c);
  }

  /** Back in the loop, nobody is in hand and nobody is current. */
  lemma FinishKeeps(s: State, c: nat)
    requires Ok(s) && s.phase.Switching? && s.current == Some(c)
    ensures c < |s.procs| && Held(Finish(s, c), {}) && Finish(s, c).phase.Switching?
    ensures |Finish(s, c).procs| == |s.procs| && Finish(s, c).procs[IDLE].state in {Ready, Running}
    ensures Finish(s, c).current == None
  {
    hide *;
    OkParts(s);
    SwitchedParts(s, c);
    FinishIs(s, c);
    var p := s.procs[c];
    var held: set<nat> := if c != IDLE && p.state.Zombie? then {c} else {};
    var s1 := if c == IDLE || p.policy.Deadline? then s else SetProc(s, c, p.(vruntime := p.vruntime + Charge(p)));
    ChargeKeeps(s, held, c);
    SetProcIs(s, c, p.(vruntime := p.vruntime + Charge(p)));
    if p.state.Zombie? {
      ReclaimKeeps(s1, c);
      ReclaimedIs();
      SetProcIs(s1, c, Reclaimed());
      var s2 := SetProc(s1, c, Reclaimed()).(sleep := Without(s1.sleep, c));
      HeldPhase(s2, {}, Switching, None);
    } else {
      if p.state.Ready? && c != IDLE {
        ReadyIsQueued(s1, {}, c);
      }
      HeldPhase(s1, {}, Switching, None);
    }
  }

  lemma SetProcIs(s: State, c: nat, proc: Proc)
    requires c < |s.procs|
    ensures SetProc(s, c, proc) == s.(procs := s.procs[c := proc])
  {
  }

  lemma ReclaimedIs()
    ensures Reclaimed().state.Unused?
  {
  }

  /** What is known of the thread that just left. */
  lemma SwitchedParts(s: State, c: nat)
    requires Ok(s) && s.phase.Switching? && s.current == Some(c)
    ensures c < |s.procs| && IDLE < |s.procs| && s.procs[IDLE].state in {Ready, Running}
    ensures Held(s, if c != IDLE && s.procs[c].state.Zombie? then {c} else {})
    ensures c != IDLE ==> s.procs[c].state in {Ready, Waiting, Zombie}
    ensures c == IDLE ==> !s.procs[c].state.Zombie?
  {
    hide Held;
  }

  lemma FinishIs(s: State, c: nat)
    requires c < |s.procs|
    ensures var p := s.procs[c];
      var s1 := if c == IDLE || p.policy.Deadline? then s else SetProc(s, c, p.(vruntime := p.vruntime + Charge(p)));
      var s2 := if p.state.Zombie? then SetProc(s1, c, Reclaimed()).(sleep := Without(s1.sleep, c)) else s1;
      Finish(s, c) == (if s2.procs[c].state.Ready? && c != IDLE then Enqueue(s2, c) else s2).(current := None)
  {
    hide Enqueue, Charge, Without;
  }

  lemma ReturnKeeps(s: State, now: nat)
    requires Ok(s) && s.phase.Switching?
    ensures var r := Return(s, now);
      && Held(r, {}) && |r.procs| == SLOTS && |r.queues| == LEVELS && r.procs[IDLE].state in {Ready, Running} && InRange(r.procs, Flatten(r.queues))
  {
    OkParts(s);
    var s1 := if s.current.None? then s else Finish(s, s.current.value);
    assert s.current.None? ==> InHand(s) == {};
    hide *;
    IdleState(s);
    CurrentInRange(s);
    if s.current.Some? {
      FinishKeeps(s, s.current.value);
    }
    HeldParts(s1, {});
    ReturnIs(s, s1, now);
    WakeExact(s1, {}, now);
    WakesExactlyTheDue(s1, {}, now, IDLE);
    NotAsleep(s1, {}, IDLE);
    HeldParts(WakeSleepers(s1, now), {});
    FlattenInRange(WakeSleepers(s1, now), {});
  }

  lemma IdleState(s: State)
    requires Ok(s)
    ensures IDLE < |s.procs| && s.procs[IDLE].state in {Ready, Running}
  {
  }

  lemma CurrentInRange(s: State)
    requires Ok(s)
    ensures s.current.Some? ==> s.current.value < |s.procs|
  {
  }

  lemma ReturnIs(s: State, s1: State, now: nat)
    requires s.current.None? ==> s1 == s
    requires s.current.Some? ==> s.current.value < |s.procs| && s1 == Finish(s, s.current.value)
    ensures Return(s, now) == WakeSleepers(s1, now)
  {
  }

  lemma ArmedIs(p: Proc)
    ensures 0 < Armed(p).remaining <= Armed(p).ticks && Armed(p).state == p.state && Armed(p).pid == p.pid
    ensures Sane(p) ==> Sane(Armed(p))
  {
  }

  lemma DispatchKeeps(s: State, now: nat)
    requires Ok(s) && s.phase.Switching?
    ensures InRange(Return(s, now).procs, Flatten(Return(s, now).queues)) && IDLE < |Return(s, now).procs| && Ok(DispatchStep(s, now))
  {
    ReturnKeeps(s, now);
    var s1 := Return(s, now);
    hide Ok, Held, Return, Choice, TakeOut, Armed, Flatten, Sane;
    ChoiceFacts(s1.procs, s1.queues);
    var next := Choice(s1.procs, s1.queues);
    if next.Some? {
      var p := next.value;
      TakeReady(s1, {}, p);
      NoneLeft(p);
      QueuedInRange(s1, {}, p);
      StartKeeps(s1.(queues := TakeOut(s1.queues, p)), p);
    } else {
      StartKeeps(s1, IDLE);
    }
  }

  lemma StartKeeps(s: State, p: nat)
    requires p < |s.procs| && Held(s, if p == IDLE then {} else {p}) && (p != IDLE ==> s.procs[p].state.Ready?)
    requires IDLE < |s.procs| && s.procs[IDLE].state in {Ready, Running}
    ensures Ok(Start(s, p))
  {
    var held: set<nat> := if p == IDLE then {} else {p};
    var proc := Armed(s.procs[p].(state := Running));
    hide Ok, Held, Armed, Sane;
    SaneAt(s, held, p);
    SaneSame(s.procs[p], s.procs[p].(state := Running));
    ArmedIs(s.procs[p].(state := Running));
    if p == IDLE {
      SetIdle(s, held, proc);
    } else {
      SetHeld(s, held, p, proc);
    }
    HeldPhase(SetProc(s, p, proc), held, InThread, Some(p));
    InThreadIntro(Start(s, p), p);
  }

  // ---------------------------------------------------------------- runs

  /** The state after a step. */
  ghost function Next(s: State, step: Step): State
    requires Ok(s) && Enabled(s, step)
  {
    match step
    case Yield => YieldKeeps(s); YieldStep(s)
    case Block => BlockKeeps(s); BlockStep(s)
    case SleepFor(ticks, now) => SleepKeeps(s, ticks, now); SleepStep(s, ticks, now)
    case Exit => ExitKeeps(s); ExitStep(s)
    case Tick(now) => TickStep(s, now)
    case Wake(p) => WakeStep(s, p)
    case Create(priority) => CreateStep(s, priority)
    case Configure(p, policy, weight, deadline, now) => ConfigureStep(s, p, policy, weight, deadline, now)
    case Dispatch(now) => DispatchKeeps(s, now); DispatchStep(s, now)
  }

  /** Every step keeps the invariant. */
  lemma NextKeeps(s: State, step: Step)
    requires Ok(s) && Enabled(s, step)
    ensures Ok(Next(s, step))
  {
    hide Ok, YieldStep, BlockStep, SleepStep, ExitStep, TickStep, WakeStep, CreateStep, ConfigureStep, DispatchStep, Return, Flatten;
    match step
    case Yield => YieldKeeps(s);
    case Block => BlockKeeps(s);
    case SleepFor(ticks, now) => SleepKeeps(s, ticks, now);
    case Exit => ExitKeeps(s);
    case Tick(now) => TickKeeps(s, now);
    case Wake(p) => WakeKeeps(s, p);
    case Create(priority) => CreateKeeps(s, priority);
    case Configure(p, policy, weight, deadline, now) => ConfigureKeeps(s, p, policy, weight, deadline, now);
    case Dispatch(now) => DispatchKeeps(s, now);
  }

  function UnusedProc(): Proc {
    Proc(-1, Unused, 0, 0, Fair, DEFAULT_WEIGHT, 0, 0, 0, 0, 0)
  }

  /** The state at boot: only the idle thread exists. */
  function Boot(): State {
    State(
      seq(SLOTS, i requires 0 <= i < SLOTS => if i == IDLE then NewProc(0, MAX_PRIORITY) else UnusedProc()),
      seq(LEVELS, i => []), [], None, Switching, 1)
  }

  lemma BootOk()
    ensures Ok(Boot())
  {
    var s := Boot();
    assert |s.procs| == SLOTS && |s.queues| == LEVELS;
    assert forall p :: 0 <= p < SLOTS ==> s.procs[p] == if p == IDLE then NewProc(0, MAX_PRIORITY) else UnusedProc();
    assert forall k :: 0 <= k < LEVELS ==> QueueOk(s, {}, k);
    assert forall p :: 0 <= p < SLOTS && p != IDLE ==> PlacedAt(s, p) && PidOk(s, p);
    assert InHand(s) == {};
  }

  /** `t` is reached from `s` by the steps `steps`. */
  ghost predicate Run(s: State, steps: seq<Step>, t: State)
    decreases |steps|
  {
    if steps == [] then t == s
    else Ok(s) && Enabled(s, steps[0]) && Run(Next(s, steps[0]), steps[1..], t)
  }

  /** Every state of every run that starts in order is in order. */
  lemma {:induction false} ReachableOk(s: State, steps: seq<Step>, t: State)
    requires Ok(s) && Run(s, steps, t)
    ensures Ok(t)
    decreases |steps|
  {
    if steps != [] {
      hide Ok, Next;
      NextKeeps(s, steps[0]);
      ReachableOk(Next(s, steps[0]), steps[1..], t);
    }
  }

  /** Nothing in a run rests on the invariant: every step that is enabled can be taken next. */
  lemma {:induction false} RunExtends(s: State, steps: seq<Step>, t: State, step: Step)
    requires Ok(s) && Run(s, steps, t) && Enabled(t, step)
    ensures Ok(t) && Run(s, steps + [step], Next(t, step))
    decreases |steps|
  {
    if steps == [] {
      assert (steps + [step])[1..] == [];
    } else {
      hide Ok, Next;
      NextKeeps(s, steps[0]);
      RunExtends(Next(s, steps[0]), steps[1..], t, step);
      assert (steps + [step])[1..] == steps[1..] + [step];
    }
  }

  /** In every state of every run from boot the invariant holds. */
  lemma RunFromBoot(steps: seq<Step>, t: State)
    requires Run(Boot(), steps, t)
    ensures Ok(t)
  {
    hide Boot, Ok, Run;
    BootOk();
    ReachableOk(Boot(), steps, t);
  }
}
