/**
 A run from boot after which two always-ready threads are within the largest single charge and the
 next dispatch takes them out of it: the first one uses up slices of 8 and 16 ticks, creates the
 second one in its third slice, and returns after 32 ticks.
 */
module SchedAhead {
  import opened Common
  import opened SchedModel
  import opened SchedInvariant
  import opened SchedSteps
  import opened SchedFair
  import opened SchedSpread

  // ---------------------------------------------------------------- running through a slice

  lemma {:induction false} RunConcat(s: State, a: seq<Step>, t: State, b: seq<Step>, u: State)
    requires Run(s, a, t) && Run(t, b, u)
    ensures Run(s, a + b, u)
    decreases |a|
  {
    hide Ok, Next, Enabled;
    if a == [] {
      assert a + b == b;
    } else {
      RunConcat(Next(s, a[0]), a[1..], t, b, u);
      assert (a + b)[0] == a[0] && (a + b)[1..] == a[1..] + b;
    }
  }

  lemma RunOne(s: State, step: Step)
    requires Ok(s) && Enabled(s, step)
    ensures Run(s, [step], Next(s, step))
  {
    hide Ok, Next, Enabled;
    assert [step][1..] == [];
  }

  function Ticks(n: nat): seq<Step> {
    seq(n, i => Tick(0))
  }

  /** Thread `c` runs, nobody sleeps. */
  ghost predicate Alone(s: State, c: nat) {
    s.phase.InThread? && s.current == Some(c) && c != IDLE && c < |s.procs| && s.sleep == []
  }

  lemma OneTick(s: State, c: nat)
    requires Ok(s) && Alone(s, c)
    ensures Enabled(s, Tick(0)) && s.procs[c].remaining > 0
    ensures s.procs[c].remaining > 1 ==> Next(s, Tick(0)) == SetProc(s, c, s.procs[c].(remaining := s.procs[c].remaining - 1))
    ensures s.procs[c].remaining == 1 ==> Next(s, Tick(0)) == Preempt(SetProc(s, c, s.procs[c].(remaining := 0)))
  {
    hide Held, Flatten, Queued;
  }

  /** The ticks of a slice, up to the one that ends it. */
  lemma {:induction false} WholeSlice(s: State, c: nat)
    requires Ok(s) && Alone(s, c)
    ensures Run(s, Ticks(s.procs[c].remaining), Preempt(SetProc(s, c, s.procs[c].(remaining := 0))))
    decreases s.procs[c].remaining
  {
    OneTick(s, c);
    NextKeeps(s, Tick(0));
    hide Ok, Next, Enabled, Preempt, Queued, Flatten;
    var n, u := s.procs[c].remaining, Next(s, Tick(0));
    assert Ticks(n)[0] == Tick(0) && Ticks(n)[1..] == Ticks(n - 1);
    if n > 1 {
      assert SetProc(u, c, u.procs[c].(remaining := 0)) == SetProc(s, c, s.procs[c].(remaining := 0));
      WholeSlice(u, c);
    } else {
      assert Ticks(0) == [];
    }
  }

  // ---------------------------------------------------------------- two threads

  /** The idle thread, threads 1 and 2, and no other. */
  function Three(one: Proc, two: Proc, queues: Queues, current: Option<nat>, phase: Phase, nextPid: nat): State {
    State(seq(SLOTS, i requires 0 <= i < SLOTS => if i == IDLE then NewProc(0, MAX_PRIORITY) else if i == 1 then one else if i == 2 then two else UnusedProc()),
      queues, [], current, phase, nextPid)
  }

  function Thread(pid: int, state: Status, dyn: nat, vruntime: nat, ticks: nat, remaining: nat): Proc {
    Proc(pid, state, 1, dyn, Fair, DEFAULT_WEIGHT, 0, vruntime, ticks, remaining, 0)
  }

  function NoQueues(): Queues { [[], [], [], []] }

  /** Thread 1 is the only ready one, at level `k`. */
  function Only(k: nat): Queues
    requires k < LEVELS
  {
    NoQueues()[k := [1]]
  }

  lemma SetOne(one: Proc, two: Proc, queues: Queues, current: Option<nat>, phase: Phase, nextPid: nat, p: Proc)
    ensures var s := Three(one, two, queues, current, phase, nextPid);
      && |s.procs| == SLOTS && s.procs[1] == one && s.procs[2] == two && s.procs[IDLE] == NewProc(0, MAX_PRIORITY)
      && SetProc(s, 1, p) == Three(p, two, queues, current, phase, nextPid)
      && SetProc(s, 2, p) == Three(one, p, queues, current, phase, nextPid)
  {
    var s := Three(one, two, queues, current, phase, nextPid);
    assert s.procs[1 := p] == Three(p, two, queues, current, phase, nextPid).procs;
    assert s.procs[2 := p] == Three(one, p, queues, current, phase, nextPid).procs;
  }

  lemma {:induction false} LoneFlat(queues: Queues, k: nat, x: seq<nat>)
    requires k < |queues| && queues[k] == x && (x == [] || x == [1]) && forall j :: 0 <= j < |queues| && j != k ==> queues[j] == []
    ensures Flatten(queues) == x && (x != [] ==> TakeOut(queues, 1) == queues[k := []])
  {
    var rest := queues[1..];
    if k > 0 {
      LoneFlat(rest, k - 1, x);
    } else if rest != [] {
      LoneFlat(rest, 0, []);
    }
  }

  lemma OnlyIs(k: nat)
    requires k < LEVELS
    ensures Flatten(Only(k)) == [1] && TakeOut(Only(k), 1) == NoQueues() && Queued(Only(k), 1)
  {
    assert Only(k)[k] == [1];
    LoneFlat(Only(k), k, [1]);
    assert Only(k)[k := []] == NoQueues();
  }

  lemma FinishReady(s: State, c: nat)
    requires c < |s.procs| && c != IDLE && s.procs[c].state.Ready? && s.procs[c].policy.Fair? && Queued(s.queues, c)
    ensures Finish(s, c) == SetProc(s, c, s.procs[c].(vruntime := s.procs[c].vruntime + Charge(s.procs[c]))).(current := None)
  {
    hide Charge, Queued, PutLast, Without;
  }

  lemma NobodyWakes(s: State, now: nat)
    requires s.sleep == []
    ensures WakeSleepers(s, now) == s
  {
  }

  lemma LoneChoice(r: State)
    requires Flatten(r.queues) == [1] && 1 < |r.procs| && r.procs[1].policy.Fair?
    ensures InRange(r.procs, Flatten(r.queues)) && Choice(r.procs, r.queues) == Some(1)
  {
    assert [1][1..] == [];
  }

  lemma ReturnLone(p: Proc, k: nat, current: Option<nat>, nextPid: nat)
    requires k < LEVELS && p.state.Ready? && p.policy.Fair? && (current == None || current == Some(1))
    ensures var v := if current.None? then p.vruntime else p.vruntime + Charge(p);
      Return(Three(p, UnusedProc(), Only(k), current, Switching, nextPid), 0) == Three(p.(vruntime := v), UnusedProc(), Only(k), None, Switching, nextPid)
  {
    hide *;
    var s := Three(p, UnusedProc(), Only(k), current, Switching, nextPid);
    OnlyIs(k);
    ThreeIs(p, UnusedProc(), Only(k), current, Switching, nextPid);
    if current.None? {
      ReturnIs(s, s, 0);
      NobodyWakes(s, 0);
      assert p.(vruntime := p.vruntime) == p;
    } else {
      var q := p.(vruntime := p.vruntime + Charge(p));
      SetOne(p, UnusedProc(), Only(k), current, Switching, nextPid, q);
      SetProcIs(s, 1, q);
      FinishReady(s, 1);
      var r := Three(q, UnusedProc(), Only(k), None, Switching, nextPid);
      ThreeIs(q, UnusedProc(), Only(k), current, Switching, nextPid);
      ReturnIs(s, r, 0);
      NobodyWakes(r, 0);
    }
  }

  lemma ThreeIs(one: Proc, two: Proc, queues: Queues, current: Option<nat>, phase: Phase, nextPid: nat)
    ensures var s := Three(one, two, queues, current, phase, nextPid);
      && s.queues == queues && s.sleep == [] && s.current == current && s.phase == phase && s.nextPid == nextPid
      && |s.procs| == 32 && s.procs[1] == one && s.procs[2] == two && IDLE == 0 && LEVELS == 4
      && s.(current := None) == Three(one, two, queues, None, phase, nextPid)
      && s.(current := Some(1), phase := InThread) == Three(one, two, queues, Some(1), InThread, nextPid)
      && (forall q, n :: s.(queues := q, nextPid := n) == Three(one, two, q, current, phase, n))
      && (forall q :: s.(queues := q) == Three(one, two, q, current, phase, nextPid))
  {
  }

  lemma DispatchChosen(s: State, r: State, c: nat)
    requires Ok(s) && s.phase.Switching? && Return(s, 0) == r && InRange(r.procs, Flatten(r.queues)) && Choice(r.procs, r.queues) == Some(c) && c < |r.procs|
    ensures Enabled(s, Dispatch(0)) && Next(s, Dispatch(0)) == Start(r.(queues := TakeOut(r.queues, c)), c)
  {
    DispatchKeeps(s, 0);
    hide Ok, Return, Flatten, Choice, TakeOut, Start, InRange;
  }

  lemma StartIs(s: State, c: nat)
    requires c < |s.procs|
    ensures var p := s.procs[c];
      Start(s, c) == SetProc(s, c, p.(state := Running, ticks := Timeslice(p.dyn), remaining := Timeslice(p.dyn))).(current := Some(c), phase := InThread)
  {
  }

  /** The only ready thread is dispatched, and charged if it was the one that returned. */
  lemma DispatchLone(p: Proc, k: nat, current: Option<nat>, nextPid: nat)
    requires k < LEVELS && p.state.Ready? && p.policy.Fair? && p.dyn == k && (current == None || current == Some(1))
    requires Ok(Three(p, UnusedProc(), Only(k), current, Switching, nextPid))
    ensures var s := Three(p, UnusedProc(), Only(k), current, Switching, nextPid);
      var v := if current.None? then p.vruntime else p.vruntime + Charge(p);
      && Enabled(s, Dispatch(0))
      && Next(s, Dispatch(0)) == Three(p.(state := Running, vruntime := v, ticks := Timeslice(k), remaining := Timeslice(k)), UnusedProc(), NoQueues(), Some(1), InThread, nextPid)
  {
    hide *;
    var s := Three(p, UnusedProc(), Only(k), current, Switching, nextPid);
    var v := if current.None? then p.vruntime else p.vruntime + Charge(p);
    var q := p.(vruntime := v);
    var r := Three(q, UnusedProc(), Only(k), None, Switching, nextPid);
    ReturnLone(p, k, current, nextPid);
    ThreeIs(p, UnusedProc(), Only(k), current, Switching, nextPid);
    ThreeIs(q, UnusedProc(), Only(k), None, Switching, nextPid);
    OnlyIs(k);
    LoneChoice(r);
    DispatchChosen(s, r, 1);
    var r1, run := Three(q, UnusedProc(), NoQueues(), None, Switching, nextPid), q.(state := Running, ticks := Timeslice(k), remaining := Timeslice(k));
    ThreeIs(q, UnusedProc(), NoQueues(), None, Switching, nextPid);
    StartIs(r1, 1);
    SetOne(q, UnusedProc(), NoQueues(), None, Switching, nextPid, run);
    ThreeIs(run, UnusedProc(), NoQueues(), None, Switching, nextPid);
  }

  function Lower(level: nat): nat {
    if level < MAX_PRIORITY then level + 1 else level
  }

  lemma PreemptIs(s: State, c: nat, queues: Queues)
    requires s.current == Some(c) && c < |s.procs| && c != IDLE && !Queued(s.queues, c) && s.procs[c].dyn < LEVELS && |s.queues| == LEVELS
    requires var d := Lower(s.procs[c].dyn); d < LEVELS && queues == s.queues[d := s.queues[d] + [c]]
    ensures Preempt(s) == SetProc(s, c, s.procs[c].(dyn := Lower(s.procs[c].dyn), state := Ready)).(queues := queues, phase := Switching)
  {
    hide Queued;
  }

  /** Thread 1 uses up its slice and returns one level lower. */
  lemma SliceEnds(p: Proc, two: Proc, queues: Queues, after: Queues, nextPid: nat)
    requires Ok(Three(p, two, queues, Some(1), InThread, nextPid)) && !Queued(queues, 1) && p.dyn < LEVELS && |queues| == LEVELS
    requires var d := Lower(p.dyn); d < LEVELS && after == queues[d := queues[d] + [1]]
    ensures Run(Three(p, two, queues, Some(1), InThread, nextPid), Ticks(p.remaining),
      Three(p.(remaining := 0, dyn := Lower(p.dyn), state := Ready), two, after, Some(1), Switching, nextPid))
  {
    hide *;
    var s := Three(p, two, queues, Some(1), InThread, nextPid);
    ThreeIs(p, two, queues, Some(1), InThread, nextPid);
    AloneIs(s);
    WholeSlice(s, 1);
    var q := p.(remaining := 0);
    SetOne(p, two, queues, Some(1), InThread, nextPid, q);
    ThreeIs(q, two, queues, Some(1), InThread, nextPid);
    PreemptIs(Three(q, two, queues, Some(1), InThread, nextPid), 1, after);
    var r := q.(dyn := Lower(p.dyn), state := Ready);
    SetOne(q, two, queues, Some(1), InThread, nextPid, r);
    Rearranged(r, two, queues, after, nextPid);
  }

  lemma AloneIs(s: State)
    requires s.phase.InThread? && s.current == Some(1) && |s.procs| == 32 && s.sleep == []
    ensures Alone(s, 1)
  {
  }

  lemma Rearranged(one: Proc, two: Proc, queues: Queues, after: Queues, nextPid: nat)
    ensures Three(one, two, queues, Some(1), InThread, nextPid).(queues := after, phase := Switching) == Three(one, two, after, Some(1), Switching, nextPid)
  {
  }

  /** A new thread gets the first slot that is not in use. */
  lemma CreateFirst()
    ensures Enabled(Boot(), Create(1)) && Boot() == Three(UnusedProc(), UnusedProc(), NoQueues(), None, Switching, 1)
    ensures Ok(Boot()) && Next(Boot(), Create(1)) == Three(Thread(1, Ready, 1, 0, 8, 8), UnusedProc(), Only(1), None, Switching, 2)
  {
    BootOk();
    hide Ok;
    var s := Boot();
    assert s.procs == Three(UnusedProc(), UnusedProc(), NoQueues(), None, Switching, 1).procs;
    assert s.queues == NoQueues();
    assert s.procs[0] == NewProc(0, MAX_PRIORITY) && s.procs[0].state == Ready && s.procs[1].state == Unused;
    assert FreeSlot(s.procs, 1) == Some(1) && FreeSlot(s.procs, 0) == FreeSlot(s.procs, 1);
    SetOne(UnusedProc(), UnusedProc(), NoQueues(), None, Switching, 1, Thread(1, Ready, 1, 0, 8, 8));
    assert NewProc(1, 1) == Thread(1, Ready, 1, 0, 8, 8);
    assert !Queued(NoQueues(), 1);
    assert NoQueues()[1] + [1] == [1];
    assert PutLast(NoQueues(), 1, 1) == Only(1);
  }

  function Late(): Queues { [[], [2], [], []] }

  lemma CreateSecond(p: Proc)
    requires p.state.Running? && Ok(Three(p, UnusedProc(), NoQueues(), Some(1), InThread, 2))
    ensures var s := Three(p, UnusedProc(), NoQueues(), Some(1), InThread, 2);
      Enabled(s, Create(1)) && Next(s, Create(1)) == Three(p, Thread(2, Ready, 1, 0, 8, 8), Late(), Some(1), InThread, 3)
  {
    hide Ok;
    var s := Three(p, UnusedProc(), NoQueues(), Some(1), InThread, 2);
    assert s.procs[0] == NewProc(0, MAX_PRIORITY) && s.procs[0].state == Ready && s.procs[1] == p && s.procs[2].state == Unused;
    assert FreeSlot(s.procs, 2) == Some(2) && FreeSlot(s.procs, 1) == FreeSlot(s.procs, 2) && FreeSlot(s.procs, 0) == FreeSlot(s.procs, 1);
    SetOne(p, UnusedProc(), NoQueues(), Some(1), InThread, 2, Thread(2, Ready, 1, 0, 8, 8));
    assert NewProc(2, 1) == Thread(2, Ready, 1, 0, 8, 8);
    assert !Queued(NoQueues(), 2);
    assert NoQueues()[1] + [2] == [2];
    assert PutLast(NoQueues(), 1, 2) == Late();
  }

  lemma Numbers()
    ensures Timeslice(1) == 8 && Timeslice(2) == 16 && Timeslice(3) == 32 && LEVELS == 4 && Lower(1) == 2 && Lower(2) == 3 && Lower(3) == 3
    ensures Charge(Thread(1, Ready, 2, 0, 8, 0)) == 8 && Charge(Thread(1, Ready, 3, 8, 16, 0)) == 16 && Charge(Thread(1, Ready, 3, 24, 32, 0)) == 32
    ensures !Queued(NoQueues(), 1) && !Queued(Late(), 1)
    ensures |NoQueues()| == 4 && NoQueues()[2 := NoQueues()[2] + [1]] == Only(2) && NoQueues()[3 := NoQueues()[3] + [1]] == Only(3)
    ensures |Late()| == 4 && Late()[3 := Late()[3] + [1]] == [[], [2], [], [1]]
  {
    assert NoQueues()[2] + [1] == [1] && NoQueues()[3] + [1] == [1] && Late()[3] + [1] == [1];
  }

  /** Thread 1 has used up 8, 16 and 32 ticks, the last of which it has not been charged for; thread 2 is new. */
  function Ahead(): State {
    Three(Thread(1, Ready, 3, 24, 32, 0), Thread(2, Ready, 1, 0, 8, 8), [[], [2], [], [1]], Some(1), Switching, 3)
  }

  lemma ThreadIs(pid: int, state: Status, dyn: nat, vruntime: nat, ticks: nat, remaining: nat)
    ensures var p := Thread(pid, state, dyn, vruntime, ticks, remaining);
      p.pid == pid && p.state == state && p.dyn == dyn && p.vruntime == vruntime && p.ticks == ticks && p.remaining == remaining && p.policy.Fair?
  {
  }

  /** A slice of thread 1 alone: dispatched at level `k` with `t` ticks, back one level lower. */
  lemma LoneSlice(steps: seq<Step>, k: nat, current: Option<nat>, v: nat, before: nat, left: nat, w: nat, t: nat) returns (steps': seq<Step>)
    requires k < MAX_PRIORITY && (current == None || current == Some(1)) && t == Timeslice(k)
    requires Run(Boot(), steps, Three(Thread(1, Ready, k, v, before, left), UnusedProc(), Only(k), current, Switching, 2))
    requires w == if current.None? then v else v + Charge(Thread(1, Ready, k, v, before, left))
    ensures Run(Boot(), steps', Three(Thread(1, Ready, k + 1, w, t, 0), UnusedProc(), Only(k + 1), Some(1), Switching, 2))
  {
    hide *;
    BootOk();
    Levels();
    var p := Thread(1, Ready, k, v, before, left);
    ThreadIs(1, Ready, k, v, before, left);
    RunFromBoot(steps, Three(p, UnusedProc(), Only(k), current, Switching, 2));
    DispatchLone(p, k, current, 2);
    RunExtends(Boot(), steps, Three(p, UnusedProc(), Only(k), current, Switching, 2), Dispatch(0));
    ThreadAt(p, Running, k, w, t, t);
    var q := Thread(1, Running, k, w, t, t);
    var s := Three(q, UnusedProc(), NoQueues(), Some(1), InThread, 2);
    RunFromBoot(steps + [Dispatch(0)], s);
    ThreadIs(1, Running, k, w, t, t);
    Requeued(k + 1);
    SliceEnds(q, UnusedProc(), NoQueues(), Only(k + 1), 2);
    ThreadAt(q, Ready, k + 1, w, t, 0);
    RunConcat(Boot(), steps + [Dispatch(0)], s, Ticks(t), Three(Thread(1, Ready, k + 1, w, t, 0), UnusedProc(), Only(k + 1), Some(1), Switching, 2));
    steps' := steps + [Dispatch(0)] + Ticks(t);
  }

  lemma Levels()
    ensures MAX_PRIORITY == 3 && LEVELS == 4 && forall k: nat :: Lower(k) == if k < 3 then k + 1 else k
  {
  }

  lemma ThreadAt(p: Proc, x: Status, d: nat, v: nat, n: nat, r: nat)
    requires p == Thread(p.pid, p.state, p.dyn, p.vruntime, p.ticks, p.remaining)
    ensures Thread(p.pid, x, d, v, n, r).pid == p.pid
    ensures p.dyn == d ==> p.(state := x, vruntime := v, ticks := n, remaining := r) == Thread(p.pid, x, d, v, n, r)
    ensures p.vruntime == v && p.ticks == n ==> p.(remaining := r, dyn := d, state := x) == Thread(p.pid, x, d, v, n, r)
  {
  }

  lemma Requeued(d: nat)
    requires 0 < d < 4
    ensures !Queued(NoQueues(), 1) && |NoQueues()| == 4 && d < LEVELS && NoQueues()[d := NoQueues()[d] + [1]] == Only(d)
  {
    assert NoQueues()[d] + [1] == [1];
  }

  lemma AheadReached() returns (steps: seq<Step>)
    ensures Run(Boot(), steps, Ahead())
  {
    hide *;
    CreateFirst();
    Numbers();
    Levels();
    RunOne(Boot(), Create(1));
    steps := LoneSlice([Create(1)], 1, None, 0, 8, 8, 0, 8);
    steps := LoneSlice(steps, 2, Some(1), 0, 8, 0, 8, 16);
    steps := ThirdSlice(steps);
  }

  lemma ThirdSlice(steps: seq<Step>) returns (steps': seq<Step>)
    requires Run(Boot(), steps, Three(Thread(1, Ready, 3, 8, 16, 0), UnusedProc(), Only(3), Some(1), Switching, 2))
    ensures Run(Boot(), steps', Ahead())
  {
    hide *;
    BootOk();
    Levels();
    Numbers();
    var p := Thread(1, Ready, 3, 8, 16, 0);
    ThreadIs(1, Ready, 3, 8, 16, 0);
    var s := Three(p, UnusedProc(), Only(3), Some(1), Switching, 2);
    RunFromBoot(steps, s);
    DispatchLone(p, 3, Some(1), 2);
    RunExtends(Boot(), steps, s, Dispatch(0));
    ThreadAt(p, Running, 3, 24, 32, 32);
    var q := Thread(1, Running, 3, 24, 32, 32);
    ThreadIs(1, Running, 3, 24, 32, 32);
    var s1 := Three(q, UnusedProc(), NoQueues(), Some(1), InThread, 2);
    RunFromBoot(steps + [Dispatch(0)], s1);
    CreateSecond(q);
    RunExtends(Boot(), steps + [Dispatch(0)], s1, Create(1));
    var two := Thread(2, Ready, 1, 0, 8, 8);
    var s2 := Three(q, two, Late(), Some(1), InThread, 3);
    steps' := steps + [Dispatch(0)] + [Create(1)];
    RunFromBoot(steps', s2);
    SliceEnds(q, two, Late(), [[], [2], [], [1]], 3);
    ThreadAt(q, Ready, 3, 24, 32, 0);
    AheadIs();
    RunConcat(Boot(), steps', s2, Ticks(32), Ahead());
    steps' := steps' + Ticks(32);
  }

  lemma AheadIs()
    ensures Ahead() == Three(Thread(1, Ready, 3, 24, 32, 0), Thread(2, Ready, 1, 0, 8, 8), [[], [2], [], [1]], Some(1), Switching, 3)
  {
  }

  lemma AheadAt()
    ensures var s := Ahead();
      && |s.procs| == 32 && s.procs[1] == Thread(1, Ready, 3, 24, 32, 0) && s.procs[2] == Thread(2, Ready, 1, 0, 8, 8)
      && s.phase.Switching? && s.current == Some(1) && s.queues == [[], [2], [], [1]] && s.sleep == [] && Queued(s.queues, 1)
    ensures Busy(Ahead(), {1, 2}, 32) && Within(Ahead(), {1, 2}, 32) && Charge(Ahead().procs[1]) == 32
  {
    var s := Ahead();
    assert s.queues[3] == [1];
    assert MaxCharge(s.procs[1]) == 32 && MaxCharge(s.procs[2]) == 32;
  }

  /** Two ready fair threads stay a busy pair when one of them, or another thread, is started. */
  lemma ReadyPair(r: State, t: State)
    requires 2 < |r.procs| == |t.procs| && t.current.Some? && t.current.value < |t.procs| && t.procs[t.current.value].state.Running?
    requires forall a :: a in {1, 2} ==> r.procs[a].state.Ready? && r.procs[a].policy.Fair? && r.procs[a].weight == DEFAULT_WEIGHT
    requires forall q :: 0 <= q < |r.procs| ==>
      && t.procs[q].policy == r.procs[q].policy && t.procs[q].weight == r.procs[q].weight
      && (q != t.current.value ==> t.procs[q] == r.procs[q])
    ensures Busy(t, {1, 2}, 32)
  {
  }

  lemma AheadReturns(now: nat)
    ensures var r := Return(Ahead(), now);
      |r.procs| == 32 && forall a :: a in {1, 2} ==> r.procs[a].state.Ready? && r.procs[a].policy.Fair? && r.procs[a].weight == DEFAULT_WEIGHT
  {
    AheadAt();
    var s := Ahead();
    FinishReady(s, 1);
    NobodyWakes(Finish(s, 1), now);
    hide Ahead, Charge, Finish, Queued, Busy, Within;
  }

  lemma AheadBusy(now: nat)
    requires Ok(Ahead())
    ensures InRange(Return(Ahead(), now).procs, Flatten(Return(Ahead(), now).queues)) && IDLE < |Return(Ahead(), now).procs|
    ensures Busy(DispatchStep(Ahead(), now), {1, 2}, 32)
  {
    hide *;
    AheadAt();
    DispatchIs(Ahead(), now);
    AheadReturns(now);
    ReadyPair(Return(Ahead(), now), DispatchStep(Ahead(), now));
  }

  /** A run from boot to a state within the limit, from which one dispatch leaves it. */
  lemma AheadLeavesLimit(now: nat) returns (steps: seq<Step>, s: State)
    ensures Run(Boot(), steps, s) && Busy(s, {1, 2}, 32) && Within(s, {1, 2}, 32)
    ensures Ok(s) && Enabled(s, Dispatch(now)) && StaysBusy(s, [Dispatch(now)], {1, 2}, 32, Next(s, Dispatch(now)))
    ensures !Within(Next(s, Dispatch(now)), {1, 2}, 32)
  {
    hide *;
    s := Ahead();
    steps := AheadReached();
    RunFromBoot(steps, s);
    AheadAt();
    AheadBusy(now);
    DispatchEnabled(s, now);
    DispatchNext(s, now);
    StaysBusyOne(s, Dispatch(now), {1, 2}, 32);
    ThreadIs(1, Ready, 3, 24, 32, 0);
    ThreadIs(2, Ready, 1, 0, 8, 8);
    DispatchWithinIff(s, now, {1, 2}, 32);
    var a, b := 1, 2;
    assert s.procs[a].vruntime + Charge(s.procs[a]) > s.procs[b].vruntime + 32;
  }

  lemma DispatchEnabled(s: State, now: nat)
    requires s.phase.Switching?
    ensures Enabled(s, Dispatch(now))
  {
  }
}
