/** The idle thread's mark: once dispatched it stays marked as running, whoever runs. */
module SchedIdle {
  import opened Common
  import opened SchedModel
  import opened SchedInvariant
  import opened SchedSleep
  import opened SchedSteps
  import opened SchedFair

  lemma IdleNotWoken(s: State, held: set<nat>, now: nat)
    requires Held(s, held)
    ensures IDLE < |s.procs| == |WakeSleepers(s, now).procs| && WakeSleepers(s, now).procs[IDLE] == s.procs[IDLE]
    ensures WakeSleepers(s, now).current == s.current
  {
    hide *;
    SleepersInRange(s, held);
    IdleInRange(s, held);
    WakeExact(s, held, now);
    var n := DueCount(s.procs, s.sleep, now);
    WokenAt(s, WakeSleepers(s, now), now, n, IDLE);
    IdleAwake(s, held, n);
  }

  lemma IdleAwake(s: State, held: set<nat>, n: nat)
    requires Held(s, held) && n <= |s.sleep|
    ensures IDLE !in s.sleep[..n]
  {
    assert forall p :: p in s.sleep[..n] ==> p in s.sleep;
  }

  lemma IdleReturned(s: State, now: nat)
    requires Ok(s) && s.phase.Switching?
    ensures IDLE < |s.procs| == |Return(s, now).procs| && Return(s, now).procs[IDLE].state == s.procs[IDLE].state
  {
    OkParts(s);
    CurrentInRange(s);
    IdleState(s);
    var s1 := if s.current.None? then s else Finish(s, s.current.value);
    assert s.current.None? ==> InHand(s) == {};
    hide *;
    ReturnIs(s, s1, now);
    if s.current.Some? {
      FinishKeeps(s, s.current.value);
      IdleFinished(s, s.current.value);
    }
    IdleNotWoken(s1, {}, now);
  }

  lemma IdleFinished(s: State, c: nat)
    requires c < |s.procs| && IDLE < |s.procs| && !s.procs[IDLE].state.Zombie?
    ensures IDLE < |Finish(s, c).procs| && Finish(s, c).procs[IDLE].state == s.procs[IDLE].state
  {
    hide Charge, Queued, PutLast, Without;
  }

  /** Only being dispatched marks the idle thread, and nothing takes the mark off. */
  lemma IdleStep(s: State, step: Step)
    requires Ok(s) && Enabled(s, step)
    ensures IDLE < |s.procs| && IDLE < |Next(s, step).procs|
    ensures Next(s, step).procs[IDLE].state.Running? <==> s.procs[IDLE].state.Running? || (step.Dispatch? && Next(s, step).current == Some(IDLE))
  {
    OkParts(s);
    IdleState(s);
    match step {
      case Dispatch(now) =>
        IdleReturned(s, now);
        DispatchIs(s, now);
        hide Ok, Held, Return, Flatten, Choice;
      case Tick(now) =>
        IdleNotWoken(s, InHand(s), now);
        TickWakes(s, now);
        hide Ok, Held, WakeSleepers, Flatten, Queued, PutLast;
      case _ => hide Held, WakeSleepers, Flatten, Queued, PutLast, Without, InsertByWake;
    }
  }

  /** The run dispatches the idle thread at some point. */
  ghost predicate Idles(s: State, steps: seq<Step>)
    decreases |steps|
  {
    && steps != [] && Ok(s) && Enabled(s, steps[0])
    && ((steps[0].Dispatch? && Next(s, steps[0]).current == Some(IDLE)) || Idles(Next(s, steps[0]), steps[1..]))
  }

  lemma {:induction false} IdleRun(s: State, steps: seq<Step>, t: State)
    requires Ok(s) && Run(s, steps, t)
    ensures IDLE < |s.procs| && IDLE < |t.procs| && (t.procs[IDLE].state.Running? <==> s.procs[IDLE].state.Running? || Idles(s, steps))
    decreases |steps|
  {
    if steps != [] {
      hide Ok, Next, Enabled;
      NextKeeps(s, steps[0]);
      IdleStep(s, steps[0]);
      IdleRun(Next(s, steps[0]), steps[1..], t);
    } else {
      IdleState(s);
    }
  }

  /**
   Over every run from boot: the idle thread is marked as running exactly when it has been
   dispatched before, whoever runs now.
   */
  lemma IdleMarkedIff(steps: seq<Step>, t: State)
    requires Run(Boot(), steps, t)
    ensures IDLE < |t.procs| && (t.procs[IDLE].state.Running? <==> Idles(Boot(), steps))
  {
    BootOk();
    assert Boot().procs[IDLE] == NewProc(0, MAX_PRIORITY);
    hide Boot, Run, Idles, Ok;
    IdleRun(Boot(), steps, t);
  }
}
