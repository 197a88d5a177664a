/**
 The scheduler as a transition system.  A step is one kernel routine up to its context
 switch: a thread runs (`Running`) until a routine switches away (`Switching`), and the
 scheduler loop then dispatches the next thread.
 */
module SchedModel {
  import opened Common

  const SLOTS: nat := 32
  const LEVELS: nat := 4
  const MAX_PRIORITY: nat := 3
  const DEFAULT_TIMESLICE: nat := 4
  const MAX_BOOST: nat := 1
  const BASE_WEIGHT: nat := 1024
  const DEFAULT_WEIGHT: nat := 1024

  /** The slot of the idle thread, the first one allocated. */
  const IDLE: nat := 0

  datatype Status = Unused | Ready | Running | Waiting | Zombie

  datatype Policy = Fair | Deadline

  datatype Proc = Proc(
    pid: int, state: Status, base: nat, dyn: nat, policy: Policy, weight: nat, deadline: nat,
    vruntime: nat, ticks: nat, remaining: nat, wake: nat)

  type Queues = seq<seq<nat>>

  /** Whether a thread runs, or the scheduler loop is about to dispatch one. */
  datatype Phase = InThread | Switching

  datatype State = State(procs: seq<Proc>, queues: Queues, sleep: seq<nat>, current: Option<nat>, phase: Phase, nextPid: nat)

  // ---------------------------------------------------------------- priorities and slices

  function Clamp(priority: nat): (r: nat)
    ensures r < LEVELS
  {
    if priority > MAX_PRIORITY then MAX_PRIORITY else priority
  }

  /** Lower priorities get longer slices, doubling per level. */
  function Timeslice(priority: nat): nat {
    match Clamp(priority)
    case 0 => DEFAULT_TIMESLICE
    case 1 => DEFAULT_TIMESLICE * 2
    case 2 => DEFAULT_TIMESLICE * 4
    case _ => DEFAULT_TIMESLICE * 8
  }

  function Boosted(base: nat): nat {
    Clamp(if base > MAX_BOOST then base - MAX_BOOST else 0)
  }

  function Armed(p: Proc): Proc {
    p.(ticks := Timeslice(p.dyn), remaining := Timeslice(p.dyn))
  }

  /** The virtual time a thread is charged for the ticks it used. */
  function Charge(p: Proc): nat {
    var used := if p.remaining <= p.ticks then p.ticks - p.remaining else p.ticks;
    var weight := if p.weight == 0 then DEFAULT_WEIGHT else p.weight;
    if used == 0 then 0 else if used * BASE_WEIGHT / weight == 0 then 1 else used * BASE_WEIGHT / weight
  }

  // ---------------------------------------------------------------- ready queues

  predicate Queued(queues: Queues, p: nat) {
    exists k :: 0 <= k < |queues| && p in queues[k]
  }

  function PutLast(queues: Queues, k: nat, p: nat): Queues {
    if k < |queues| then queues[k := queues[k] + [p]] else queues
  }

  function Enqueue(s: State, p: nat): State
    requires p < |s.procs|
  {
    if p == IDLE || Queued(s.queues, p) then s
    else s.(queues := PutLast(s.queues, Clamp(s.procs[p].dyn), p))
  }

  function Without(q: seq<nat>, p: nat): seq<nat> {
    if q == [] then [] else if q[0] == p then q[1..] else [q[0]] + Without(q[1..], p)
  }

  /** Takes `p` out of the first queue that holds it. */
  function TakeOut(queues: Queues, p: nat): Queues {
    if queues == [] then []
    else if p in queues[0] then [Without(queues[0], p)] + queues[1..]
    else [queues[0]] + TakeOut(queues[1..], p)
  }

  /** All ready processes, by priority and then by arrival. */
  function Flatten(queues: Queues): seq<nat> {
    if queues == [] then [] else queues[0] + Flatten(queues[1..])
  }

  // ---------------------------------------------------------------- selection

  datatype Rule = ByDeadline | ByRuntime

  predicate Eligible(p: Proc, rule: Rule) {
    if rule.ByDeadline? then p.policy.Deadline? && p.deadline != 0 else p.policy.Fair?
  }

  function Key(p: Proc, rule: Rule): nat {
    if rule.ByDeadline? then p.deadline else p.vruntime
  }

  /** One step of the search for the eligible process with the least key. */
  function Better(procs: seq<Proc>, rule: Rule, best: Option<nat>, p: nat): (r: Option<nat>)
    requires p < |procs| && (best.Some? ==> best.value < |procs|)
    ensures r.Some? ==> r.value < |procs|
  {
    if !Eligible(procs[p], rule) then best
    else if best.None? || Key(procs[p], rule) < Key(procs[best.value], rule) then Some(p)
    else best
  }

  ghost predicate InRange(procs: seq<Proc>, q: seq<nat>) {
    forall i :: 0 <= i < |q| ==> q[i] < |procs|
  }

  /** The search over a list, starting from the best so far. */
  ghost function Search(procs: seq<Proc>, rule: Rule, q: seq<nat>, best: Option<nat>): (r: Option<nat>)
    requires InRange(procs, q) && (best.Some? ==> best.value < |procs|)
    ensures r.Some? ==> r.value < |procs|
    decreases |q|
  {
    if q == [] then best else Search(procs, rule, q[1..], Better(procs, rule, best, q[0]))
  }

  /** The first process of the first nonempty queue. */
  function First(queues: Queues): Option<nat> {
    if queues == [] then None else if queues[0] != [] then Some(queues[0][0]) else First(queues[1..])
  }

  /** Earliest deadline first, then least virtual runtime, then the head of the best queue. */
  ghost function Choice(procs: seq<Proc>, queues: Queues): Option<nat>
    requires InRange(procs, Flatten(queues))
  {
    var urgent := Search(procs, ByDeadline, Flatten(queues), None);
    if urgent.Some? then urgent
    else
      var fair := Search(procs, ByRuntime, Flatten(queues), None);
      if fair.Some? then fair else First(queues)
  }

  // ---------------------------------------------------------------- the sleep list

  function InsertByWake(procs: seq<Proc>, q: seq<nat>, p: nat): seq<nat>
    requires p < |procs| && forall i :: 0 <= i < |q| ==> q[i] < |procs|
  {
    if q == [] || procs[p].wake < procs[q[0]].wake then [p] + q
    else [q[0]] + InsertByWake(procs, q[1..], p)
  }

  /** Wakes one process: it becomes ready with a boosted priority. */
  function Awake(s: State, p: nat): State
    requires p < |s.procs|
  {
    Enqueue(s.(procs := s.procs[p := s.procs[p].(dyn := Boosted(s.procs[p].base), state := Ready)]), p)
  }

  /** Wakes the head of the sleep list. */
  function PopSleeper(s: State): State
    requires s.sleep != [] && s.sleep[0] < |s.procs|
  {
    var p := s.sleep[0];
    Awake(s.(sleep := s.sleep[1..], procs := s.procs[p := s.procs[p].(wake := 0)]), p)
  }

  function WakeSleepers(s: State, now: nat): State
    decreases |s.sleep|
  {
    if s.sleep == [] || s.sleep[0] >= |s.procs| || s.procs[s.sleep[0]].wake > now then s
    else WakeSleepers(PopSleeper(s), now)
  }

  // ---------------------------------------------------------------- the routines

  function SetProc(s: State, p: nat, proc: Proc): State
    requires p < |s.procs|
  {
    s.(procs := s.procs[p := proc])
  }

  function Current(s: State): (c: nat)
    requires s.current.Some?
    ensures s.current == Some(c)
  {
    s.current.value
  }

  /** The running thread gives up the processor but stays ready. */
  function YieldStep(s: State): State
    requires s.current.Some? && s.current.value < |s.procs|
  {
    var c := Current(s);
    if c == IDLE then s
    else
      Enqueue(SetProc(s, c, s.procs[c].(dyn := s.procs[c].base, state := Ready, remaining := 0)), c).(phase := Switching)
  }

  function BlockStep(s: State): State
    requires s.current.Some? && s.current.value < |s.procs|
  {
    var c := Current(s);
    if c == IDLE then s
    else SetProc(s, c, s.procs[c].(state := Waiting, remaining := 0)).(phase := Switching)
  }

  ghost function SleepStep(s: State, ticks: nat, now: nat): State
    requires s.current.Some? && s.current.value < |s.procs| && InRange(s.procs, s.sleep)
  {
    var c := Current(s);
    if c == IDLE then s
    else
      var s1 := SetProc(s, c, s.procs[c].(wake := now + (if ticks == 0 then 1 else ticks), state := Waiting, remaining := 0));
      WithoutSubset(s.sleep, c);
      s1.(sleep := InsertByWake(s1.procs, Without(s.sleep, c), c), phase := Switching)
  }

  lemma {:induction false} WithoutSubset(q: seq<nat>, p: nat)
    ensures forall i :: 0 <= i < |Without(q, p)| ==> Without(q, p)[i] in q
  {
    if q != [] && q[0] != p {
      WithoutSubset(q[1..], p);
    }
  }

  function ExitStep(s: State): State
    requires s.current.Some? && s.current.value < |s.procs|
  {
    var c := Current(s);
    SetProc(s, c, s.procs[c].(state := Zombie)).(sleep := Without(s.sleep, c), phase := Switching)
  }

  /** The running thread loses the processor, one level lower unless it is the idle thread. */
  function Preempt(s: State): State
    requires s.current.Some? && s.current.value < |s.procs|
  {
    var c := Current(s);
    if c == IDLE then s.(phase := Switching)
    else
      var p := s.procs[c];
      Enqueue(SetProc(s, c, p.(dyn := if p.dyn < MAX_PRIORITY then p.dyn + 1 else p.dyn, state := Ready)), c).(phase := Switching)
  }

  function TickStep(s: State, now: nat): State {
    var s1 := WakeSleepers(s, now);
    if s1.current.None? || s1.current.value >= |s1.procs| then s1
    else
      var c := s1.current.value;
      if c == IDLE then (if Flatten(s1.queues) != [] then Preempt(s1) else s1)
      else
        var left := if s1.procs[c].remaining > 0 then s1.procs[c].remaining - 1 else 0;
        var s2 := SetProc(s1, c, s1.procs[c].(remaining := left));
        if left == 0 then Preempt(s2) else s2
  }

  function WakeStep(s: State, p: nat): State
    requires p < |s.procs|
  {
    if !s.procs[p].state.Waiting? then s else Awake(s.(sleep := Without(s.sleep, p)), p)
  }

  /** The first slot that can be reused, at index `i` or later. */
  function FreeSlot(procs: seq<Proc>, i: nat): (r: Option<nat>)
    requires i <= |procs|
    ensures r.Some? ==> i <= r.value < |procs| && procs[r.value].state in {Unused, Zombie}
    ensures r.None? ==> forall j :: i <= j < |procs| ==> procs[j].state !in {Unused, Zombie}
    decreases |procs| - i
  {
    if i == |procs| then None
    else if procs[i].state in {Unused, Zombie} then Some(i)
    else FreeSlot(procs, i + 1)
  }

  function NewProc(pid: int, base: nat): Proc {
    Armed(Proc(pid, Ready, base, base, Fair, DEFAULT_WEIGHT, 0, 0, 0, 0, 0))
  }

  function CreateStep(s: State, priority: nat): State {
    var slot := FreeSlot(s.procs, 0);
    if slot.None? then s
    else
      Enqueue(SetProc(s, slot.value, NewProc(s.nextPid, Clamp(priority))).(nextPid := s.nextPid + 1), slot.value)
  }

  function ConfigureStep(s: State, p: nat, policy: Policy, weight: nat, deadline: nat, now: nat): State
    requires p < |s.procs|
  {
    var w := if weight == 0 then DEFAULT_WEIGHT else weight;
    if policy.Fair? then SetProc(s, p, s.procs[p].(policy := Fair, weight := w, deadline := 0))
    else SetProc(s, p, s.procs[p].(policy := Deadline, weight := w, deadline := if deadline != 0 && deadline < now then now + deadline else deadline))
  }

  /** The values a reclaimed slot is reset to. */
  function Reclaimed(): Proc {
    Proc(-1, Unused, MAX_PRIORITY, MAX_PRIORITY, Fair, DEFAULT_WEIGHT, 0, 0, 0, 0, 0)
  }

  /** The scheduler loop, back from thread `c`: charge it, reclaim it if it exited. */
  function Finish(s: State, c: nat): State
    requires c < |s.procs|
  {
    var p := s.procs[c];
    var s1 := if c == IDLE || p.policy.Deadline? then s else SetProc(s, c, p.(vruntime := p.vruntime + Charge(p)));
    var s2 := if p.state.Zombie? then SetProc(s1, c, Reclaimed()).(sleep := Without(s1.sleep, c)) else s1;
    var s3 := if s2.procs[c].state.Ready? && c != IDLE then Enqueue(s2, c) else s2;
    s3.(current := None)
  }

  /** Gives the processor to `p`. */
  function Start(s: State, p: nat): State
    requires p < |s.procs|
  {
    SetProc(s, p, Armed(s.procs[p].(state := Running))).(current := Some(p), phase := InThread)
  }

  /** The part of the loop up to the choice. */
  function Return(s: State, now: nat): State {
    WakeSleepers(if s.current.None? || s.current.value >= |s.procs| then s else Finish(s, s.current.value), now)
  }

  /** One turn of the scheduler loop. */
  ghost function DispatchStep(s: State, now: nat): State
    requires InRange(Return(s, now).procs, Flatten(Return(s, now).queues)) && IDLE < |Return(s, now).procs|
  {
    var s1 := Return(s, now);
    var next := Choice(s1.procs, s1.queues);
    if next.Some? && next.value < |s1.procs| then Start(s1.(queues := TakeOut(s1.queues, next.value)), next.value)
    else Start(s1, IDLE)
  }

  // ---------------------------------------------------------------- steps

  datatype Step =
    | Yield
    | Block
    | SleepFor(ticks: nat, now: nat)
    | Exit
    | Tick(now: nat)
    | Wake(p: nat)
    | Create(priority: nat)
    | Configure(p: nat, policy: Policy, weight: nat, deadline: nat, now: nat)
    | Dispatch(now: nat)

  /** When a step can be taken; the idle thread never exits. */
  predicate Enabled(s: State, step: Step) {
    match step
    case Yield => s.phase.InThread?
    case Block => s.phase.InThread?
    case SleepFor(_, _) => s.phase.InThread?
    case Exit => s.phase.InThread? && s.current != Some(IDLE)
    case Tick(_) => s.phase.InThread?
    case Wake(p) => p < |s.procs| && s.phase.InThread?
    case Create(_) => s.phase.InThread? || s.current.None?
    case Configure(p, _, _, _, _) => p < |s.procs| && s.phase.InThread? && s.procs[p].state != Unused && p != IDLE
    case Dispatch(_) => s.phase.Switching?
  }
}
