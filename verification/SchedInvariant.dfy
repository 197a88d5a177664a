/**
 The scheduler invariant: every live thread other than the idle one is in exactly one
 place, and the sleep list is sorted.  `held` are the threads some routine has in hand.
 */
module SchedInvariant {
  import opened Common
  import opened SchedModel
  import opened SchedLists

  /** The numbers of a thread that routines rely on. */
  ghost predicate Sane(p: Proc) {
    p.base < LEVELS && p.dyn < LEVELS && p.ticks <= Timeslice(MAX_PRIORITY)
  }

  ghost predicate QueueOk(s: State, held: set<nat>, k: nat)
    requires k < |s.queues|
  {
    && Distinct(s.queues[k])
    && forall p :: p in s.queues[k] ==> p < |s.procs| && p != IDLE && p !in held && s.procs[p].state.Ready? && s.procs[p].dyn == k
  }

  ghost predicate QueuesOk(s: State, held: set<nat>) {
    |s.queues| == LEVELS && forall k :: 0 <= k < LEVELS ==> QueueOk(s, held, k)
  }

  ghost predicate Sorted(procs: seq<Proc>, q: seq<nat>) {
    InRange(procs, q) && forall i, j :: 0 <= i < j < |q| ==> procs[q[i]].wake <= procs[q[j]].wake
  }

  /** The sleep list holds waiting threads, each once, by wake time. */
  ghost predicate SleepOk(s: State, held: set<nat>) {
    && Distinct(s.sleep) && Sorted(s.procs, s.sleep)
    && forall p :: p in s.sleep ==> p < |s.procs| && p != IDLE && p !in held && s.procs[p].state.Waiting?
  }

  /** A thread nobody has in hand is unused, ready on its queue, or waiting. */
  ghost predicate PlacedAt(s: State, p: nat)
    requires p < |s.procs|
  {
    || s.procs[p].state.Unused?
    || s.procs[p].state.Waiting?
    || (s.procs[p].state.Ready? && s.procs[p].dyn < |s.queues| && p in s.queues[s.procs[p].dyn])
  }

  ghost predicate PidOk(s: State, p: nat)
    requires p < |s.procs|
  {
    s.procs[p].state != Unused ==> 0 < s.procs[p].pid < s.nextPid
  }

  ghost predicate ProcsOk(s: State, held: set<nat>) {
    && |s.procs| == SLOTS && IDLE !in held
    && (forall p :: p in held ==> p < SLOTS)
    && (forall p :: 0 <= p < SLOTS ==> Sane(s.procs[p]))
    && (forall p :: 0 <= p < SLOTS && p != IDLE && p !in held ==> PlacedAt(s, p))
  }

  /** Live threads have process numbers of their own. */
  ghost predicate PidsOk(s: State) {
    && s.nextPid > 0
    && (forall p :: 0 <= p < |s.procs| && p != IDLE ==> PidOk(s, p))
    && (forall p, q :: 0 <= p < q < |s.procs| && p != IDLE && s.procs[p].state != Unused && s.procs[q].state != Unused ==>
      s.procs[p].pid != s.procs[q].pid)
  }

  ghost predicate Held(s: State, held: set<nat>) {
    ProcsOk(s, held) && QueuesOk(s, held) && SleepOk(s, held) && PidsOk(s)
  }

  /** What is in hand in a reachable state: the running thread, or one that just exited. */
  ghost function InHand(s: State): set<nat> {
    if s.current.None? || s.current.value == IDLE || s.current.value >= |s.procs| then {}
    else if s.phase.InThread? || s.procs[s.current.value].state.Zombie? then {s.current.value}
    else {}
  }

  /** The state of the current thread fits the phase; a running thread has part of its slice left. */
  ghost predicate CurrentOk(s: State) {
    && IDLE < |s.procs| && s.procs[IDLE].state in {Ready, Running}
    && (s.phase.InThread? ==> s.current.Some?)
    && (s.current.Some? ==>
      && s.current.value < |s.procs|
      && var p := s.procs[s.current.value];
      && (s.phase.InThread? ==> p.state.Running?)
      && (s.phase.InThread? && s.current.value != IDLE ==> 0 < p.remaining <= p.ticks)
      && (s.phase.Switching? && s.current.value != IDLE ==>
        p.state in {Ready, Waiting, Zombie} && (!p.state.Zombie? ==> p.remaining == 0 && p.ticks > 0)))
  }

  ghost predicate Ok(s: State) {
    CurrentOk(s) && Held(s, InHand(s))
  }

  // ---------------------------------------------------------------- what the invariant says

  /** How often a thread is on the ready queues. */
  ghost function Occurrences(queues: Queues, p: nat): nat {
    multiset(Flatten(queues))[p]
  }

  lemma {:induction false} DistinctCount(q: seq<nat>, p: nat)
    requires Distinct(q)
    ensures multiset(q)[p] == if p in q then 1 else 0
  {
    if q != [] {
      assert q == [q[0]] + q[1..];
      assert Distinct(q[1..]);
      DistinctCount(q[1..], p);
      assert q[0] !in q[1..];
    }
  }

  lemma {:induction false} CountFrom(queues: Queues, p: nat)
    requires forall k :: 0 <= k < |queues| ==> Distinct(queues[k])
    requires forall j, k :: 0 <= j < k < |queues| && p in queues[j] ==> p !in queues[k]
    ensures Occurrences(queues, p) == if Queued(queues, p) then 1 else 0
  {
    if queues != [] {
      var rest := queues[1..];
      assert forall k :: 0 <= k < |rest| ==> rest[k] == queues[k + 1];
      CountFrom(rest, p);
      DistinctCount(queues[0], p);
      QueuedCons(queues, p);
      assert p in queues[0] ==> !Queued(rest, p);
    }
  }

  /**
   Every live thread but the idle one is in exactly one place: running as the current one,
   ready on the queue of its priority exactly once, waiting on no queue, or exited and about
   to be reclaimed.
   */
  lemma ExactlyOnePlace(s: State, p: nat)
    requires Ok(s) && p < |s.procs| && p != IDLE
    ensures s.procs[p].state.Running? <==> s.phase.InThread? && s.current == Some(p)
    ensures s.procs[p].state.Ready? <==> Occurrences(s.queues, p) == 1
    ensures !s.procs[p].state.Ready? <==> Occurrences(s.queues, p) == 0
    ensures s.procs[p].state.Ready? ==> p in s.queues[s.procs[p].dyn]
    ensures p in s.sleep ==> s.procs[p].state.Waiting?
    ensures s.procs[p].state.Zombie? ==> s.phase.Switching? && s.current == Some(p)
  {
    forall j, k | 0 <= j < k < |s.queues| && p in s.queues[j]
      ensures p !in s.queues[k]
    {
      assert QueueOk(s, InHand(s), j) && QueueOk(s, InHand(s), k);
    }
    forall k | 0 <= k < |s.queues|
      ensures Distinct(s.queues[k])
    {
      assert QueueOk(s, InHand(s), k);
    }
    CountFrom(s.queues, p);
    if Queued(s.queues, p) {
      var k :| 0 <= k < |s.queues| && p in s.queues[k];
      assert QueueOk(s, InHand(s), k);
    }
    if p !in InHand(s) {
      assert PlacedAt(s, p);
    }
  }

  // ---------------------------------------------------------------- threads in hand

  lemma HeldParts(s: State, held: set<nat>)
    requires Held(s, held)
    ensures ProcsOk(s, held) && QueuesOk(s, held) && SleepOk(s, held) && PidsOk(s) && |s.procs| == SLOTS && |s.queues| == LEVELS
    ensures forall p :: p in held ==> p < |s.procs| && p != IDLE
  {
  }

  /** A thread in hand may change freely, apart from its number. */
  lemma SetHeld(s: State, held: set<nat>, c: nat, proc: Proc)
    requires Held(s, held) && c in held && c < |s.procs| && Sane(proc)
    requires proc.pid == s.procs[c].pid && (s.procs[c].state.Unused? <==> proc.state.Unused?)
    ensures Held(SetProc(s, c, proc), held)
  {
    var s' := SetProc(s, c, proc);
    SetQueues(s, held, c, proc);
    SetSleep(s, held, c, proc);
    assert forall p :: 0 <= p < SLOTS && p != IDLE && p !in held ==> PlacedAt(s, p) && PlacedAt(s', p);
    forall p | 0 <= p < SLOTS && p != IDLE
      ensures PidOk(s', p)
    {
      assert PidOk(s, p);
    }
    hide QueuesOk, SleepOk;
  }

  lemma SetQueues(s: State, held: set<nat>, c: nat, proc: Proc)
    requires QueuesOk(s, held) && c < |s.procs| && (c in held || (proc.state == s.procs[c].state && proc.dyn == s.procs[c].dyn) || c == IDLE)
    ensures QueuesOk(SetProc(s, c, proc), held)
  {
    forall k | 0 <= k < LEVELS
      ensures QueueOk(SetProc(s, c, proc), held, k)
    {
      assert QueueOk(s, held, k);
    }
  }

  lemma SetSleep(s: State, held: set<nat>, c: nat, proc: Proc)
    requires SleepOk(s, held) && c < |s.procs| && (c in held || (proc.state == s.procs[c].state && proc.wake == s.procs[c].wake) || c == IDLE)
    ensures SleepOk(SetProc(s, c, proc), held)
  {
    var s' := SetProc(s, c, proc);
    forall i | 0 <= i < |s.sleep|
      ensures s'.procs[s.sleep[i]].wake == s.procs[s.sleep[i]].wake
    {
      assert s.sleep[i] in s.sleep;
    }
  }

  /** Fields that say nothing about the place of a thread may change on any thread. */
  lemma SetInPlace(s: State, held: set<nat>, c: nat, proc: Proc)
    requires Held(s, held) && c < |s.procs| && Sane(proc)
    requires proc.pid == s.procs[c].pid && proc.state == s.procs[c].state && proc.dyn == s.procs[c].dyn && proc.wake == s.procs[c].wake
    ensures Held(SetProc(s, c, proc), held)
  {
    var s' := SetProc(s, c, proc);
    SetQueues(s, held, c, proc);
    SetSleep(s, held, c, proc);
    assert forall p :: 0 <= p < SLOTS && p != IDLE && p !in held ==> PlacedAt(s, p) && PlacedAt(s', p);
    forall p | 0 <= p < SLOTS && p != IDLE
      ensures PidOk(s', p)
    {
      assert PidOk(s, p);
    }
    hide QueuesOk, SleepOk;
  }

  /** The idle thread is on no list. */
  lemma SetIdle(s: State, held: set<nat>, proc: Proc)
    requires Held(s, held) && IDLE < |s.procs| && Sane(proc)
    ensures Held(SetProc(s, IDLE, proc), held)
  {
    var s' := SetProc(s, IDLE, proc);
    SetQueues(s, held, IDLE, proc);
    SetSleep(s, held, IDLE, proc);
    assert forall p :: 0 <= p < SLOTS && p != IDLE && p !in held ==> PlacedAt(s, p) && PlacedAt(s', p);
    forall p | 0 <= p < SLOTS && p != IDLE
      ensures PidOk(s', p)
    {
      assert PidOk(s, p);
    }
    hide QueuesOk, SleepOk;
  }

  lemma NotQueued(s: State, held: set<nat>, c: nat)
    requires Held(s, held) && (c in held || c == IDLE || c >= |s.procs| || !s.procs[c].state.Ready?)
    ensures !Queued(s.queues, c)
  {
    forall k | 0 <= k < |s.queues|
      ensures c !in s.queues[k]
    {
      assert QueueOk(s, held, k);
    }
  }

  lemma ReadyIsQueued(s: State, held: set<nat>, c: nat)
    requires Held(s, held) && c < |s.procs| && c !in held && c != IDLE && s.procs[c].state.Ready?
    ensures Queued(s.queues, c) && Enqueue(s, c) == s
  {
    assert PlacedAt(s, c);
  }

  /** A ready thread in hand goes to the end of the queue of its priority. */
  lemma ReleaseReady(s: State, held: set<nat>, c: nat)
    requires Held(s, held) && c in held && c < |s.procs| && s.procs[c].state.Ready?
    ensures Held(Enqueue(s, c), held - {c})
    ensures Enqueue(s, c) == s.(queues := PutLast(s.queues, s.procs[c].dyn, c))
  {
    NotQueued(s, held, c);
    var s', k := Enqueue(s, c), s.procs[c].dyn;
    assert Sane(s.procs[c]);
    forall j | 0 <= j < LEVELS
      ensures QueueOk(s', held - {c}, j)
    {
      assert QueueOk(s, held, j);
    }
    assert forall p :: 0 <= p < SLOTS && p != IDLE && p !in held ==> PlacedAt(s, p) && PlacedAt(s', p);
    assert PlacedAt(s', c);
    assert forall p :: 0 <= p < SLOTS && p != IDLE ==> PidOk(s, p) && PidOk(s', p);
  }

  /** A waiting or reclaimed thread in hand is just let go. */
  lemma ReleaseIdleOne(s: State, held: set<nat>, c: nat)
    requires Held(s, held) && c in held && c < |s.procs| && s.procs[c].state in {Waiting, Unused}
    ensures Held(s, held - {c})
  {
    forall j | 0 <= j < LEVELS
      ensures QueueOk(s, held - {c}, j)
    {
      assert QueueOk(s, held, j);
    }
    assert PlacedAt(s, c);
  }
}
