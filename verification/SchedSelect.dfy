/** Which thread the scheduler chooses, and what choosing does to the ready queues. */
module SchedSelect {
  import opened Common
  import opened SchedModel
  import opened SchedLists
  import opened SchedInvariant

  lemma QueuedInRange(s: State, held: set<nat>, p: nat)
    requires Held(s, held) && Queued(s.queues, p)
    ensures p < |s.procs| && p != IDLE && p !in held && s.procs[p].state.Ready? && s.procs[p].dyn < LEVELS && p in s.queues[s.procs[p].dyn]
  {
    var k :| 0 <= k < |s.queues| && p in s.queues[k];
    assert QueueOk(s, held, k);
  }

  lemma FlattenInRange(s: State, held: set<nat>)
    requires Held(s, held)
    ensures InRange(s.procs, Flatten(s.queues))
  {
    var all := Flatten(s.queues);
    hide Held, Flatten;
    forall i | 0 <= i < |all|
      ensures all[i] < |s.procs|
    {
      FlattenHas(s.queues, all[i]);
      QueuedInRange(s, held, all[i]);
    }
  }

  /** Why a thread is chosen: earliest deadline, else least virtual runtime, else head of the best queue. */
  ghost predicate RightChoice(procs: seq<Proc>, queues: Queues, p: nat)
    requires InRange(procs, Flatten(queues))
  {
    var all := Flatten(queues);
    if exists j :: 0 <= j < |all| && Eligible(procs[all[j]], ByDeadline) then
      exists i :: 0 <= i < |all| && Best(procs, ByDeadline, all, i) && p == all[i]
    else if exists j :: 0 <= j < |all| && Eligible(procs[all[j]], ByRuntime) then
      exists i :: 0 <= i < |all| && Best(procs, ByRuntime, all, i) && p == all[i]
    else exists k :: 0 <= k < |queues| && FirstAt(queues, k) && p == queues[k][0]
  }

  lemma SearchAll(procs: seq<Proc>, rule: Rule, all: seq<nat>)
    requires InRange(procs, all)
    ensures var r := Search(procs, rule, all, None);
      && (r.Some? <==> exists j :: 0 <= j < |all| && Eligible(procs[all[j]], rule))
      && (r.Some? ==> exists i :: 0 <= i < |all| && Best(procs, rule, all, i) && r == Some(all[i]))
  {
    hide Search, Best;
    SearchFacts(procs, rule, all, None);
  }

  /** The choice is none exactly when all queues are empty, and otherwise the right one. */
  lemma ChoiceFacts(procs: seq<Proc>, queues: Queues)
    requires InRange(procs, Flatten(queues))
    ensures Choice(procs, queues).None? <==> forall k :: 0 <= k < |queues| ==> queues[k] == []
    ensures Choice(procs, queues).Some? ==> Queued(queues, Choice(procs, queues).value) && RightChoice(procs, queues, Choice(procs, queues).value)
  {
    var all := Flatten(queues);
    hide Search, Flatten, First, Best, Eligible;
    SearchAll(procs, ByDeadline, all);
    SearchAll(procs, ByRuntime, all);
    FirstFacts(queues);
    EmptyQueues(queues);
    var r := Choice(procs, queues);
    if r.Some? {
      FlattenHas(queues, r.value);
    }
  }

  lemma {:induction false} EmptyQueues(queues: Queues)
    ensures Flatten(queues) == [] <==> forall k :: 0 <= k < |queues| ==> queues[k] == []
  {
    if queues != [] {
      EmptyQueues(queues[1..]);
      assert forall k :: 0 < k < |queues| ==> queues[k] == queues[1..][k - 1];
      assert forall k :: 0 <= k < |queues| - 1 ==> queues[1..][k] == queues[k + 1];
    }
  }

  /** Taking a ready thread into hand removes it from its queue and keeps the order of the others. */
  lemma TakeReady(s: State, held: set<nat>, p: nat)
    requires Held(s, held) && Queued(s.queues, p)
    ensures p < |s.procs| && s.procs[p].dyn < |s.queues|
    ensures TakeOut(s.queues, p) == s.queues[s.procs[p].dyn := Without(s.queues[s.procs[p].dyn], p)]
    ensures Held(s.(queues := TakeOut(s.queues, p)), held + {p})
  {
    QueuedInRange(s, held, p);
    var k := s.procs[p].dyn;
    forall j | 0 <= j < LEVELS && j != k
      ensures p !in s.queues[j]
    {
      assert QueueOk(s, held, j);
    }
    TakeOutAt(s.queues, p, k);
    TakenQueues(s, held, p, k);
    TakenProcs(s, held, p, k);
    hide QueuesOk, ProcsOk;
  }

  lemma TakenQueues(s: State, held: set<nat>, p: nat, k: nat)
    requires QueuesOk(s, held) && k < LEVELS && p < |s.procs| && s.procs[p].dyn == k
    ensures |s.queues| == LEVELS && QueuesOk(s.(queues := s.queues[k := Without(s.queues[k], p)]), held + {p})
  {
    var s' := s.(queues := s.queues[k := Without(s.queues[k], p)]);
    assert QueueOk(s, held, k);
    WithoutFacts(s.queues[k], p);
    forall j | 0 <= j < LEVELS
      ensures QueueOk(s', held + {p}, j)
    {
      assert QueueOk(s, held, j);
    }
  }

  lemma TakenProcs(s: State, held: set<nat>, p: nat, k: nat)
    requires Held(s, held) && k < LEVELS && p < |s.procs| && p != IDLE && s.procs[p].dyn == k && s.procs[p].state.Ready? && p !in held
    ensures |s.queues| == LEVELS
    ensures var s' := s.(queues := s.queues[k := Without(s.queues[k], p)]);
      ProcsOk(s', held + {p}) && SleepOk(s', held + {p}) && PidsOk(s')
  {
    var s' := s.(queues := s.queues[k := Without(s.queues[k], p)]);
    assert QueueOk(s, held, k);
    WithoutFacts(s.queues[k], p);
    forall q | 0 <= q < SLOTS && q != IDLE && q !in held + {p}
      ensures PlacedAt(s', q)
    {
      assert PlacedAt(s, q);
    }
    forall q | 0 <= q < SLOTS && q != IDLE
      ensures PidOk(s', q)
    {
      assert PidOk(s, q);
    }
  }
}
