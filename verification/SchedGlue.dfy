/** Facts that tie the list-walking loops to the scheduler's functions. */
module SchedGlue {
  import opened Common
  import opened SchedModel
  import opened SchedLists
  import opened SchedLinks

  function Opt(p: int): Option<nat> {
    if p < 0 then None else Some(p)
  }

  lemma OptIs(p: int)
    ensures p < 0 ==> Opt(p) == None
    ensures p >= 0 ==> Opt(p) == Some(p)
  {
  }

  lemma Sizes()
    ensures SLOTS == 32 && LEVELS == 4 && IDLE == 0 && MAX_PRIORITY == 3 && DEFAULT_WEIGHT == 1024
  {
  }

  lemma EnqueueIs(s: State, p: nat)
    requires p < |s.procs|
    ensures p == IDLE || Queued(s.queues, p) ==> Enqueue(s, p) == s
    ensures p != IDLE && !Queued(s.queues, p) ==> Enqueue(s, p) == s.(queues := PutLast(s.queues, Clamp(s.procs[p].dyn), p))
    ensures Clamp(s.procs[p].dyn) < LEVELS
  {
  }

  // ---------------------------------------------------------------- queues

  /** What the first queues hold, and what is left to scan. */
  lemma {:induction false} FlattenBelow(next: seq<int>, head: seq<int>, tail: seq<int>, bits: seq<bool>, on: seq<bool>, queues: Queues, procs: seq<Proc>)
    requires RunLists(next, head, tail, bits, on, queues) && |procs| == SLOTS
    ensures InRange(procs, Flatten(queues))
  {
    var all := Flatten(queues);
    forall i | 0 <= i < |all|
      ensures all[i] < |procs|
    {
      FlattenHas(queues, all[i]);
      OnBelow(next, head, tail, bits, on, queues, all[i]);
    }
  }

  lemma OnBelow(next: seq<int>, head: seq<int>, tail: seq<int>, bits: seq<bool>, on: seq<bool>, queues: Queues, p: nat)
    requires RunLists(next, head, tail, bits, on, queues) && Queued(queues, p)
    ensures p < SLOTS
  {
    var k :| 0 <= k < |queues| && p in queues[k];
    RunListsAt(next, head, tail, bits, on, queues, k);
    var i :| 0 <= i < |queues[k]| && queues[k][i] == p;
    LinkedNext(next, head[k], queues[k], i);
  }

  /** The part of the ready threads still to scan. */
  function Ahead(queues: Queues, k: nat, i: nat): seq<nat>
    requires k < |queues| && i <= |queues[k]|
  {
    queues[k][i..] + Flatten(queues[k + 1..])
  }

  lemma AheadStart(queues: Queues)
    requires queues != []
    ensures Ahead(queues, 0, 0) == Flatten(queues)
  {
    assert queues[0][0..] == queues[0];
  }

  lemma AheadStep(queues: Queues, k: nat, i: nat)
    requires k < |queues| && i < |queues[k]|
    ensures Ahead(queues, k, i) != [] && Ahead(queues, k, i)[0] == queues[k][i] && Ahead(queues, k, i)[1..] == Ahead(queues, k, i + 1)
  {
    assert queues[k][i..][1..] == queues[k][i + 1..];
  }

  lemma AheadNext(queues: Queues, k: nat)
    requires k < |queues|
    ensures k + 1 < |queues| ==> Ahead(queues, k, |queues[k]|) == Ahead(queues, k + 1, 0)
    ensures k + 1 == |queues| ==> Ahead(queues, k, |queues[k]|) == []
  {
    assert queues[k][|queues[k]|..] == [];
    if k + 1 < |queues| {
      var rest := queues[k + 1..];
      assert rest[0] == queues[k + 1] && rest[1..] == queues[k + 2..];
      assert queues[k + 1][0..] == queues[k + 1];
    }
  }

  lemma SearchNil(procs: seq<Proc>, rule: Rule, best: Option<nat>)
    requires best.Some? ==> best.value < |procs|
    ensures InRange(procs, []) && Search(procs, rule, [], best) == best
  {
  }

  lemma SearchCons(procs: seq<Proc>, rule: Rule, q: seq<nat>, best: Option<nat>)
    requires InRange(procs, q) && q != [] && (best.Some? ==> best.value < |procs|)
    ensures q[0] < |procs| && InRange(procs, q[1..])
    ensures Search(procs, rule, q, best) == Search(procs, rule, q[1..], Better(procs, rule, best, q[0]))
  {
  }

  lemma BetterIs(procs: seq<Proc>, rule: Rule, best: Option<nat>, p: nat)
    requires p < |procs| && (best.Some? ==> best.value < |procs|)
    ensures Better(procs, rule, best, p) ==
      if !Eligible(procs[p], rule) then best
      else if best.None? || Key(procs[p], rule) < Key(procs[best.value], rule) then Some(p)
      else best
  {
  }

  lemma {:induction false} FirstIs(queues: Queues, k: nat)
    requires k < |queues| && queues[k] != [] && forall j :: 0 <= j < k ==> queues[j] == []
    ensures First(queues) == Some(queues[k][0])
  {
    if k > 0 {
      assert forall j :: 0 <= j < k - 1 ==> queues[1..][j] == queues[j + 1];
      FirstIs(queues[1..], k - 1);
    }
  }

  lemma {:induction false} FirstNone(queues: Queues)
    requires forall j :: 0 <= j < |queues| ==> queues[j] == []
    ensures First(queues) == None
  {
    if queues != [] {
      assert forall j :: 0 <= j < |queues| - 1 ==> queues[1..][j] == queues[j + 1];
      FirstNone(queues[1..]);
    }
  }

  lemma ChoiceIs(procs: seq<Proc>, queues: Queues)
    requires InRange(procs, Flatten(queues))
    ensures var urgent, fair := Search(procs, ByDeadline, Flatten(queues), None), Search(procs, ByRuntime, Flatten(queues), None);
      Choice(procs, queues) == if urgent.Some? then urgent else if fair.Some? then fair else First(queues)
  {
  }

  lemma NoneBefore(q: seq<nat>, p: nat)
    requires forall j :: 0 <= j < |q| ==> q[j] != p
    ensures p !in q
  {
  }

  lemma IndexedIn(q: seq<nat>, i: nat)
    requires i < |q|
    ensures q[i] in q
  {
  }

  lemma EmptyAhead(queues: Queues, bits: seq<bool>)
    requires |bits| == |queues| && forall k :: 0 <= k < |queues| ==> bits[k] == (queues[k] != [])
    ensures Flatten(queues) != [] <==> exists k :: 0 <= k < |queues| && bits[k]
  {
    NoQueues(queues);
    if exists k :: 0 <= k < |queues| && queues[k] != [] {
      var k :| 0 <= k < |queues| && queues[k] != [];
      assert bits[k];
    }
    if exists k :: 0 <= k < |queues| && bits[k] {
      var k :| 0 <= k < |queues| && bits[k];
      assert queues[k] != [];
    }
  }

  lemma {:induction false} NoQueues(queues: Queues)
    ensures Flatten(queues) != [] <==> exists k :: 0 <= k < |queues| && queues[k] != []
  {
    if queues != [] {
      var rest := queues[1..];
      NoQueues(rest);
      if Flatten(rest) != [] {
        var k :| 0 <= k < |rest| && rest[k] != [];
        assert queues[k + 1] != [];
      }
      if exists k :: 0 < k < |queues| && queues[k] != [] {
        var k :| 0 < k < |queues| && queues[k] != [];
        assert rest[k - 1] != [];
      }
    }
  }

  // ---------------------------------------------------------------- the sleep list

  lemma LinkedInRange(next: seq<int>, head: int, q: seq<nat>, procs: seq<Proc>)
    requires Linked(next, head, q) && |procs| == |next|
    ensures InRange(procs, q) && forall i :: 0 <= i < |q| ==> q[i] < |procs|
  {
  }

  lemma InsertFront(procs: seq<Proc>, q: seq<nat>, p: nat)
    requires p < |procs| && (forall i :: 0 <= i < |q| ==> q[i] < |procs|) && (q == [] || procs[p].wake < procs[q[0]].wake)
    ensures InsertByWake(procs, q, p) == q[..0] + [p] + q[0..]
  {
    assert q[..0] + [p] + q[0..] == [p] + q;
  }

  /** The walk that finds the place behind index `i`. */
  ghost predicate Behind(procs: seq<Proc>, q: seq<nat>, p: nat, i: nat) {
    && p < |procs| && (forall j :: 0 <= j < |q| ==> q[j] < |procs|) && i < |q|
    && InsertByWake(procs, q, p) == q[..i + 1] + InsertByWake(procs, q[i + 1..], p)
  }

  lemma BehindStart(procs: seq<Proc>, q: seq<nat>, p: nat)
    requires p < |procs| && (forall i :: 0 <= i < |q| ==> q[i] < |procs|) && q != [] && procs[p].wake >= procs[q[0]].wake
    ensures Behind(procs, q, p, 0)
  {
    assert q[..1] == [q[0]];
  }

  lemma BehindStep(procs: seq<Proc>, q: seq<nat>, p: nat, i: nat)
    requires Behind(procs, q, p, i) && i + 1 < |q| && procs[q[i + 1]].wake <= procs[p].wake
    ensures Behind(procs, q, p, i + 1)
  {
    var rest := q[i + 1..];
    assert rest[0] == q[i + 1] && rest[1..] == q[i + 2..];
    assert q[..i + 2] == q[..i + 1] + [q[i + 1]];
  }

  lemma BehindDone(procs: seq<Proc>, q: seq<nat>, p: nat, i: nat)
    requires Behind(procs, q, p, i) && (i + 1 == |q| || procs[q[i + 1]].wake > procs[p].wake)
    ensures InsertByWake(procs, q, p) == q[..i + 1] + [p] + q[i + 1..]
  {
    var rest := q[i + 1..];
    assert InsertByWake(procs, rest, p) == [p] + rest;
  }

  lemma BehindParts(procs: seq<Proc>, q: seq<nat>, p: nat, i: nat)
    requires Behind(procs, q, p, i)
    ensures i < |q| && p < |procs| && q[i] < |procs| && (i + 1 < |q| ==> q[i + 1] < |procs|)
  {
  }

  lemma InsertedMember(q: seq<nat>, p: nat, i: nat)
    requires i <= |q| && Distinct(q) && p !in q
    ensures Distinct(q[..i] + [p] + q[i..])
  {
    var r := q[..i] + [p] + q[i..];
    assert forall j :: 0 <= j < |r| ==> r[j] == if j < i then q[j] else if j == i then p else q[j - 1];
  }

  lemma TailDistinct(q: seq<nat>)
    requires Distinct(q) && q != []
    ensures Distinct(q[1..]) && Without(q, q[0]) == q[1..] && q[..0] + q[0 + 1..] == q[1..]
  {
  }

  lemma WakeIs(s: State, now: nat)
    requires forall i :: 0 <= i < |s.sleep| ==> s.sleep[i] < |s.procs|
    ensures s.sleep == [] || s.procs[s.sleep[0]].wake > now ==> WakeSleepers(s, now) == s
    ensures s.sleep != [] && s.procs[s.sleep[0]].wake <= now ==> WakeSleepers(s, now) == WakeSleepers(PopSleeper(s), now)
  {
    hide PopSleeper;
  }

  lemma PopIs(s: State)
    requires s.sleep != [] && s.sleep[0] < |s.procs|
    ensures var p := s.sleep[0];
      PopSleeper(s) == Awake(s.(sleep := s.sleep[1..], procs := s.procs[p := s.procs[p].(wake := 0)]), p)
  {
  }

  lemma AwakeIs(s: State, p: nat)
    requires p < |s.procs|
    ensures Awake(s, p) == Enqueue(s.(procs := s.procs[p := s.procs[p].(dyn := Boosted(s.procs[p].base), state := Ready)]), p)
  {
  }

}
