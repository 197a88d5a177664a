/** The sleep list: sorted insertion, and waking exactly the threads that are due. */
module SchedSleep {
  import opened Common
  import opened SchedModel
  import opened SchedLists
  import opened SchedInvariant

  // ---------------------------------------------------------------- insertion

  /** `p` sits behind everything that wakes no later and before everything that wakes later. */
  ghost predicate InsertedAt(procs: seq<Proc>, q: seq<nat>, p: nat, r: seq<nat>, i: nat) {
    && p < |procs| && InRange(procs, q)
    && i <= |q| && r == q[..i] + [p] + q[i..]
    && (forall j :: 0 <= j < i ==> procs[q[j]].wake <= procs[p].wake)
    && (forall j :: i <= j < |q| ==> procs[p].wake < procs[q[j]].wake)
  }

  lemma {:induction false} InsertFacts(procs: seq<Proc>, q: seq<nat>, p: nat) returns (i: nat)
    requires p < |procs| && Sorted(procs, q)
    ensures InsertedAt(procs, q, p, InsertByWake(procs, q, p), i)
    decreases |q|
  {
    if q == [] || procs[p].wake < procs[q[0]].wake {
      i := 0;
      assert InsertByWake(procs, q, p) == q[..0] + [p] + q[0..];
    } else {
      var rest := q[1..];
      assert Sorted(procs, rest);
      var k := InsertFacts(procs, rest, p);
      i := k + 1;
      assert q[..i] == [q[0]] + rest[..k] && q[i..] == rest[k..];
      assert forall j :: 0 < j < |q| ==> q[j] == rest[j - 1];
    }
  }

  /** Insertion keeps the list sorted and without repetition; equal times stay in order of arrival. */
  lemma InsertKeeps(procs: seq<Proc>, q: seq<nat>, p: nat)
    requires p < |procs| && Sorted(procs, q) && Distinct(q) && p !in q
    ensures var r := InsertByWake(procs, q, p);
      && Sorted(procs, r) && Distinct(r) && (forall x :: x in r <==> x == p || x in q)
      && exists i :: InsertedAt(procs, q, p, r, i)
  {
    var r := InsertByWake(procs, q, p);
    hide *;
    var i := InsertFacts(procs, q, p);
    InsertedSorted(procs, q, p, r, i);
    InsertedDistinct(procs, q, p, r, i);
  }

  lemma InsertedSorted(procs: seq<Proc>, q: seq<nat>, p: nat, r: seq<nat>, i: nat)
    requires InsertedAt(procs, q, p, r, i) && Sorted(procs, q)
    ensures Sorted(procs, r)
  {
    assert forall j :: 0 <= j < |r| ==> r[j] == if j < i then q[j] else if j == i then p else q[j - 1];
  }

  lemma InsertedDistinct(procs: seq<Proc>, q: seq<nat>, p: nat, r: seq<nat>, i: nat)
    requires InsertedAt(procs, q, p, r, i) && Distinct(q) && p !in q
    ensures Distinct(r) && forall x :: x in r <==> x == p || x in q
  {
    assert forall j :: 0 <= j < |r| ==> r[j] == if j < i then q[j] else if j == i then p else q[j - 1];
    InsertMembers(q, p, r, i);
  }

  lemma InsertMembers(q: seq<nat>, p: nat, r: seq<nat>, i: nat)
    requires i <= |q| && r == q[..i] + [p] + q[i..]
    ensures forall x :: x in r <==> x == p || x in q
  {
    assert q == q[..i] + q[i..];
    assert r[i] == p;
  }

  // ---------------------------------------------------------------- taking a sleeper in hand

  lemma WithoutSorted(procs: seq<Proc>, q: seq<nat>, p: nat)
    requires Sorted(procs, q) && Distinct(q)
    ensures Sorted(procs, Without(q, p))
  {
    hide Without, Distinct;
    if p in q {
      var i :| 0 <= i < |q| && q[i] == p;
      WithoutAt(q, i);
      assert forall j :: 0 <= j < |q| - 1 ==> (q[..i] + q[i + 1..])[j] == if j < i then q[j] else q[j + 1];
    } else {
      WithoutAbsent(q, p);
    }
  }

  /** A waiting thread is taken off the sleep list, if it is on it. */
  lemma TakeWaiting(s: State, held: set<nat>, p: nat)
    requires Held(s, held) && p < |s.procs| && p != IDLE && p !in held && s.procs[p].state.Waiting?
    ensures Held(s.(sleep := Without(s.sleep, p)), held + {p})
  {
    var s', held' := s.(sleep := Without(s.sleep, p)), held + {p};
    WithoutFacts(s.sleep, p);
    WithoutSorted(s.procs, s.sleep, p);
    forall k | 0 <= k < LEVELS
      ensures QueueOk(s', held', k)
    {
      assert QueueOk(s, held, k);
    }
    forall q | 0 <= q < SLOTS && q != IDLE && q !in held'
      ensures PlacedAt(s', q)
    {
      assert PlacedAt(s, q);
    }
    forall q | 0 <= q < SLOTS && q != IDLE
      ensures PidOk(s', q)
    {
      assert PidOk(s, q);
    }
  }

  /** A thread that is in hand is not on the sleep list. */
  lemma HeldNotAsleep(s: State, held: set<nat>, c: nat)
    requires Held(s, held) && (c in held || c >= |s.procs| || !s.procs[c].state.Waiting?)
    ensures c !in s.sleep && Without(s.sleep, c) == s.sleep
  {
    WithoutAbsent(s.sleep, c);
  }

  /** Waking a thread in hand puts it at the end of a ready queue. */
  lemma AwakeKeeps(s: State, held: set<nat>, p: nat)
    requires Held(s, held) && p in held && p < |s.procs| && s.procs[p].state.Waiting?
    ensures Held(Awake(s, p), held - {p})
    ensures Awake(s, p) == s.(
      procs := s.procs[p := s.procs[p].(dyn := Boosted(s.procs[p].base), state := Ready)],
      queues := PutLast(s.queues, Boosted(s.procs[p].base), p))
  {
    var proc := s.procs[p].(dyn := Boosted(s.procs[p].base), state := Ready);
    SaneAt(s, held, p);
    SetHeld(s, held, p, proc);
    hide Held;
    ReleaseReady(SetProc(s, p, proc), held, p);
  }

  lemma SaneAt(s: State, held: set<nat>, p: nat)
    requires Held(s, held) && p < |s.procs|
    ensures Sane(s.procs[p])
  {
  }

  // ---------------------------------------------------------------- waking

  /** What waking does to the thread at the head of the list. */
  lemma PopKeeps(s: State, held: set<nat>)
    requires Held(s, held) && s.sleep != []
    ensures s.sleep[0] < |s.procs| && s.sleep[0] !in held && s.sleep[0] != IDLE && s.procs[s.sleep[0]].state.Waiting?
    ensures Held(PopSleeper(s), held)
    ensures var p := s.sleep[0];
      PopSleeper(s) == s.(
        procs := s.procs[p := s.procs[p].(wake := 0, dyn := Boosted(s.procs[p].base), state := Ready)],
        queues := PutLast(s.queues, Boosted(s.procs[p].base), p),
        sleep := s.sleep[1..])
  {
    var p := s.sleep[0];
    assert p in s.sleep;
    TakeWaiting(s, held, p);
    var s1 := s.(sleep := s.sleep[1..]);
    assert Without(s.sleep, p) == s.sleep[1..];
    SaneAt(s, held, p);
    hide Held;
    SetHeld(s1, held + {p}, p, s.procs[p].(wake := 0));
    var s2 := SetProc(s1, p, s.procs[p].(wake := 0));
    AwakeKeeps(s2, held + {p}, p);
    assert held + {p} - {p} == held;
  }

  ghost predicate Due(s: State, p: nat, now: nat) {
    p < |s.procs| && p in s.sleep && s.procs[p].wake <= now
  }

  /** The threads of a list that are due, in order. */
  ghost function DueOnly(procs: seq<Proc>, q: seq<nat>, now: nat): seq<nat>
    requires InRange(procs, q)
  {
    if q == [] then [] else if procs[q[0]].wake <= now then [q[0]] + DueOnly(procs, q[1..], now) else DueOnly(procs, q[1..], now)
  }

  /** The threads of a list that are boosted to priority `k`, in order. */
  ghost function ToLevel(procs: seq<Proc>, q: seq<nat>, k: nat): seq<nat>
    requires InRange(procs, q)
  {
    if q == [] then [] else if Boosted(procs[q[0]].base) == k then [q[0]] + ToLevel(procs, q[1..], k) else ToLevel(procs, q[1..], k)
  }

  /** How far the due threads reach into the list. */
  ghost function DueCount(procs: seq<Proc>, q: seq<nat>, now: nat): (n: nat)
    requires InRange(procs, q)
    ensures n <= |q|
  {
    if q == [] || procs[q[0]].wake > now then 0 else 1 + DueCount(procs, q[1..], now)
  }

  lemma {:induction false} DueIsPrefix(procs: seq<Proc>, q: seq<nat>, now: nat)
    requires Sorted(procs, q)
    ensures DueOnly(procs, q, now) == q[..DueCount(procs, q, now)]
    ensures forall i :: 0 <= i < |q| ==> (procs[q[i]].wake <= now <==> i < DueCount(procs, q, now))
  {
    if q != [] {
      assert Sorted(procs, q[1..]);
      DueIsPrefix(procs, q[1..], now);
      assert forall i :: 0 < i < |q| ==> q[i] == q[1..][i - 1];
      if procs[q[0]].wake > now {
        NoneDue(procs, q[1..], now);
      }
    }
  }

  lemma {:induction false} NoneDue(procs: seq<Proc>, q: seq<nat>, now: nat)
    requires InRange(procs, q) && forall i :: 0 <= i < |q| ==> procs[q[i]].wake > now
    ensures DueOnly(procs, q, now) == []
  {
    if q != [] {
      NoneDue(procs, q[1..], now);
    }
  }

  /** The threads after waking the first `n` sleepers. */
  ghost predicate Woken(s: State, w: State, now: nat, n: nat)
    requires InRange(s.procs, s.sleep)
  {
    && n <= |s.sleep| && |w.procs| == |s.procs| && |w.queues| == |s.queues|
    && w.sleep == s.sleep[n..] && w.current == s.current && w.phase == s.phase && w.nextPid == s.nextPid
    && (forall p :: 0 <= p < |s.procs| ==>
      w.procs[p] == if p in s.sleep[..n] then s.procs[p].(wake := 0, dyn := Boosted(s.procs[p].base), state := Ready) else s.procs[p])
    && (forall k :: 0 <= k < |s.queues| ==> w.queues[k] == s.queues[k] + ToLevel(s.procs, s.sleep[..n], k))
  }

  lemma WokenNone(s: State, now: nat)
    requires InRange(s.procs, s.sleep)
    ensures Woken(s, s, now, 0)
  {
    assert s.sleep[0..] == s.sleep && s.sleep[..0] == [];
  }

  lemma {:induction false} ToLevelSame(procs: seq<Proc>, procs': seq<Proc>, q: seq<nat>, k: nat)
    requires InRange(procs, q) && |procs'| == |procs| && forall i :: 0 <= i < |q| ==> procs'[q[i]].base == procs[q[i]].base
    ensures InRange(procs', q) && ToLevel(procs', q, k) == ToLevel(procs, q, k)
  {
    if q != [] {
      assert forall i :: 0 < i < |q| ==> q[i] == q[1..][i - 1];
      ToLevelSame(procs, procs', q[1..], k);
    }
  }

  lemma {:induction false} DueCountSame(procs: seq<Proc>, procs': seq<Proc>, q: seq<nat>, now: nat)
    requires InRange(procs, q) && |procs'| == |procs| && forall i :: 0 <= i < |q| ==> procs'[q[i]].wake == procs[q[i]].wake
    ensures InRange(procs', q) && DueCount(procs', q, now) == DueCount(procs, q, now)
  {
    if q != [] {
      assert forall i :: 0 < i < |q| ==> q[i] == q[1..][i - 1];
      DueCountSame(procs, procs', q[1..], now);
    }
  }

  lemma SleepersInRange(s: State, held: set<nat>)
    requires Held(s, held)
    ensures InRange(s.procs, s.sleep) && Distinct(s.sleep) && Sorted(s.procs, s.sleep)
  {
  }

  /** The head of the list and then `n` more. */
  lemma WokenCons(s: State, s1: State, w: State, now: nat, n: nat)
    requires InRange(s.procs, s.sleep) && s.sleep != [] && Distinct(s.sleep)
    requires var p := s.sleep[0];
      s1 == s.(
        procs := s.procs[p := s.procs[p].(wake := 0, dyn := Boosted(s.procs[p].base), state := Ready)],
        queues := PutLast(s.queues, Boosted(s.procs[p].base), p),
        sleep := s.sleep[1..])
    requires |s.queues| == LEVELS && InRange(s1.procs, s1.sleep) && Woken(s1, w, now, n)
    ensures Woken(s, w, now, n + 1)
  {
    var p, rest := s.sleep[0], s.sleep[1..];
    hide Boosted, PutLast;
    assert p < |s.procs| && |s1.procs| == |s.procs|;
    WokenParts(s1, w, now, n);
    hide Woken, ToLevel;
    SplitFirst(s.sleep, n);
    WokenConsProcs(s, s1, w, now, n, p, rest);
    PutLastParts(s.queues, Boosted(s.procs[p].base), p);
    forall k | 0 <= k < |s.queues|
      ensures w.queues[k] == s.queues[k] + ToLevel(s.procs, [p] + rest[..n], k)
    {
      PutLastAt(s.queues, Boosted(s.procs[p].base), p, k);
      hide InRange;
      WokenConsQueue(s, s1, rest[..n], p, k);
    }
    WokenIntro(s, w, now, n + 1);
  }

  lemma SplitFirst(q: seq<nat>, n: nat)
    requires q != [] && Distinct(q) && n < |q|
    ensures q[n + 1..] == q[1..][n..] && q[..n + 1] == [q[0]] + q[1..][..n] && q[0] !in q[1..][..n]
  {
    forall j | 0 <= j < n
      ensures q[1..][..n][j] != q[0]
    {
      assert q[1..][..n][j] == q[j + 1];
    }
  }

  lemma PutLastParts(queues: Queues, k: nat, p: nat)
    ensures |PutLast(queues, k, p)| == |queues|
  {
  }

  lemma PutLastAt(queues: Queues, k: nat, p: nat, j: nat)
    requires j < |queues|
    ensures |PutLast(queues, k, p)| == |queues| && PutLast(queues, k, p)[j] == if j == k then queues[j] + [p] else queues[j]
  {
  }

  lemma WokenConsQueue(s: State, s1: State, rest: seq<nat>, p: nat, k: nat)
    requires p < |s.procs| && InRange(s.procs, rest) && p !in rest && k < |s.queues|
    requires s1.procs == s.procs[p := s.procs[p].(wake := 0, dyn := Boosted(s.procs[p].base), state := Ready)]
    ensures InRange(s1.procs, rest) && InRange(s.procs, [p] + rest)
    ensures (if Boosted(s.procs[p].base) == k then s.queues[k] + [p] else s.queues[k]) + ToLevel(s1.procs, rest, k) ==
      s.queues[k] + ToLevel(s.procs, [p] + rest, k)
  {
    hide Boosted;
    ToLevelSame(s.procs, s1.procs, rest, k);
    assert ([p] + rest)[1..] == rest;
  }

  lemma WokenParts(s: State, w: State, now: nat, n: nat)
    requires InRange(s.procs, s.sleep) && Woken(s, w, now, n)
    ensures n <= |s.sleep| && |w.procs| == |s.procs| && |w.queues| == |s.queues| && InRange(s.procs, s.sleep[..n])
    ensures w.sleep == s.sleep[n..] && w.current == s.current && w.phase == s.phase && w.nextPid == s.nextPid
    ensures forall p :: 0 <= p < |s.procs| ==>
      w.procs[p] == if p in s.sleep[..n] then s.procs[p].(wake := 0, dyn := Boosted(s.procs[p].base), state := Ready) else s.procs[p]
    ensures forall k :: 0 <= k < |s.queues| ==> w.queues[k] == s.queues[k] + ToLevel(s.procs, s.sleep[..n], k)
  {
  }

  lemma WokenIntro(s: State, w: State, now: nat, n: nat)
    requires InRange(s.procs, s.sleep) && n <= |s.sleep| && |w.procs| == |s.procs| && |w.queues| == |s.queues|
    requires w.sleep == s.sleep[n..] && w.current == s.current && w.phase == s.phase && w.nextPid == s.nextPid
    requires forall p :: 0 <= p < |s.procs| ==>
      w.procs[p] == if p in s.sleep[..n] then s.procs[p].(wake := 0, dyn := Boosted(s.procs[p].base), state := Ready) else s.procs[p]
    requires InRange(s.procs, s.sleep[..n]) && forall k :: 0 <= k < |s.queues| ==> w.queues[k] == s.queues[k] + ToLevel(s.procs, s.sleep[..n], k)
    ensures Woken(s, w, now, n)
  {
  }

  lemma WokenConsProcs(s: State, s1: State, w: State, now: nat, n: nat, p: nat, rest: seq<nat>)
    requires p < |s.procs| && n <= |rest| && p !in rest[..n] && |w.procs| == |s1.procs| == |s.procs|
    requires s1.procs == s.procs[p := s.procs[p].(wake := 0, dyn := Boosted(s.procs[p].base), state := Ready)]
    requires forall q :: 0 <= q < |s.procs| ==>
      w.procs[q] == if q in rest[..n] then s1.procs[q].(wake := 0, dyn := Boosted(s1.procs[q].base), state := Ready) else s1.procs[q]
    ensures forall q :: 0 <= q < |s.procs| ==>
      w.procs[q] == if q in [p] + rest[..n] then s.procs[q].(wake := 0, dyn := Boosted(s.procs[q].base), state := Ready) else s.procs[q]
  {
  }

  /**
   Waking keeps the invariant and wakes exactly the sleepers that are due, in order of their
   wake times and arrival, each at the end of the queue of its boosted priority.
   */
  lemma {:induction false} WakeExact(s: State, held: set<nat>, now: nat)
    requires Held(s, held)
    ensures Held(WakeSleepers(s, now), held)
    ensures InRange(s.procs, s.sleep) && Woken(s, WakeSleepers(s, now), now, DueCount(s.procs, s.sleep, now))
    decreases |s.sleep|
  {
    hide *;
    SleepersInRange(s, held);
    WakeUnfold(s, now);
    if s.sleep == [] || s.procs[s.sleep[0]].wake > now {
      WokenNone(s, now);
    } else {
      PopKeeps(s, held);
      var s1 := PopSleeper(s);
      WakeExact(s1, held, now);
      HeldParts(s, held);
      DueCountRest(s, s1, now);
      WokenCons(s, s1, WakeSleepers(s, now), now, DueCount(s1.procs, s1.sleep, now));
    }
  }

  lemma WakeUnfold(s: State, now: nat)
    requires InRange(s.procs, s.sleep)
    ensures if s.sleep == [] || s.procs[s.sleep[0]].wake > now then WakeSleepers(s, now) == s && DueCount(s.procs, s.sleep, now) == 0
      else WakeSleepers(s, now) == WakeSleepers(PopSleeper(s), now)
  {
    hide PopSleeper;
  }

  lemma DueCountRest(s: State, s1: State, now: nat)
    requires InRange(s.procs, s.sleep) && s.sleep != [] && Distinct(s.sleep) && s.procs[s.sleep[0]].wake <= now
    requires s1.sleep == s.sleep[1..] && |s1.procs| == |s.procs| && forall q :: 0 <= q < |s.procs| && q != s.sleep[0] ==> s1.procs[q] == s.procs[q]
    ensures InRange(s1.procs, s1.sleep) && DueCount(s.procs, s.sleep, now) == 1 + DueCount(s1.procs, s1.sleep, now)
  {
    forall i | 0 <= i < |s.sleep[1..]|
      ensures s.sleep[1..][i] != s.sleep[0]
    {
      assert s.sleep[1..][i] == s.sleep[i + 1];
    }
    DueCountSame(s.procs, s1.procs, s.sleep[1..], now);
  }

  /** The same, thread by thread: who is due wakes, who is not sleeps on. */
  lemma WakesExactlyTheDue(s: State, held: set<nat>, now: nat, p: nat)
    requires Held(s, held) && p < |s.procs|
    ensures var w := WakeSleepers(s, now);
      && |w.procs| == |s.procs|
      && (Due(s, p, now) ==> w.procs[p].state.Ready? && p !in w.sleep && Queued(w.queues, p))
      && (!Due(s, p, now) ==> w.procs[p] == s.procs[p] && (p in w.sleep <==> p in s.sleep))
  {
    hide *;
    SleepersInRange(s, held);
    WakeExact(s, held, now);
    DueIsPrefix(s.procs, s.sleep, now);
    var n := DueCount(s.procs, s.sleep, now);
    WokenAt(s, WakeSleepers(s, now), now, n, p);
    DueSplit(s, now, n, p);
    if Due(s, p, now) {
      HeldParts(WakeSleepers(s, now), held);
      SleeperIs(s, held, p);
      DueIs(s, p, now);
      ReadyIsQueued(WakeSleepers(s, now), held, p);
    }
  }

  lemma DueIs(s: State, p: nat, now: nat)
    requires Due(s, p, now)
    ensures p < |s.procs| && p in s.sleep
  {
  }

  lemma SleeperIs(s: State, held: set<nat>, p: nat)
    requires Held(s, held)
    ensures p in s.sleep ==> p != IDLE && p !in held
  {
  }

  lemma DueSplit(s: State, now: nat, n: nat, p: nat)
    requires InRange(s.procs, s.sleep) && n <= |s.sleep| && Distinct(s.sleep)
    requires forall i :: 0 <= i < |s.sleep| ==> (s.procs[s.sleep[i]].wake <= now <==> i < n)
    ensures Due(s, p, now) <==> p in s.sleep[..n]
    ensures p in s.sleep[n..] <==> p in s.sleep && !Due(s, p, now)
  {
    assert s.sleep == s.sleep[..n] + s.sleep[n..];
    forall i | 0 <= i < |s.sleep[..n]|
      ensures s.procs[s.sleep[..n][i]].wake <= now
    {
      assert s.sleep[..n][i] == s.sleep[i];
    }
    forall i | 0 <= i < |s.sleep[n..]|
      ensures s.procs[s.sleep[n..][i]].wake > now
    {
      assert s.sleep[n..][i] == s.sleep[n + i];
    }
  }

  lemma WokenAt(s: State, w: State, now: nat, n: nat, p: nat)
    requires InRange(s.procs, s.sleep) && Woken(s, w, now, n) && p < |s.procs|
    ensures n <= |s.sleep| && |w.procs| == |s.procs| && |w.queues| == |s.queues| && w.sleep == s.sleep[n..]
    ensures w.current == s.current && w.phase == s.phase && w.nextPid == s.nextPid
    ensures w.procs[p] == if p in s.sleep[..n] then s.procs[p].(wake := 0, dyn := Boosted(s.procs[p].base), state := Ready) else s.procs[p]
  {
  }
}
