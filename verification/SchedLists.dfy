/** Lists without repetition: removal, queues as a whole, and insertion by wake time. */
module SchedLists {
  import opened Common
  import opened SchedModel

  // ---------------------------------------------------------------- removal

  /** Removal takes out exactly one process and keeps the order of the others. */
  lemma {:induction false} WithoutFacts(q: seq<nat>, p: nat)
    requires Distinct(q)
    ensures Distinct(Without(q, p)) && forall x :: x in Without(q, p) <==> x in q && x != p
  {
    if q != [] {
      var rest := q[1..];
      assert Distinct(rest);
      WithoutFacts(rest, p);
      assert forall x :: x in q <==> x == q[0] || x in rest;
      assert q[0] !in rest;
    }
  }

  lemma {:induction false} WithoutAbsent(q: seq<nat>, p: nat)
    requires p !in q
    ensures Without(q, p) == q
  {
    if q != [] {
      assert q[0] != p && p !in q[1..];
      WithoutAbsent(q[1..], p);
    }
  }

  /** Removing the process at index `i` closes the gap. */
  lemma {:induction false} WithoutAt(q: seq<nat>, i: nat)
    requires Distinct(q) && i < |q|
    ensures Without(q, q[i]) == q[..i] + q[i + 1..]
  {
    if i > 0 {
      assert q[0] != q[i];
      assert Distinct(q[1..]);
      WithoutAt(q[1..], i - 1);
      assert q[1..][..i - 1] == q[1..i] && q[1..][i..] == q[i + 1..];
    }
  }

  // ---------------------------------------------------------------- the queues

  /** Taking a process out changes only the queue it is on. */
  lemma {:induction false} TakeOutAt(queues: Queues, p: nat, k: nat)
    requires k < |queues| && p in queues[k] && forall j :: 0 <= j < k ==> p !in queues[j]
    ensures TakeOut(queues, p) == queues[k := Without(queues[k], p)]
  {
    if k > 0 {
      assert forall j :: 0 <= j < k - 1 ==> queues[1..][j] == queues[j + 1];
      TakeOutAt(queues[1..], p, k - 1);
      assert TakeOut(queues, p) == [queues[0]] + queues[1..][k - 1 := Without(queues[k], p)];
    }
  }

  lemma {:induction false} TakeOutNone(queues: Queues, p: nat)
    requires forall j :: 0 <= j < |queues| ==> p !in queues[j]
    ensures TakeOut(queues, p) == queues
  {
    if queues != [] {
      assert forall j :: 0 <= j < |queues| - 1 ==> queues[1..][j] == queues[j + 1];
      TakeOutNone(queues[1..], p);
    }
  }

  lemma QueuedCons(queues: Queues, p: nat)
    requires queues != []
    ensures Queued(queues, p) <==> p in queues[0] || Queued(queues[1..], p)
  {
    var rest := queues[1..];
    if Queued(rest, p) {
      var k :| 0 <= k < |rest| && p in rest[k];
      assert p in queues[k + 1];
    }
    if Queued(queues, p) {
      var k :| 0 <= k < |queues| && p in queues[k];
      if k > 0 {
        assert p in rest[k - 1];
      }
    }
  }

  lemma {:induction false} FlattenHas(queues: Queues, p: nat)
    ensures p in Flatten(queues) <==> Queued(queues, p)
  {
    if queues != [] {
      var rest := queues[1..];
      FlattenHas(rest, p);
      QueuedCons(queues, p);
    }
  }

  lemma {:induction false} FirstFacts(queues: Queues)
    ensures First(queues).None? <==> Flatten(queues) == []
    ensures First(queues).Some? ==> exists k :: 0 <= k < |queues| && FirstAt(queues, k) && First(queues) == Some(queues[k][0])
  {
    if queues != [] && queues[0] == [] {
      var rest := queues[1..];
      FirstFacts(rest);
      if First(rest).Some? {
        var k :| 0 <= k < |rest| && FirstAt(rest, k) && First(rest) == Some(rest[k][0]);
        assert forall j :: 0 <= j <= k ==> rest[j] == queues[j + 1];
        assert FirstAt(queues, k + 1);
      }
    } else if queues != [] {
      assert FirstAt(queues, 0);
    }
  }

  /** `k` is the lowest-numbered nonempty queue. */
  ghost predicate FirstAt(queues: Queues, k: nat) {
    k < |queues| && queues[k] != [] && forall j :: 0 <= j < k ==> queues[j] == []
  }

  // ---------------------------------------------------------------- searching

  lemma InRangeTail(procs: seq<Proc>, q: seq<nat>)
    requires InRange(procs, q) && q != []
    ensures InRange(procs, q[1..]) && q[0] < |procs|
  {
  }

  /** The best of a list: eligible, with the least key, and the first such one. */
  ghost predicate Best(procs: seq<Proc>, rule: Rule, q: seq<nat>, i: nat)
    requires InRange(procs, q)
  {
    && i < |q| && Eligible(procs[q[i]], rule)
    && (forall j :: 0 <= j < |q| && Eligible(procs[q[j]], rule) ==> Key(procs[q[i]], rule) <= Key(procs[q[j]], rule))
    && (forall j :: 0 <= j < i && Eligible(procs[q[j]], rule) ==> Key(procs[q[i]], rule) < Key(procs[q[j]], rule))
  }

  /** A search from a best-so-far finds the best of both. */
  lemma {:induction false} SearchFacts(procs: seq<Proc>, rule: Rule, q: seq<nat>, best: Option<nat>)
    requires InRange(procs, q) && (best.Some? ==> best.value < |procs| && Eligible(procs[best.value], rule))
    ensures var r := Search(procs, rule, q, best);
      && (r.None? <==> best.None? && forall j :: 0 <= j < |q| ==> !Eligible(procs[q[j]], rule))
      && (r.Some? ==> Eligible(procs[r.value], rule))
      && (r.Some? && best.Some? ==> Key(procs[r.value], rule) <= Key(procs[best.value], rule))
      && (r.Some? && r != best ==>
        && (exists i :: 0 <= i < |q| && Best(procs, rule, q, i) && r == Some(q[i]))
        && (best.Some? ==> Key(procs[r.value], rule) < Key(procs[best.value], rule)))
      && (r.Some? && r == best ==> forall j :: 0 <= j < |q| && Eligible(procs[q[j]], rule) ==> Key(procs[r.value], rule) <= Key(procs[q[j]], rule))
    decreases |q|
  {
    if q != [] {
      InRangeTail(procs, q);
      var next := Better(procs, rule, best, q[0]);
      SearchFacts(procs, rule, q[1..], next);
      var r := Search(procs, rule, q, best);
      if r.Some? && r != best {
        SearchStep(procs, rule, q, best, r.value);
      }
      assert forall j :: 0 < j < |q| ==> q[j] == q[1..][j - 1];
    }
  }

  lemma SearchStep(procs: seq<Proc>, rule: Rule, q: seq<nat>, best: Option<nat>, r: nat)
    requires InRange(procs, q) && q != [] && r < |procs| && (best.Some? ==> best.value < |procs| && Eligible(procs[best.value], rule))
    requires InRange(procs, q[1..]) && best != Some(r)
    requires var next := Better(procs, rule, best, q[0]);
      && (next.Some? ==> Key(procs[r], rule) <= Key(procs[next.value], rule))
      && (Some(r) != next ==>
        && (exists i :: 0 <= i < |q[1..]| && Best(procs, rule, q[1..], i) && r == q[1..][i])
        && (next.Some? ==> Key(procs[r], rule) < Key(procs[next.value], rule)))
      && (Some(r) == next ==> forall j :: 0 <= j < |q[1..]| && Eligible(procs[q[1..][j]], rule) ==> Key(procs[r], rule) <= Key(procs[q[1..][j]], rule))
    ensures exists i :: 0 <= i < |q| && Best(procs, rule, q, i) && r == q[i]
    ensures best.Some? ==> Key(procs[r], rule) < Key(procs[best.value], rule)
  {
    var next := Better(procs, rule, best, q[0]);
    assert forall j :: 0 < j < |q| ==> q[j] == q[1..][j - 1];
    if Some(r) == next {
      assert r == q[0];
      assert Best(procs, rule, q, 0);
    } else {
      var i :| 0 <= i < |q[1..]| && Best(procs, rule, q[1..], i) && r == q[1..][i];
      BestShift(procs, rule, q, i, next);
      assert Best(procs, rule, q, i + 1) && r == q[i + 1];
    }
  }

  lemma BestShift(procs: seq<Proc>, rule: Rule, q: seq<nat>, i: nat, next: Option<nat>)
    requires InRange(procs, q) && q != [] && InRange(procs, q[1..]) && Best(procs, rule, q[1..], i)
    requires next.Some? ==> next.value < |procs| && Key(procs[q[1..][i]], rule) < Key(procs[next.value], rule)
    requires Eligible(procs[q[0]], rule) ==> next.Some? && Key(procs[next.value], rule) <= Key(procs[q[0]], rule)
    ensures Best(procs, rule, q, i + 1)
  {
    assert forall j :: 0 < j < |q| ==> q[j] == q[1..][j - 1];
  }
}
