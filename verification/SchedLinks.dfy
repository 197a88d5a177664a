/** Intrusive lists: threads linked by the index of the next one, -1 at the end. */
module SchedLinks {
  import opened Common
  import opened SchedModel
  import opened SchedLists

  function Ptr(q: seq<nat>, i: nat): int {
    if i < |q| then q[i] else -1
  }

  function LastPtr(q: seq<nat>): int {
    if q == [] then -1 else q[|q| - 1]
  }

  /** The links starting at `head` spell the list `q`. */
  ghost predicate Linked(next: seq<int>, head: int, q: seq<nat>) {
    head == Ptr(q, 0) && forall i :: 0 <= i < |q| ==> q[i] < |next| && next[q[i]] == Ptr(q, i + 1)
  }

  lemma LinkedFrame(next: seq<int>, next': seq<int>, head: int, q: seq<nat>)
    requires Linked(next, head, q) && |next'| == |next| && forall p :: p in q && p < |next| ==> next'[p] == next[p]
    ensures Linked(next', head, q)
  {
    forall i | 0 <= i < |q|
      ensures q[i] < |next'| && next'[q[i]] == Ptr(q, i + 1)
    {
      assert q[i] in q;
    }
  }

  lemma LinkedAppend(next: seq<int>, head: int, q: seq<nat>, p: nat)
    requires Linked(next, head, q) && p < |next| && p !in q && Distinct(q)
    ensures q == [] ==> Linked(next[p := -1], p, q + [p])
    ensures q != [] ==> q[|q| - 1] < |next| && Linked(next[p := -1][q[|q| - 1] := p], head, q + [p])
  {
    assert q == [] ==> q + [p] == [p];
    if q != [] {
      var next' := next[p := -1][q[|q| - 1] := p];
      var r := q + [p];
      forall i | 0 <= i < |r|
        ensures r[i] < |next'| && next'[r[i]] == Ptr(r, i + 1)
      {
        if i < |q| {
          assert q[i] in q;
        }
      }
    }
  }

  /** Unlinking the thread at index `i`. */
  lemma LinkedRemove(next: seq<int>, head: int, q: seq<nat>, i: nat)
    requires Linked(next, head, q) && i < |q| && Distinct(q)
    ensures q[i] < |next|
    ensures var r := q[..i] + q[i + 1..];
      if i == 0 then Linked(next[q[0] := -1], next[q[0]], r)
      else q[i - 1] < |next| && Linked(next[q[i - 1] := next[q[i]]][q[i] := -1], head, r)
  {
    if i == 0 {
      assert q[..0] + q[1..] == q[1..];
      var r := q[1..];
      forall j | 0 <= j < |r|
        ensures r[j] < |next| && next[q[0] := -1][r[j]] == Ptr(r, j + 1)
      {
        assert r[j] == q[j + 1];
      }
    } else {
      LinkedSkip(next, head, q, i);
    }
  }

  lemma LinkedSkip(next: seq<int>, head: int, q: seq<nat>, i: nat)
    requires Linked(next, head, q) && 0 < i < |q| && Distinct(q)
    ensures q[i] < |next| && q[i - 1] < |next| && Linked(next[q[i - 1] := next[q[i]]][q[i] := -1], head, q[..i] + q[i + 1..])
  {
    var r := q[..i] + q[i + 1..];
    hide Distinct;
    LinkedNext(next, head, q, i);
    LinkedNext(next, head, q, i - 1);
    forall j | 0 <= j < |r|
      ensures r[j] < |next| && next[q[i - 1] := next[q[i]]][q[i] := -1][r[j]] == Ptr(r, j + 1)
    {
      hide Linked;
      SkipAt(next, head, q, i, if j < i then j else j + 1);
      SkippedAt(q, i, j);
      SkippedAt(q, i, j + 1);
    }
    SkippedAt(q, i, 0);
  }

  lemma SkippedAt(q: seq<nat>, i: nat, j: nat)
    requires i < |q|
    ensures var r := q[..i] + q[i + 1..];
      |r| == |q| - 1 && (j < |r| ==> r[j] == q[if j < i then j else j + 1]) && Ptr(r, j) == Ptr(q, if j < i then j else j + 1)
  {
  }

  lemma DistinctAt(q: seq<nat>, i: nat, j: nat)
    requires Distinct(q) && i < |q| && j < |q| && i != j
    ensures q[i] != q[j]
  {
  }

  lemma SkipAt(next: seq<int>, head: int, q: seq<nat>, i: nat, m: nat)
    requires Linked(next, head, q) && 0 < i < |q| && m < |q| && m != i && Distinct(q)
    ensures q[i] < |next| && q[i - 1] < |next| && q[m] < |next|
    ensures next[q[i - 1] := next[q[i]]][q[i] := -1][q[m]] == Ptr(q, if m == i - 1 then i + 1 else m + 1)
  {
    hide *;
    LinkedNext(next, head, q, i);
    LinkedNext(next, head, q, i - 1);
    LinkedNext(next, head, q, m);
    DistinctAt(q, m, i);
    if m != i - 1 {
      DistinctAt(q, m, i - 1);
    }
  }

  /** Linking `p` in at index `i`. */
  lemma LinkedInsert(next: seq<int>, head: int, q: seq<nat>, p: nat, i: nat)
    requires Linked(next, head, q) && p < |next| && p !in q && Distinct(q) && i <= |q|
    ensures var r := q[..i] + [p] + q[i..];
      if i == 0 then Linked(next[p := head], p, r)
      else q[i - 1] < |next| && Linked(next[p := next[q[i - 1]]][q[i - 1] := p], head, r)
  {
    var r := q[..i] + [p] + q[i..];
    var next' := if i == 0 then next[p := head] else next[p := next[q[i - 1]]][q[i - 1] := p];
    forall j | 0 <= j < |r|
      ensures r[j] < |next'| && next'[r[j]] == Ptr(r, j + 1)
    {
      if j < i {
        assert r[j] == q[j] && q[j] in q;
        assert j + 1 < i ==> q[j] != q[i - 1];
      } else if j > i {
        assert r[j] == q[j - 1] && q[j - 1] in q;
        if i > 0 {
          assert q[i - 1] != q[j - 1];
        }
      }
    }
  }

  lemma LinkedNext(next: seq<int>, head: int, q: seq<nat>, i: nat)
    requires Linked(next, head, q) && i < |q|
    ensures q[i] < |next| && next[q[i]] == Ptr(q, i + 1)
  {
  }

  lemma LinkedHead(next: seq<int>, head: int, q: seq<nat>)
    requires Linked(next, head, q)
    ensures head == Ptr(q, 0)
  {
  }

  // ---------------------------------------------------------------- the ready queues

  ghost predicate QueueWired(next: seq<int>, head: int, tail: int, bit: bool, q: seq<nat>) {
    Linked(next, head, q) && tail == LastPtr(q) && bit == (q != [])
  }

  /** No thread is on two queues, or twice on one. */
  ghost predicate Separate(queues: Queues) {
    && (forall k :: 0 <= k < |queues| ==> Distinct(queues[k]))
    && (forall j, k, p :: 0 <= j < |queues| && 0 <= k < |queues| && j != k && p in queues[j] ==> p !in queues[k])
  }

  /** Heads, tails, bitmap and flags agree with the queues. */
  ghost predicate RunLists(next: seq<int>, head: seq<int>, tail: seq<int>, bits: seq<bool>, on: seq<bool>, queues: Queues) {
    && |next| == |on| == SLOTS && |head| == |tail| == |bits| == |queues| == LEVELS
    && Separate(queues)
    && (forall k :: 0 <= k < LEVELS ==> QueueWired(next, head[k], tail[k], bits[k], queues[k]))
    && (forall p :: 0 <= p < SLOTS ==> on[p] == Queued(queues, p))
  }

  lemma RunListsAt(next: seq<int>, head: seq<int>, tail: seq<int>, bits: seq<bool>, on: seq<bool>, queues: Queues, k: nat)
    requires RunLists(next, head, tail, bits, on, queues) && k < LEVELS
    ensures |next| == |on| == SLOTS && |head| == |tail| == |bits| == |queues| == LEVELS
    ensures QueueWired(next, head[k], tail[k], bits[k], queues[k]) && Linked(next, head[k], queues[k]) && Distinct(queues[k])
    ensures tail[k] == LastPtr(queues[k]) && bits[k] == (queues[k] != []) && head[k] == Ptr(queues[k], 0)
  {
  }

  lemma RunListsOn(next: seq<int>, head: seq<int>, tail: seq<int>, bits: seq<bool>, on: seq<bool>, queues: Queues, p: nat)
    requires RunLists(next, head, tail, bits, on, queues) && p < SLOTS
    ensures |next| == |on| == SLOTS && |head| == |tail| == |bits| == |queues| == LEVELS
    ensures on[p] == Queued(queues, p)
  {
  }

  lemma RunListsIntro(next: seq<int>, head: seq<int>, tail: seq<int>, bits: seq<bool>, on: seq<bool>, queues: Queues)
    requires |next| == |on| == SLOTS && |head| == |tail| == |bits| == |queues| == LEVELS
    requires Separate(queues)
    requires forall k :: 0 <= k < LEVELS ==> QueueWired(next, head[k], tail[k], bits[k], queues[k])
    requires forall p :: 0 <= p < SLOTS ==> on[p] == Queued(queues, p)
    ensures RunLists(next, head, tail, bits, on, queues)
  {
  }

  lemma RunListsParts(next: seq<int>, head: seq<int>, tail: seq<int>, bits: seq<bool>, on: seq<bool>, queues: Queues)
    requires RunLists(next, head, tail, bits, on, queues)
    ensures |next| == |on| == SLOTS && |head| == |tail| == |bits| == |queues| == LEVELS && Separate(queues)
  {
  }

  // ---------------------------------------------------------------- enqueueing

  lemma PutLastSeparate(queues: Queues, k: nat, p: nat)
    requires Separate(queues) && k < |queues| && !Queued(queues, p)
    ensures Separate(PutLast(queues, k, p)) && |PutLast(queues, k, p)| == |queues|
    ensures forall j :: 0 <= j < |queues| ==> PutLast(queues, k, p)[j] == if j == k then queues[k] + [p] else queues[j]
  {
    assert p !in queues[k];
  }

  lemma PutLastQueued(queues: Queues, k: nat, p: nat, x: nat)
    requires k < |queues|
    ensures Queued(PutLast(queues, k, p), x) <==> x == p || Queued(queues, x)
  {
    var r := PutLast(queues, k, p);
    assert p in r[k];
    if Queued(queues, x) {
      var j :| 0 <= j < |queues| && x in queues[j];
      assert x in r[j];
    }
    if Queued(r, x) && x != p {
      var j :| 0 <= j < |r| && x in r[j];
      assert x in queues[j];
    }
  }

  lemma NotOn(queues: Queues, p: nat, k: nat)
    requires !Queued(queues, p) && k < |queues|
    ensures p !in queues[k]
  {
  }

  lemma EnqueueWired(next: seq<int>, head: seq<int>, tail: seq<int>, bits: seq<bool>, on: seq<bool>, queues: Queues, k: nat, p: nat)
    requires RunLists(next, head, tail, bits, on, queues) && k < LEVELS && p < SLOTS && !Queued(queues, p)
    ensures |next| == |on| == SLOTS && |head| == |tail| == |bits| == |queues| == LEVELS
    ensures head[k] < 0 ==>
      RunLists(next[p := -1], head[k := p], tail[k := p], bits[k := true], on[p := true], PutLast(queues, k, p))
    ensures head[k] >= 0 ==>
      && 0 <= tail[k] < SLOTS
      && RunLists(next[p := -1][tail[k] := p], head, tail[k := p], bits[k := true], on[p := true], PutLast(queues, k, p))
  {
    hide *;
    RunListsParts(next, head, tail, bits, on, queues);
    RunListsAt(next, head, tail, bits, on, queues, k);
    NotOn(queues, p, k);
    LinkedAppend(next, head[k], queues[k], p);
    PtrFacts(queues[k]);
    PutLastSeparate(queues, k, p);
    var empty := head[k] < 0;
    var next' := if empty then next[p := -1] else next[p := -1][tail[k] := p];
    var head' := if empty then head[k := p] else head;
    var queues' := PutLast(queues, k, p);
    forall j | 0 <= j < LEVELS
      ensures QueueWired(next', head'[j], tail[k := p][j], bits[k := true][j], queues'[j])
    {
      RunListsAt(next, head, tail, bits, on, queues, j);
      NotOn(queues, p, j);
      if j == k {
        AppendWired(next', head'[k], queues[k], p);
      } else {
        TailElsewhere(queues, j, k);
        LinkedFrame(next, next', head[j], queues[j]);
        QueueWiredIntro(next', head[j], tail[j], bits[j], queues[j]);
      }
    }
    forall x | 0 <= x < SLOTS
      ensures on[p := true][x] == Queued(queues', x)
    {
      RunListsOn(next, head, tail, bits, on, queues, x);
      PutLastQueued(queues, k, p, x);
    }
    RunListsIntro(next', head', tail[k := p], bits[k := true], on[p := true], queues');
  }

  lemma PtrFacts(q: seq<nat>)
    ensures Ptr(q, 0) < 0 <==> q == []
    ensures q == [] ==> Ptr(q, 0) == -1 && LastPtr(q) == -1
    ensures q != [] ==> Ptr(q, 0) == q[0] && LastPtr(q) == q[|q| - 1] && LastPtr(q) >= 0
  {
  }

  lemma AppendWired(next: seq<int>, head: int, q: seq<nat>, p: nat)
    requires Linked(next, head, q + [p])
    ensures QueueWired(next, head, p, true, q + [p])
  {
  }

  lemma QueueWiredIntro(next: seq<int>, head: int, tail: int, bit: bool, q: seq<nat>)
    requires Linked(next, head, q) && tail == LastPtr(q) && bit == (q != [])
    ensures QueueWired(next, head, tail, bit, q)
  {
  }

  lemma TailElsewhere(queues: Queues, j: nat, k: nat)
    requires Separate(queues) && j < |queues| && k < |queues| && j != k
    ensures forall p :: p in queues[k] ==> p !in queues[j]
    ensures queues[k] != [] ==> queues[k][|queues[k]| - 1] !in queues[j]
  {
    if queues[k] != [] {
      assert queues[k][|queues[k]| - 1] in queues[k];
    }
  }

  // ---------------------------------------------------------------- removal

  lemma DropSeparate(queues: Queues, k: nat, p: nat)
    requires Separate(queues) && k < |queues|
    ensures Separate(queues[k := Without(queues[k], p)])
  {
    WithoutFacts(queues[k], p);
  }

  lemma DropQueued(queues: Queues, k: nat, p: nat, x: nat)
    requires Separate(queues) && k < |queues| && p in queues[k]
    ensures Queued(queues[k := Without(queues[k], p)], x) <==> x != p && Queued(queues, x)
  {
    WithoutFacts(queues[k], p);
    var r := queues[k := Without(queues[k], p)];
    if x != p && Queued(queues, x) {
      var j :| 0 <= j < |queues| && x in queues[j];
      assert x in r[j];
    }
    if Queued(r, x) {
      var j :| 0 <= j < |r| && x in r[j];
      assert x in queues[j];
    }
  }

  /** The links after unlinking the thread at index `i` of a list. */
  function Unlinked(next: seq<int>, q: seq<nat>, i: nat): (r: seq<int>)
    requires i < |q| && q[i] < |next| && (i > 0 ==> q[i - 1] < |next|)
    ensures |r| == |next|
  {
    if i == 0 then next[q[0] := -1] else next[q[i - 1] := next[q[i]]][q[i] := -1]
  }

  lemma LinkedRange(next: seq<int>, head: int, q: seq<nat>, i: nat)
    requires Linked(next, head, q) && i < |q|
    ensures q[i] < |next| && (i > 0 ==> q[i - 1] < |next|)
  {
  }

  lemma RemoveWired(next: seq<int>, head: seq<int>, tail: seq<int>, bits: seq<bool>, on: seq<bool>, queues: Queues, k: nat, i: nat)
    requires RunLists(next, head, tail, bits, on, queues) && k < LEVELS && |queues| == LEVELS && i < |queues[k]|
    ensures |next| == |on| == SLOTS && |head| == |tail| == |bits| == LEVELS
    ensures var q := queues[k];
      && q[i] < SLOTS && (i > 0 ==> q[i - 1] < SLOTS)
      && var head' := if i == 0 then head[k := next[q[0]]] else head;
      var tail' := if tail[k] == q[i] then tail[k := if i == 0 then -1 else q[i - 1]] else tail;
      var bits' := if head'[k] < 0 then bits[k := false] else bits;
      RunLists(Unlinked(next, q, i), head', tail', bits', on[q[i] := false], queues[k := Without(q, q[i])])
  {
    hide *;
    RunListsParts(next, head, tail, bits, on, queues);
    RunListsAt(next, head, tail, bits, on, queues, k);
    var q := queues[k];
    var p := q[i];
    LinkedRange(next, head[k], q, i);
    LinkedRemove(next, head[k], q, i);
    WithoutAt(q, i);
    var r := Without(q, p);
    var next' := Unlinked(next, q, i);
    UnlinkedIs(next, q, i);
    var head' := if i == 0 then head[k := next[q[0]]] else head;
    var tail' := if tail[k] == q[i] then tail[k := if i == 0 then -1 else q[i - 1]] else tail;
    var bits' := if head'[k] < 0 then bits[k := false] else bits;
    var queues' := queues[k := r];
    DropSeparate(queues, k, p);
    forall j | 0 <= j < LEVELS
      ensures QueueWired(next', head'[j], tail'[j], bits'[j], queues'[j])
    {
      if j == k {
        RemovedEnds(q, i, r);
        LinkedHead(next', head'[k], r);
        QueueWiredIntro(next', head'[k], tail'[k], bits'[k], r);
      } else {
        RunListsAt(next, head, tail, bits, on, queues, j);
        TailElsewhere(queues, j, k);
        MemberAt(q, i);
        LinkedFrame(next, next', head[j], queues[j]);
        QueueWiredIntro(next', head[j], tail[j], bits[j], queues[j]);
      }
    }
    forall x | 0 <= x < SLOTS
      ensures on[p := false][x] == Queued(queues', x)
    {
      RunListsOn(next, head, tail, bits, on, queues, x);
      MemberAt(q, i);
      DropQueued(queues, k, p, x);
    }
    RunListsIntro(next', head', tail', bits', on[p := false], queues');
  }

  lemma MemberAt(q: seq<nat>, i: nat)
    requires i < |q|
    ensures q[i] in q && (i > 0 ==> q[i - 1] in q)
  {
  }

  lemma UnlinkedIs(next: seq<int>, q: seq<nat>, i: nat)
    requires i < |q| && q[i] < |next| && (i > 0 ==> q[i - 1] < |next|)
    ensures Unlinked(next, q, i) == if i == 0 then next[q[0] := -1] else next[q[i - 1] := next[q[i]]][q[i] := -1]
  {
  }

  lemma RemovedEnds(q: seq<nat>, i: nat, r: seq<nat>)
    requires i < |q| && Distinct(q) && r == q[..i] + q[i + 1..]
    ensures LastPtr(q) == q[i] <==> i == |q| - 1
    ensures LastPtr(r) == if i == |q| - 1 then (if i == 0 then -1 else q[i - 1]) else LastPtr(q)
    ensures Ptr(r, 0) < 0 <==> r == []
    ensures q != [] && (i > 0 ==> r != [])
  {
  }
}
