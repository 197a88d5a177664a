/**
 The set of live chains of a table, keyed by head cluster: pairwise disjoint, and together
 covering every allocated cluster.
 */
module FatChains {
  import opened Common
  import opened FatTable

  type Chains = map<nat, seq<nat>>

  ghost predicate Owned(ch: Chains, c: nat) {
    exists h :: h in ch && c in ch[h]
  }

  /** Every key heads a well-formed chain. */
  ghost predicate Wired(kind: Kind, fat: Table, ch: Chains) {
    forall h :: h in ch ==> IsChain(kind, fat, ch[h]) && ch[h][0] == h
  }

  /** Different chains share no cluster. */
  ghost predicate Apart(ch: Chains) {
    forall h, h' :: h in ch && h' in ch && h != h' ==> Disjoint(ch[h], ch[h'])
  }

  /** Every allocated cluster lies on a chain. */
  ghost predicate Covered(fat: Table, ch: Chains) {
    forall c :: 2 <= c < |fat| && fat[c] != 0 ==> Owned(ch, c)
  }

  ghost predicate ChainsOk(kind: Kind, fat: Table, ch: Chains) {
    Wired(kind, fat, ch) && Apart(ch) && Covered(fat, ch)
  }

  /** A chain only depends on its own entries. */
  lemma ChainFrame(kind: Kind, fat: Table, fat': Table, s: seq<nat>)
    requires IsChain(kind, fat, s) && |fat| == |fat'|
    requires forall x :: x in s ==> x < |fat| && fat'[x] == fat[x]
    ensures IsChain(kind, fat', s)
  {
    assert forall i :: 0 <= i < |s| ==> s[i] in s;
  }

  /** No free cluster lies on a live chain. */
  lemma FreeIsUnowned(kind: Kind, fat: Table, ch: Chains, h: nat, t: seq<nat>)
    requires ChainsOk(kind, fat, ch) && h in ch && AllFree(fat, t)
    ensures Disjoint(ch[h], t) && Disjoint(t, ch[h])
  {
    ChainIsNonzero(kind, fat, ch[h]);
  }

  lemma WiredFrame(kind: Kind, fat: Table, ch: Chains, fat': Table)
    requires Wired(kind, fat, ch) && |fat| == |fat'|
    requires forall h, c :: h in ch && c in ch[h] ==> c < |fat| && fat'[c] == fat[c]
    ensures Wired(kind, fat', ch)
  {
    forall h | h in ch
      ensures IsChain(kind, fat', ch[h])
    {
      ChainFrame(kind, fat, fat', ch[h]);
    }
  }

  lemma OwnedElsewhere(ch: Chains, h: nat, c: nat)
    requires Owned(ch, c) && h in ch ==> c !in ch[h]
    ensures Owned(ch, c) ==> Owned(ch - {h}, c)
  {
    if Owned(ch, c) {
      var g :| g in ch && c in ch[g];
      assert g in ch - {h} && c in (ch - {h})[g];
    }
  }

  lemma OthersApart(ch: Chains, h: nat)
    requires Apart(ch) && h in ch
    ensures forall g, c :: g in ch - {h} && c in ch[g] ==> c !in ch[h]
  {
  }

  lemma DropChain(kind: Kind, fat: Table, ch: Chains, h: nat)
    requires ChainsOk(kind, fat, ch) && h in ch
    ensures ChainsOk(kind, Zeroed(fat, ch[h]), ch - {h})
  {
    var fat', ch' := Zeroed(fat, ch[h]), ch - {h};
    assert Wired(kind, fat', ch') by {
      OthersApart(ch, h);
      assert Wired(kind, fat, ch');
      WiredFrame(kind, fat, ch', fat');
    }
    forall c | 2 <= c < |fat'| && fat'[c] != 0
      ensures Owned(ch', c)
    {
      OwnedElsewhere(ch, h, c);
    }
  }

  lemma PutApart(ch: Chains, h: nat, s: seq<nat>)
    requires Apart(ch)
    requires forall g :: g in ch && g != h ==> Disjoint(ch[g], s)
    ensures Apart(ch[h := s])
  {
    var ch' := ch[h := s];
    forall g, g' | g in ch' && g' in ch' && g != g'
      ensures Disjoint(ch'[g], ch'[g'])
    {
      if g == h {
        assert Disjoint(ch[g'], s);
      } else if g' == h {
        assert Disjoint(ch[g], s);
      } else {
        assert Disjoint(ch[g], ch[g']);
      }
    }
  }

  lemma PutWired(kind: Kind, fat: Table, ch: Chains, h: nat, fat': Table, s: seq<nat>)
    requires Wired(kind, fat, ch) && |fat| == |fat'|
    requires IsChain(kind, fat', s) && s[0] == h
    requires forall g :: g in ch && g != h ==> Disjoint(ch[g], s)
    requires forall c :: 0 <= c < |fat| && c !in s ==> fat'[c] == fat[c]
    ensures Wired(kind, fat', ch[h := s])
  {
    forall g | g in ch && g != h
      ensures IsChain(kind, fat', ch[g]) && ch[g][0] == g
    {
      ChainFrame(kind, fat, fat', ch[g]);
    }
  }

  lemma PutCovered(fat: Table, ch: Chains, h: nat, fat': Table, s: seq<nat>)
    requires Covered(fat, ch) && |fat| == |fat'|
    requires forall c :: 0 <= c < |fat| && c !in s ==> fat'[c] == fat[c]
    requires h in ch ==> forall c :: c in ch[h] ==> c in s
    ensures Covered(fat', ch[h := s])
  {
    var ch' := ch[h := s];
    forall c | 2 <= c < |fat'| && fat'[c] != 0
      ensures Owned(ch', c)
    {
      if c in s {
        assert h in ch' && c in ch'[h];
      } else {
        var g :| g in ch && c in ch[g];
        assert g in ch' && c in ch'[g];
      }
    }
  }

  /** Replacing the chain of one key. */
  lemma ReplaceOne(kind: Kind, fat: Table, ch: Chains, h: nat, fat': Table, s: seq<nat>)
    requires ChainsOk(kind, fat, ch) && |fat| == |fat'|
    requires IsChain(kind, fat', s) && s[0] == h
    requires forall g :: g in ch && g != h ==> Disjoint(ch[g], s)
    requires forall c :: 0 <= c < |fat| && c !in s ==> fat'[c] == fat[c]
    requires h in ch ==> forall c :: c in ch[h] ==> c in s
    ensures ChainsOk(kind, fat', ch[h := s])
  {
    PutApart(ch, h, s);
    PutWired(kind, fat, ch, h, fat', s);
    PutCovered(fat, ch, h, fat', s);
  }

  lemma AddChain(kind: Kind, fat: Table, ch: Chains, t: seq<nat>)
    requires ChainsOk(kind, fat, ch) && Bounded(kind, fat)
    requires t != [] && AllFree(fat, t) && Distinct(t)
    ensures t[0] !in ch
    ensures ChainsOk(kind, Link(kind, fat, t), ch[t[0] := t])
  {
    LinkMakesChain(kind, fat, t);
    forall g | g in ch
      ensures Disjoint(ch[g], t) && g != t[0]
    {
      FreeIsUnowned(kind, fat, ch, g, t);
      assert ch[g][0] in ch[g];
    }
    ReplaceOne(kind, fat, ch, t[0], Link(kind, fat, t), t);
  }

  lemma GrowChain(kind: Kind, fat: Table, ch: Chains, h: nat, t: seq<nat>)
    requires ChainsOk(kind, fat, ch) && h in ch
    requires AllFree(fat, t) && Distinct(t)
    ensures ChainsOk(kind, Attach(kind, fat, Last(ch[h]), t), ch[h := ch[h] + t])
  {
    FreeIsUnowned(kind, fat, ch, h, t);
    AttachExtends(kind, fat, ch[h], t);
    forall g | g in ch && g != h
      ensures Disjoint(ch[g], ch[h] + t)
    {
      FreeIsUnowned(kind, fat, ch, g, t);
      assert Disjoint(ch[g], ch[h]);
    }
    ReplaceOne(kind, fat, ch, h, Attach(kind, fat, Last(ch[h]), t), ch[h] + t);
  }

  // ---------------------------------------------------------------- walking

  /** The clusters a forward walk from `c` passes through. */
  function ChainOf(kind: Kind, fat: Table, c: nat): (r: seq<nat>)
    ensures InRange(fat, r)
    decreases Nonzero(fat), if c >= 2 then 1 else 0
  {
    if c < 2 || c >= |fat| then []
    else
      var next := fat[c];
      var fat' := fat[c := 0];
      assert next != 0 ==> c in Nonzero(fat) && c !in Nonzero(fat');
      assert next == 0 ==> fat' == fat;
      [c] + if IsEoc(kind, next) then [] else ChainOf(kind, fat', next)
  }

  /** The walk from the head of a chain is that chain. */
  lemma {:induction false} ChainOfChain(kind: Kind, fat: Table, s: seq<nat>)
    requires IsChain(kind, fat, s) && Bounded(kind, fat)
    ensures ChainOf(kind, fat, s[0]) == s
    decreases |s|
  {
    if |s| == 1 {
      assert s == [s[0]];
    } else {
      var fat' := fat[s[0] := 0];
      ClusterIsNotEoc(kind, fat, s[1]);
      ChainOfChain(kind, fat', s[1..]);
      assert s == [s[0]] + s[1..];
    }
  }

  // ---------------------------------------------------------------- counting

  /** Clearing a chain frees exactly as many clusters as it had. */
  lemma {:induction false} ZeroedFreeCount(kind: Kind, fat: Table, s: seq<nat>)
    requires |fat| >= 2 && InRange(fat, s) && Distinct(s)
    requires forall x :: x in s ==> fat[x] != 0
    ensures |FreeList(Zeroed(fat, s))| == |FreeList(fat)| + |s|
  {
    var a, b := FreeList(fat), FreeList(Zeroed(fat, s));
    FreeListFacts(fat);
    FreeListFacts(Zeroed(fat, s));
    assert forall x :: x in b <==> x in a || x in s;
    assert forall i :: 0 <= i < |a| ==> a[i] in a;
    SameElementsSameLength(a + s, b);
  }

  ghost function Elements(s: seq<nat>): set<nat> {
    set x | x in s
  }

  lemma {:induction false} DistinctCount(s: seq<nat>)
    requires Distinct(s)
    ensures |s| == |Elements(s)|
  {
    if s != [] {
      var r, last := s[..|s| - 1], s[|s| - 1];
      DistinctCount(r);
      assert s == r + [last];
      assert last !in Elements(r);
      assert Elements(s) == Elements(r) + {last};
    }
  }

  lemma SameElementsSameLength(s: seq<nat>, t: seq<nat>)
    requires Distinct(s) && Distinct(t)
    requires forall x :: x in s <==> x in t
    ensures |s| == |t|
  {
    DistinctCount(s);
    DistinctCount(t);
    assert Elements(s) == Elements(t);
  }
}
