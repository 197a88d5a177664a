/**
 The volume invariant and the elementary changes that keep it.  `ch` lists the live chains,
 `t` is the directory tree stored in the blocks of the directory chains.
 */
module FatInvariant {
  import opened Common
  import opened FatTable
  import opened FatChains
  import opened FatSlots
  import opened FatStore
  import opened FatTree
  import opened FatOps

  /** The blocks of a live directory. */
  ghost function ChainAt(ch: Chains, d: nat): seq<nat>
    requires d == 0 || d in ch
  {
    if d == 0 then [0] else ch[d]
  }

  ghost predicate DirStored(data: Blocks, ch: Chains, t: Tree, d: nat)
    requires d in t.view
  {
    && (d == 0 || d in ch)
    && BlocksIn(data, ChainAt(ch, d)) && Distinct(ChainAt(ch, d))
    && t.view[d] == Records(data, ChainAt(ch, d))
  }

  /** The tree shows what the directory blocks hold. */
  ghost predicate Viewed(data: Blocks, ch: Chains, t: Tree) {
    forall d :: d in t.view ==> DirStored(data, ch, t, d)
  }

  ghost predicate Inv(v: Volume, ch: Chains, t: Tree) {
    && Shape(v)
    && ChainsOk(v.kind, v.fat, ch)
    && TreeOk(t, ch.Keys)
    && t.root == v.rootHead
    && (v.kind.Fat32? ==> v.rootHead in ch)
    && Viewed(v.data, ch, t)
  }

  /** The volume is consistent: live chains and directory tree fit together. */
  ghost predicate Consistent(v: Volume) {
    exists ch, t :: Inv(v, ch, t)
  }

  lemma Witnesses(v: Volume) returns (ch: Chains, t: Tree)
    requires Consistent(v)
    ensures Inv(v, ch, t)
  {
    hide Inv;
    ch, t :| Inv(v, ch, t);
  }

  // ---------------------------------------------------------------- basic facts

  lemma HeadsInRange(v: Volume, ch: Chains, h: nat)
    requires Wired(v.kind, v.fat, ch) && h in ch
    ensures 2 <= h < |v.fat| && ch[h] != [] && h in ch[h] && InRange(v.fat, ch[h])
  {
    assert ch[h][0] in ch[h];
  }

  lemma DirIsStored(v: Volume, ch: Chains, t: Tree, d: nat)
    requires Inv(v, ch, t) && d in t.view
    ensures DirStored(v.data, ch, t, d)
    ensures d == 0 <==> d == t.root && v.kind.Fat16?
    ensures d != 0 ==> d in ch
  {
    if d != t.root {
      assert d in t.own;
      HeadsInRange(v, ch, d);
    }
  }

  /** Walking from a live directory visits its chain. */
  lemma DirChainIs(v: Volume, ch: Chains, t: Tree, d: nat)
    requires Inv(v, ch, t) && d in t.view
    ensures d == 0 || d in ch
    ensures DirChain(v, d) == ChainAt(ch, d)
    ensures DirOf(v, d) == t.view[d]
  {
    DirIsStored(v, ch, t, d);
    if d != 0 {
      ChainOfChain(v.kind, v.fat, ch[d]);
    }
  }

  /** Block `c` holds directory records. */
  ghost predicate DirBlock(ch: Chains, t: Tree, c: nat) {
    exists d :: d in t.view && (d == 0 || d in ch) && c in ChainAt(ch, d)
  }

  lemma FreeIsNoDirBlock(v: Volume, ch: Chains, t: Tree, c: nat)
    requires ChainsOk(v.kind, v.fat, ch) && 2 <= c < |v.fat| && v.fat[c] == 0
    ensures !DirBlock(ch, t, c)
  {
    forall d | d in ch
      ensures c !in ch[d]
    {
      ChainIsNonzero(v.kind, v.fat, ch[d]);
    }
  }

  lemma ChainsDisjoint(v: Volume, ch: Chains, d: nat, h: nat, c: nat)
    requires ChainsOk(v.kind, v.fat, ch) && d in ch && h in ch && d != h && c in ch[h]
    ensures c !in ch[d]
  {
    assert Disjoint(ch[d], ch[h]);
  }

  lemma FileIsNoDirBlock(v: Volume, ch: Chains, t: Tree, h: nat, c: nat)
    requires ChainsOk(v.kind, v.fat, ch) && h in ch && h !in t.view && c in ch[h]
    ensures !DirBlock(ch, t, c)
  {
    HeadsInRange(v, ch, h);
    hide ChainsOk;
    forall d | d in ch && d in t.view
      ensures c !in ch[d]
    {
      ChainsDisjoint(v, ch, d, h, c);
    }
  }

  // ---------------------------------------------------------------- the view under changes

  /** Blocks that hold no directory records may change freely. */
  lemma ViewedFrame(data: Blocks, data': Blocks, ch: Chains, t: Tree)
    requires Viewed(data, ch, t) && |data| == |data'|
    requires forall c :: 0 <= c < |data| && DirBlock(ch, t, c) ==> data'[c] == data[c]
    ensures Viewed(data', ch, t)
  {
    forall d | d in t.view
      ensures DirStored(data', ch, t, d)
    {
      assert DirStored(data, ch, t, d);
      RecordsFrame(data, data', ChainAt(ch, d));
    }
  }

  /** Chains of files may come, go and grow freely. */
  lemma ViewedChains(data: Blocks, ch: Chains, ch': Chains, t: Tree)
    requires Viewed(data, ch, t)
    requires forall d :: d in t.view && d != 0 ==> d in ch' && (d in ch ==> ch'[d] == ch[d])
    ensures Viewed(data, ch', t)
  {
    forall d | d in t.view
      ensures DirStored(data, ch', t, d)
    {
      assert DirStored(data, ch, t, d);
    }
  }

  /** Slot `r` of the tree is stored at `loc`. */
  ghost predicate StoredAt(data: Blocks, ch: Chains, t: Tree, r: Ref, loc: Loc) {
    && IsRef(t, r)
    && DirStored(data, ch, t, r.d)
    && loc == LocOf(data, ChainAt(ch, r.d), r.k)
  }

  /** Where a slot is stored depends on the chain and the block sizes only. */
  lemma {:induction false} LocOfFrame(data: Blocks, data': Blocks, chain: seq<nat>, k: nat)
    requires BlocksIn(data, chain) && SameSizes(data, data')
    requires k < |Records(data, chain)|
    ensures k < |Records(data', chain)| && LocOf(data', chain, k) == LocOf(data, chain, k)
    decreases |chain|
  {
    RecordsSize(data, data', chain);
    var n := SlotCount(data[chain[0]]);
    if k >= n {
      LocOfFrame(data, data', chain[1..], k - n);
    }
  }

  lemma {:induction false} RecordsSize(data: Blocks, data': Blocks, chain: seq<nat>)
    requires BlocksIn(data, chain) && SameSizes(data, data')
    ensures |Records(data', chain)| == |Records(data, chain)|
    decreases |chain|
  {
    if chain != [] {
      RecordsSize(data, data', chain[1..]);
    }
  }

  lemma StoredAtFacts(data: Blocks, ch: Chains, t: Tree, r: Ref, loc: Loc)
    requires StoredAt(data, ch, t, r, loc)
    ensures IsLoc(data, loc) && Decode(Get(data, loc)) == At(t, r)
    ensures DirBlock(ch, t, loc.c)
  {
    LocOfFacts(data, ChainAt(ch, r.d), r.k);
  }

  lemma DirsApart(v: Volume, ch: Chains, d: nat, d': nat)
    requires ChainsOk(v.kind, v.fat, ch) && (d == 0 || d in ch) && (d' == 0 || d' in ch) && d != d'
    ensures Disjoint(ChainAt(ch, d), ChainAt(ch, d'))
  {
    if d == 0 {
      HeadsInRange(v, ch, d');
    } else if d' == 0 {
      HeadsInRange(v, ch, d);
    } else {
      assert Disjoint(ch[d], ch[d']);
    }
  }

  lemma DirStoredIntro(data: Blocks, ch: Chains, t: Tree, d: nat)
    requires d in t.view && (d == 0 || d in ch)
    requires BlocksIn(data, ChainAt(ch, d)) && Distinct(ChainAt(ch, d))
    requires t.view[d] == Records(data, ChainAt(ch, d))
    ensures DirStored(data, ch, t, d)
  {
  }

  lemma DirStoredElim(data: Blocks, ch: Chains, t: Tree, d: nat)
    requires d in t.view && DirStored(data, ch, t, d)
    ensures (d == 0 || d in ch) && BlocksIn(data, ChainAt(ch, d)) && Distinct(ChainAt(ch, d))
    ensures t.view[d] == Records(data, ChainAt(ch, d))
  {
  }

  lemma StoredAtElim(data: Blocks, ch: Chains, t: Tree, r: Ref, loc: Loc)
    requires StoredAt(data, ch, t, r, loc)
    ensures IsRef(t, r) && r.d in t.view && DirStored(data, ch, t, r.d) && r.k < |t.view[r.d]|
    ensures (r.d == 0 || r.d in ch) && BlocksIn(data, ChainAt(ch, r.d)) && r.k < |Records(data, ChainAt(ch, r.d))|
    ensures loc == LocOf(data, ChainAt(ch, r.d), r.k)
  {
  }

  lemma SetAtView(t: Tree, r: Ref, rec: Record, d: nat)
    requires IsRef(t, r) && d in t.view && r.d in t.view && r.k < |t.view[r.d]|
    ensures d in SetAt(t, r, rec).view
    ensures SetAt(t, r, rec).view[d] == if d == r.d then t.view[d][r.k := rec] else t.view[d]
  {
  }

  lemma DisjointMember(s: seq<nat>, t: seq<nat>, c: nat)
    requires Disjoint(s, t) && c in t
    ensures c !in s
  {
  }

  lemma DirStoredPut(v: Volume, ch: Chains, t: Tree, r: Ref, loc: Loc, s: Slot, d: nat)
    requires ChainsOk(v.kind, v.fat, ch) && StoredAt(v.data, ch, t, r, loc) && IsLoc(v.data, loc)
    requires d in t.view && DirStored(v.data, ch, t, d)
    ensures IsRef(t, r)
    ensures d in SetAt(t, r, Decode(s)).view && DirStored(Put(v.data, loc, s), ch, SetAt(t, r, Decode(s)), d)
  {
    hide *;
    var data' := Put(v.data, loc, s);
    StoredAtElim(v.data, ch, t, r, loc);
    DirStoredElim(v.data, ch, t, d);
    LocOfFacts(v.data, ChainAt(ch, r.d), r.k);
    SetAtView(t, r, Decode(s), d);
    PutElsewhere(v.data, loc, s, ChainAt(ch, d));
    if d == r.d {
      RecordsPut(v.data, ChainAt(ch, d), r.k, s);
    } else {
      DirsApart(v, ch, d, r.d);
      DisjointMember(ChainAt(ch, d), ChainAt(ch, r.d), loc.c);
      ChainBelow(v.data, ChainAt(ch, d));
      RecordsFrame(v.data, data', ChainAt(ch, d));
    }
    DirStoredIntro(data', ch, SetAt(t, r, Decode(s)), d);
  }

  lemma ChainBelow(data: Blocks, chain: seq<nat>)
    requires BlocksIn(data, chain)
    ensures forall c :: c in chain ==> c < |data|
  {
  }

  /** Storing a slot changes the view at that slot and nowhere else. */
  lemma ViewedPut(v: Volume, ch: Chains, t: Tree, r: Ref, loc: Loc, s: Slot)
    requires ChainsOk(v.kind, v.fat, ch) && Viewed(v.data, ch, t) && StoredAt(v.data, ch, t, r, loc)
    ensures IsLoc(v.data, loc)
    ensures Viewed(Put(v.data, loc, s), ch, SetAt(t, r, Decode(s)))
  {
    StoredAtFacts(v.data, ch, t, r, loc);
    forall d | d in t.view
      ensures DirStored(Put(v.data, loc, s), ch, SetAt(t, r, Decode(s)), d)
    {
      DirStoredPut(v, ch, t, r, loc, s, d);
    }
  }

  ghost predicate SameSizes(data: Blocks, data': Blocks) {
    |data| == |data'| && forall c :: 0 <= c < |data| ==> |data'[c]| == |data[c]|
  }

  lemma PutSizes(data: Blocks, loc: Loc, s: Slot)
    requires IsLoc(data, loc)
    ensures SameSizes(data, Put(data, loc, s))
  {
    PutSlotBlock(data[loc.c], loc.i, s);
  }

  lemma StoredAtKept(data: Blocks, ch: Chains, t: Tree, r: Ref, loc: Loc, data': Blocks, ch': Chains, t': Tree)
    requires StoredAt(data, ch, t, r, loc)
    requires SameSizes(data, data')
    requires IsRef(t', r) && DirStored(data', ch', t', r.d)
    requires r.d != 0 ==> r.d in ch && r.d in ch' && ch'[r.d] == ch[r.d]
    ensures StoredAt(data', ch', t', r, loc)
  {
    LocOfFrame(data, data', ChainAt(ch, r.d), r.k);
  }
}
