/** The elementary changes of a volume, each keeping the invariant. */
module FatSteps {
  import opened Common
  import opened Bytes
  import opened FatTable
  import opened FatChains
  import opened FatSlots
  import opened FatStore
  import opened FatTree
  import opened FatOps
  import opened FatInvariant

  lemma ShapeKept(v: Volume, v': Volume)
    requires Shape(v) && SameSizes(v.data, v'.data)
    requires v'.kind == v.kind && v'.csize == v.csize && v'.rootHead == v.rootHead && |v'.fat| == |v.fat|
    ensures Shape(v')
  {
  }

  lemma InvParts(v: Volume, ch: Chains, t: Tree)
    requires Inv(v, ch, t)
    ensures Shape(v) && ChainsOk(v.kind, v.fat, ch) && TreeOk(t, ch.Keys) && Viewed(v.data, ch, t)
    ensures t.root == v.rootHead && (v.kind.Fat32? ==> v.rootHead in ch)
  {
  }

  lemma InvIntro(v: Volume, ch: Chains, t: Tree)
    requires Shape(v) && ChainsOk(v.kind, v.fat, ch) && TreeOk(t, ch.Keys) && Viewed(v.data, ch, t)
    requires t.root == v.rootHead && (v.kind.Fat32? ==> v.rootHead in ch)
    ensures Inv(v, ch, t)
  {
  }

  lemma DirsAreChains(v: Volume, ch: Chains, t: Tree)
    requires Inv(v, ch, t)
    ensures forall d :: d in t.view && d != 0 ==> d in ch
    ensures forall r :: IsRef(t, r) ==> r.d in t.view
  {
  }

  lemma StoredAtParts(data: Blocks, ch: Chains, t: Tree, r: Ref, loc: Loc)
    requires StoredAt(data, ch, t, r, loc)
    ensures IsRef(t, r) && r.d in t.view && DirStored(data, ch, t, r.d)
  {
  }

  lemma PutAtFat(v: Volume, fat: Table, loc: Loc, s: Slot)
    ensures PutAt(v.(fat := fat), loc, s) == PutAt(v, loc, s).(fat := fat)
    ensures PutAt(v, loc, s).kind == v.kind && PutAt(v, loc, s).csize == v.csize
    ensures PutAt(v, loc, s).rootHead == v.rootHead && PutAt(v, loc, s).fat == v.fat
  {
  }

  /** Rewriting a record in place. */
  lemma PutStep(v: Volume, ch: Chains, t: Tree, r: Ref, loc: Loc, s: Slot)
    requires Inv(v, ch, t) && StoredAt(v.data, ch, t, r, loc)
    ensures IsLoc(v.data, loc) && PutAt(v, loc, s).data == Put(v.data, loc, s)
    ensures Shape(PutAt(v, loc, s)) && SameSizes(v.data, PutAt(v, loc, s).data)
    ensures Viewed(PutAt(v, loc, s).data, ch, SetAt(t, r, Decode(s)))
    ensures StoredAt(PutAt(v, loc, s).data, ch, SetAt(t, r, Decode(s)), r, loc)
  {
    ViewedPut(v, ch, t, r, loc, s);
    PutSizes(v.data, loc, s);
    ShapeKept(v, PutAt(v, loc, s));
    StoredAtKept(v.data, ch, t, r, loc, PutAt(v, loc, s).data, ch, SetAt(t, r, Decode(s)));
  }

  lemma KeepSlot(v: Volume, ch: Chains, t: Tree, r: Ref, loc: Loc, s: Slot)
    requires Inv(v, ch, t) && StoredAt(v.data, ch, t, r, loc) && Fits(t, r, Decode(s))
    requires Owns(Decode(s)) <==> Owns(At(t, r))
    requires Owns(Decode(s)) ==> Decode(s).head == At(t, r).head && Decode(s).directory == At(t, r).directory
    ensures Inv(PutAt(v, loc, s), ch, SetAt(t, r, Decode(s)))
    ensures StoredAt(PutAt(v, loc, s).data, ch, SetAt(t, r, Decode(s)), r, loc)
  {
    PutStep(v, ch, t, r, loc, s);
    KeepOwner(t, ch.Keys, r, Decode(s));
  }

  // ---------------------------------------------------------------- releasing

  lemma ReleasedTable(v: Volume, ch: Chains, h: nat)
    requires Shape(v) && ChainsOk(v.kind, v.fat, ch) && h in ch
    ensures Release(v.kind, v.fat, h) == Zeroed(v.fat, ch[h])
    ensures ChainsOk(v.kind, Release(v.kind, v.fat, h), ch - {h})
    ensures |Release(v.kind, v.fat, h)| == |v.fat|
  {
    ReleaseChain(v.kind, v.fat, ch[h]);
    DropChain(v.kind, v.fat, ch, h);
  }

  lemma OwnerHead(v: Volume, ch: Chains, t: Tree, r: Ref)
    requires Inv(v, ch, t) && IsRef(t, r) && Owns(At(t, r))
    ensures At(t, r).head in ch && At(t, r).head != t.root && t.own[At(t, r).head] == r
    ensures At(t, r).directory <==> At(t, r).head in t.view
  {
  }

  lemma OwnChanged(data: Blocks, ch: Chains, t: Tree, own: map<nat, Ref>)
    requires Viewed(data, ch, t)
    ensures Viewed(data, ch, t.(own := own))
  {
  }

  lemma StoredAtOwn(data: Blocks, ch: Chains, t: Tree, r: Ref, loc: Loc, ch': Chains, own: map<nat, Ref>)
    requires StoredAt(data, ch, t, r, loc) && Viewed(data, ch', t)
    requires r.d != 0 ==> r.d in ch && r.d in ch' && ch'[r.d] == ch[r.d]
    ensures StoredAt(data, ch', t.(own := own), r, loc)
  {
    assert DirStored(data, ch', t, r.d);
  }

  /** A file record gives up its chain. */
  lemma ReleaseFile(v: Volume, ch: Chains, t: Tree, r: Ref, loc: Loc, s: Slot, h: nat)
    requires Inv(v, ch, t) && StoredAt(v.data, ch, t, r, loc) && Fits(t, r, Decode(s))
    requires Owns(At(t, r)) && !At(t, r).directory && At(t, r).head == h && !Owns(Decode(s))
    ensures h in ch && h !in t.view && h != t.root
    ensures Inv(PutAt(v.(fat := Release(v.kind, v.fat, h)), loc, s), ch - {h}, SetAt(t, r, Decode(s)).(own := t.own - {h}))
    ensures StoredAt(PutAt(v.(fat := Release(v.kind, v.fat, h)), loc, s).data, ch - {h}, SetAt(t, r, Decode(s)).(own := t.own - {h}), r, loc)
  {
    hide *;
    StoredAtParts(v.data, ch, t, r, loc);
    OwnerHead(v, ch, t, r);
    DirsAreChains(v, ch, t);
    SetAtReads(t, r, Decode(s));
    InvParts(v, ch, t);
    ReleasedTable(v, ch, h);
    PutStep(v, ch, t, r, loc, s);
    DropOwner(t, ch.Keys, r, Decode(s));
    assert (ch - {h}).Keys == ch.Keys - {h};
    var fat', data', t1 := Release(v.kind, v.fat, h), PutAt(v, loc, s).data, SetAt(t, r, Decode(s));
    PutAtFat(v, fat', loc, s);
    var v' := PutAt(v.(fat := fat'), loc, s);
    ViewedChains(data', ch, ch - {h}, t1);
    OwnChanged(data', ch - {h}, t1, t.own - {h});
    StoredAtOwn(data', ch, t1, r, loc, ch - {h}, t.own - {h});
    ShapeKept(v, v');
    InvIntro(v', ch - {h}, t1.(own := t.own - {h}));
  }

  // ---------------------------------------------------------------- writing to data clusters

  lemma FreeTake(fat: Table, n: nat)
    ensures AllFree(fat, Prefix(FreeList(fat), n)) && Distinct(Prefix(FreeList(fat), n))
  {
    FreeListFacts(fat);
    var free := FreeList(fat);
    assert forall i :: 0 <= i < |free| ==> free[i] in free;
  }

  /** Writing to free clusters. */
  lemma FillFree(v: Volume, ch: Chains, t: Tree, ts: seq<nat>, bytes: seq<byte>)
    requires Inv(v, ch, t) && AllFree(v.fat, ts)
    ensures Inv(FillIn(v, ts, bytes), ch, t)
    ensures SameSizes(v.data, FillIn(v, ts, bytes).data)
  {
    FillFrame(v.data, ts, bytes, v.csize);
    var v' := FillIn(v, ts, bytes);
    forall c | 0 <= c < |v.data| && DirBlock(ch, t, c)
      ensures v'.data[c] == v.data[c]
    {
      if c in ts {
        FreeIsNoDirBlock(v, ch, t, c);
      }
    }
    ViewedFrame(v.data, v'.data, ch, t);
    ShapeKept(v, v');
  }

  /** Writing inside a cluster of a file. */
  lemma PatchFile(v: Volume, ch: Chains, t: Tree, h: nat, c: nat, offset: nat, bytes: seq<byte>)
    requires Inv(v, ch, t) && h in ch && h !in t.view && c in ch[h]
    ensures Inv(PatchBlock(v, c, offset, bytes), ch, t)
    ensures SameSizes(v.data, PatchBlock(v, c, offset, bytes).data)
  {
    hide ChainsOk, TreeOk, Viewed, Shape;
    var v' := PatchBlock(v, c, offset, bytes);
    FileIsNoDirBlock(v, ch, t, h, c);
    ViewedFrame(v.data, v'.data, ch, t);
    ShapeKept(v, v');
  }

  // ---------------------------------------------------------------- linking

  lemma LinkedTable(v: Volume, ch: Chains, ts: seq<nat>)
    requires Shape(v) && ChainsOk(v.kind, v.fat, ch)
    requires ts != [] && AllFree(v.fat, ts) && Distinct(ts)
    ensures ts[0] !in ch && 2 <= ts[0] < |v.fat|
    ensures ChainsOk(v.kind, Link(v.kind, v.fat, ts), ch[ts[0] := ts])
    ensures |Link(v.kind, v.fat, ts)| == |v.fat|
  {
    AddChain(v.kind, v.fat, ch, ts);
    LinkMakesChain(v.kind, v.fat, ts);
  }

  lemma NotADirectory(v: Volume, ch: Chains, t: Tree, h: nat)
    requires Inv(v, ch, t) && h >= 2 && h !in ch
    ensures h !in t.view && h != t.root
  {
  }

  /** A record without a chain adopts free clusters as its file. */
  lemma AdoptFile(v: Volume, ch: Chains, t: Tree, r: Ref, loc: Loc, s: Slot, ts: seq<nat>)
    requires Inv(v, ch, t) && StoredAt(v.data, ch, t, r, loc) && Fits(t, r, Decode(s))
    requires ts != [] && AllFree(v.fat, ts) && Distinct(ts)
    requires !Owns(At(t, r)) && Decode(s).Entry? && Owns(Decode(s)) && !Decode(s).directory && Decode(s).head == ts[0]
    ensures ts[0] !in ch && ts[0] !in t.view
    ensures Inv(Adopt(v, ts, loc, s), ch[ts[0] := ts], SetAt(t, r, Decode(s)).(own := t.own[ts[0] := r]))
    ensures StoredAt(Adopt(v, ts, loc, s).data, ch[ts[0] := ts], SetAt(t, r, Decode(s)).(own := t.own[ts[0] := r]), r, loc)
  {
    hide *;
    StoredAtParts(v.data, ch, t, r, loc);
    var h, ch', t1 := ts[0], ch[ts[0] := ts], SetAt(t, r, Decode(s));
    DirsAreChains(v, ch, t);
    SetAtReads(t, r, Decode(s));
    InvParts(v, ch, t);
    LinkedTable(v, ch, ts);
    NotADirectory(v, ch, t, h);
    PutStep(v, ch, t, r, loc, s);
    NewFileOwner(t, ch.Keys, r, Decode(s));
    assert ch'.Keys == ch.Keys + {h};
    var fat', data' := Link(v.kind, v.fat, ts), PutAt(v, loc, s).data;
    AdoptIs(v, ts, loc, s);
    PutAtFat(v, fat', loc, s);
    ViewedChains(data', ch, ch', t1);
    OwnChanged(data', ch', t1, t.own[h := r]);
    StoredAtOwn(data', ch, t1, r, loc, ch', t.own[h := r]);
    ShapeKept(v, Adopt(v, ts, loc, s));
    InvIntro(Adopt(v, ts, loc, s), ch', t1.(own := t.own[h := r]));
  }

  lemma AdoptIs(v: Volume, ts: seq<nat>, loc: Loc, s: Slot)
    ensures Adopt(v, ts, loc, s) == PutAt(v.(fat := Link(v.kind, v.fat, ts)), loc, s)
  {
  }

  /** Free clusters are linked behind a file. */
  lemma GrowFile(v: Volume, ch: Chains, t: Tree, h: nat, ts: seq<nat>)
    requires Inv(v, ch, t) && h in ch && h !in t.view
    requires AllFree(v.fat, ts) && Distinct(ts)
    ensures ch[h] != []
    ensures Inv(AttachTo(v, Last(ch[h]), ts), ch[h := ch[h] + ts], t)
  {
    hide *;
    var ch' := ch[h := ch[h] + ts];
    InvParts(v, ch, t);
    DirsAreChains(v, ch, t);
    AttachedTable(v, ch, h, ts);
    assert ch'.Keys == ch.Keys;
    var v' := v.(fat := Attach(v.kind, v.fat, Last(ch[h]), ts));
    AttachToIs(v, Last(ch[h]), ts);
    ViewedChains(v.data, ch, ch', t);
    SameSizesSame(v.data);
    ShapeKept(v, v');
    InvIntro(v', ch', t);
  }

  lemma AttachToIs(v: Volume, last: nat, ts: seq<nat>)
    ensures AttachTo(v, last, ts) == v.(fat := Attach(v.kind, v.fat, last, ts))
  {
  }

  lemma SameSizesSame(data: Blocks)
    ensures SameSizes(data, data)
  {
  }

  lemma AttachedTable(v: Volume, ch: Chains, h: nat, ts: seq<nat>)
    requires Shape(v) && ChainsOk(v.kind, v.fat, ch) && h in ch
    requires AllFree(v.fat, ts) && Distinct(ts)
    ensures ch[h] != []
    ensures ChainsOk(v.kind, Attach(v.kind, v.fat, Last(ch[h]), ts), ch[h := ch[h] + ts])
    ensures |Attach(v.kind, v.fat, Last(ch[h]), ts)| == |v.fat|
  {
    FreeIsUnowned(v.kind, v.fat, ch, h, ts);
    AttachExtends(v.kind, v.fat, ch[h], ts);
    GrowChain(v.kind, v.fat, ch, h, ts);
  }

  // ---------------------------------------------------------------- directories

  lemma ViewedWithDir(data: Blocks, ch: Chains, t: Tree, h: nat, t': Tree)
    requires Viewed(data, ch, t) && h in ch && h != 0 && h < |data| && ch[h] == [h]
    requires t'.view == t.view[h := BlockRecords(data[h])]
    ensures Viewed(data, ch, t')
  {
    forall d | d in t'.view
      ensures DirStored(data, ch, t', d)
    {
      if d == h {
        assert Records(data, []) == [];
        assert Records(data, [h]) == BlockRecords(data[h]) + Records(data, [h][1..]);
      } else {
        assert DirStored(data, ch, t, d);
      }
    }
  }

  lemma PutMisses(v: Volume, ch: Chains, t: Tree, r: Ref, loc: Loc, s: Slot, c: nat)
    requires ChainsOk(v.kind, v.fat, ch) && StoredAt(v.data, ch, t, r, loc)
    requires 2 <= c < |v.fat| == |v.data| && v.fat[c] == 0
    ensures c < |PutAt(v, loc, s).data| && PutAt(v, loc, s).data[c] == v.data[c]
  {
    FreeIsNoDirBlock(v, ch, t, c);
    StoredAtFacts(v.data, ch, t, r, loc);
    hide ChainsOk, StoredAt, DirBlock, PutSlot;
  }

  lemma AddDirIs(t: Tree, r: Ref, s: Record, dir: Dir)
    requires IsRef(t, r) && s.Entry? && r.d in t.rank
    ensures AddDir(t, r, s, dir).view == SetAt(t, r, s).view[s.head := dir] && AddDir(t, r, s, dir).root == t.root
  {
  }

  lemma OneFree(fat: Table, c: nat)
    requires 2 <= c < |fat| && fat[c] == 0
    ensures AllFree(fat, [c]) && Distinct([c])
  {
  }

  /** A record without a chain adopts a free cluster as its directory. */
  lemma AdoptDir(v: Volume, ch: Chains, t: Tree, r: Ref, loc: Loc, s: Slot, c: nat)
    requires Inv(v, ch, t) && StoredAt(v.data, ch, t, r, loc) && Fits(t, r, Decode(s))
    requires 2 <= c < |v.fat| == |v.data| && v.fat[c] == 0
    requires !Owns(At(t, r)) && Decode(s).Entry? && Owns(Decode(s)) && Decode(s).directory && Decode(s).head == c
    requires DirOk(BlockRecords(v.data[c]))
    requires forall k :: 0 <= k < |BlockRecords(v.data[c])| ==> !Owns(BlockRecords(v.data[c])[k])
    ensures r.d in t.rank && c !in ch && c !in t.view
    ensures Inv(Adopt(v, [c], loc, s), ch[c := [c]], AddDir(t, r, Decode(s), BlockRecords(v.data[c])))
  {
    hide *;
    OneFree(v.fat, c);
    StoredAtParts(v.data, ch, t, r, loc);
    var ch', t1, dir := ch[c := [c]], SetAt(t, r, Decode(s)), BlockRecords(v.data[c]);
    DirsAreChains(v, ch, t);
    SetAtReads(t, r, Decode(s));
    InvParts(v, ch, t);
    LinkedTable(v, ch, [c]);
    NotADirectory(v, ch, t, c);
    PutStep(v, ch, t, r, loc, s);
    PutMisses(v, ch, t, r, loc, s, c);
    NewDirOwner(t, ch.Keys, r, Decode(s), dir);
    assert ch'.Keys == ch.Keys + {c};
    var fat', data' := Link(v.kind, v.fat, [c]), PutAt(v, loc, s).data;
    AdoptIs(v, [c], loc, s);
    PutAtFat(v, fat', loc, s);
    ViewedChains(data', ch, ch', t1);
    AddDirIs(t, r, Decode(s), dir);
    ViewedWithDir(data', ch', t1, c, AddDir(t, r, Decode(s), dir));
    ShapeKept(v, Adopt(v, [c], loc, s));
    InvIntro(Adopt(v, [c], loc, s), ch', AddDir(t, r, Decode(s), dir));
  }

  lemma ViewedWithoutDir(data: Blocks, ch: Chains, t: Tree, h: nat, t': Tree)
    requires Viewed(data, ch, t) && h != 0
    requires t'.view == t.view - {h}
    ensures Viewed(data, ch - {h}, t')
  {
    forall d | d in t'.view
      ensures DirStored(data, ch - {h}, t', d)
    {
      assert DirStored(data, ch, t, d);
    }
  }

  /** A record gives up its directory, which owns nothing. */
  lemma ReleaseDir(v: Volume, ch: Chains, t: Tree, r: Ref, loc: Loc, s: Slot, h: nat)
    requires Inv(v, ch, t) && StoredAt(v.data, ch, t, r, loc) && Fits(t, r, Decode(s))
    requires Owns(At(t, r)) && At(t, r).directory && At(t, r).head == h && !Owns(Decode(s))
    requires h in t.view ==> forall k :: 0 <= k < |t.view[h]| ==> !Owns(t.view[h][k])
    ensures h in ch && h in t.view && h != t.root
    ensures Inv(PutAt(v.(fat := Release(v.kind, v.fat, h)), loc, s), ch - {h},
                Tree(SetAt(t, r, Decode(s)).view - {h}, t.own - {h}, t.rank - {h}, t.root))
  {
    hide *;
    StoredAtParts(v.data, ch, t, r, loc);
    OwnerHead(v, ch, t, r);
    DirsAreChains(v, ch, t);
    SetAtReads(t, r, Decode(s));
    InvParts(v, ch, t);
    HeadIsCluster(v, ch, h);
    ReleasedTable(v, ch, h);
    PutStep(v, ch, t, r, loc, s);
    DropDirOwner(t, ch.Keys, r, Decode(s));
    assert (ch - {h}).Keys == ch.Keys - {h};
    var fat', data', t1 := Release(v.kind, v.fat, h), PutAt(v, loc, s).data, SetAt(t, r, Decode(s));
    var t' := Tree(t1.view - {h}, t.own - {h}, t.rank - {h}, t.root);
    PutAtFat(v, fat', loc, s);
    var v' := PutAt(v.(fat := fat'), loc, s);
    ViewedWithoutDir(data', ch, t1, h, t');
    ShapeKept(v, v');
    InvIntro(v', ch - {h}, t');
  }

  lemma HeadIsCluster(v: Volume, ch: Chains, h: nat)
    requires ChainsOk(v.kind, v.fat, ch) && h in ch
    ensures 2 <= h < |v.fat|
  {
    HeadsInRange(v, ch, h);
  }

  // ---------------------------------------------------------------- growing a directory

  lemma DirGrown(v: Volume, ch: Chains, t: Tree, d: nat, c: nat, data': Blocks)
    requires d in t.view && d in ch && d != 0 && DirStored(v.data, ch, t, d)
    requires c < |v.data| && c !in ch[d] && data' == v.data[c := Zeros(v.csize)]
    ensures DirStored(data', ch[d := ch[d] + [c]], Grown(t, d, BlockRecords(Zeros(v.csize))), d)
  {
    RecordsFrame(v.data, data', ch[d]);
    RecordsExtend(data', ch[d], c);
  }

  lemma OtherDirGrown(v: Volume, ch: Chains, t: Tree, d: nat, c: nat, data': Blocks, e: nat)
    requires d in t.view && d in ch && d != 0 && e != d && e in t.view && DirStored(v.data, ch, t, e)
    requires 2 <= c < |v.data| && c !in ChainAt(ch, e) && data' == v.data[c := Zeros(v.csize)]
    ensures DirStored(data', ch[d := ch[d] + [c]], Grown(t, d, BlockRecords(Zeros(v.csize))), e)
  {
    RecordsFrame(v.data, data', ChainAt(ch, e));
  }

  lemma ViewedGrown(v: Volume, ch: Chains, t: Tree, d: nat, c: nat, data': Blocks)
    requires ChainsOk(v.kind, v.fat, ch) && Viewed(v.data, ch, t) && |v.fat| == |v.data|
    requires d in t.view && d in ch && d != 0
    requires 2 <= c < |v.fat| && v.fat[c] == 0
    requires data' == v.data[c := Zeros(v.csize)]
    ensures Viewed(data', ch[d := ch[d] + [c]], Grown(t, d, BlockRecords(Zeros(v.csize))))
  {
    hide ChainsOk, Records, BlockRecords;
    FreeIsNoDirBlock(v, ch, t, c);
    forall e | e in t.view
      ensures DirStored(data', ch[d := ch[d] + [c]], Grown(t, d, BlockRecords(Zeros(v.csize))), e)
    {
      assert DirStored(v.data, ch, t, e);
      if e == d {
        DirGrown(v, ch, t, d, c, data');
      } else {
        OtherDirGrown(v, ch, t, d, c, data', e);
      }
    }
  }

  lemma {:induction false} LocOfNew(data: Blocks, chain: seq<nat>, c: nat)
    requires BlocksIn(data, chain) && c < |data| && SlotCount(data[c]) > 0
    ensures |Records(data, chain)| < |Records(data, chain + [c])|
    ensures LocOf(data, chain + [c], |Records(data, chain)|) == Loc(c, 0)
    decreases |chain|
  {
    RecordsExtend(data, chain, c);
    if chain != [] {
      LocOfNew(data, chain[1..], c);
      assert (chain + [c])[1..] == chain[1..] + [c];
    }
  }

  lemma GrownIs(t: Tree, d: nat, more: Dir)
    requires d in t.view
    ensures Grown(t, d, more).root == t.root && Grown(t, d, more).view.Keys == t.view.Keys
    ensures Grown(t, d, more).view[d] == t.view[d] + more
    ensures Grown(t, d, more).own == t.own
  {
  }

  lemma GrowByIs(v: Volume, last: nat, c: nat)
    requires c < |v.data|
    ensures GrowBy(v, last, c) == v.(fat := Attach(v.kind, v.fat, last, [c]), data := v.data[c := Zeros(v.csize)])
  {
  }

  lemma ZeroSizes(v: Volume, c: nat)
    requires Shape(v) && 2 <= c < |v.data|
    ensures SameSizes(v.data, v.data[c := Zeros(v.csize)])
    ensures SlotCount(Zeros(v.csize)) > 0
  {
  }

  /** A fresh cluster is linked behind a directory; its first slot is the room wanted. */
  lemma GrowDirectory(v: Volume, ch: Chains, t: Tree, d: nat, c: nat)
    requires Inv(v, ch, t) && d in t.view && d in ch
    requires 2 <= c < |v.fat| == |v.data| && v.fat[c] == 0
    ensures d != 0 && ch[d] != []
    ensures Inv(GrowBy(v, Last(ch[d]), c), ch[d := ch[d] + [c]], Grown(t, d, BlockRecords(Zeros(v.csize))))
    ensures StoredAt(GrowBy(v, Last(ch[d]), c).data, ch[d := ch[d] + [c]],
                     Grown(t, d, BlockRecords(Zeros(v.csize))), Ref(d, |t.view[d]|), Loc(c, 0))
  {
    hide *;
    OneFree(v.fat, c);
    InvParts(v, ch, t);
    HeadIsCluster(v, ch, d);
    AttachedTable(v, ch, d, [c]);
    var more := BlockRecords(Zeros(v.csize));
    var ch', t' := ch[d := ch[d] + [c]], Grown(t, d, more);
    assert ch'.Keys == ch.Keys;
    ZeroBlock(v.csize);
    GrowDir(t, ch.Keys, d, more);
    GrownIs(t, d, more);
    var data' := v.data[c := Zeros(v.csize)];
    ViewedGrown(v, ch, t, d, c, data');
    GrowByIs(v, Last(ch[d]), c);
    var v' := GrowBy(v, Last(ch[d]), c);
    ZeroSizes(v, c);
    ShapeKept(v, v');
    InvIntro(v', ch', t');
    NewSlotStored(v, ch, t, d, c, data', ch', t');
  }

  lemma NewSlotStored(v: Volume, ch: Chains, t: Tree, d: nat, c: nat, data': Blocks, ch': Chains, t': Tree)
    requires d in t.view && d in ch && d != 0 && Viewed(v.data, ch, t)
    requires c < |v.data| && SameSizes(v.data, data') && SlotCount(data'[c]) > 0
    requires ch' == ch[d := ch[d] + [c]] && d in t'.view && Viewed(data', ch', t')
    ensures StoredAt(data', ch', t', Ref(d, |t.view[d]|), Loc(c, 0))
  {
    assert DirStored(v.data, ch, t, d);
    assert DirStored(data', ch', t', d);
    RecordsSize(v.data, data', ch[d]);
    LocOfNew(data', ch[d], c);
  }
}
