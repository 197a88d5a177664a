/**
 Replace and append on one file: the invariant is kept on success and on every failure path,
 and the bytes, chains and records of all other files stay as they are.
 */
module FatFiles {
  import opened Common
  import opened Bytes
  import opened FatTable
  import opened FatChains
  import opened FatSlots
  import opened FatStore
  import opened FatTree
  import opened FatOps
  import opened FatInvariant
  import opened FatSteps

  // ---------------------------------------------------------------- records

  lemma EmptiedRecord(s: Slot)
    requires Decode(s).Entry?
    ensures Decode(Emptied(s)) == Decode(s).(head := 0, size := 0)
  {
    hide Decode, WithHead, WithSize, Wrap32;
    DecodeWithHead(s, 0);
    DecodeWithSize(WithHead(s, 0), 0);
    Le32RoundTrip(0);
  }

  lemma FilledRecord(s: Slot, head: nat, size: nat)
    requires Decode(s).Entry? && head < 0x1_0000_0000
    ensures Decode(WithSize(WithHead(s, head), size)) == Decode(s).(head := head, size := Wrap32(size))
  {
    hide Decode, WithHead, WithSize, Wrap32;
    DecodeWithHead(s, head);
    DecodeWithSize(WithHead(s, head), size);
  }

  /** The fields a decoded slot shows. */
  lemma DecodeFields(s: Slot)
    requires Decode(s).Entry?
    ensures Decode(s).head == Head(s) && Decode(s).size == Size(s) < 0x1_0000_0000
    ensures Decode(s).directory == IsDirectory(Attr(s))
  {
  }

  lemma Refit(v: Volume, ch: Chains, t: Tree, r: Ref, rec: Record)
    requires Inv(v, ch, t) && IsRef(t, r) && At(t, r).Entry? && rec.Entry? && rec.name == At(t, r).name
    ensures Fits(t, r, rec)
  {
    SameRecordFits(t, r, rec);
  }

  // ---------------------------------------------------------------- what stays

  /** File chain `g` and its bytes are the same in both volumes. */
  ghost predicate SameFile(v: Volume, ch: Chains, v': Volume, ch': Chains, g: nat) {
    && g in ch && g in ch' && ch'[g] == ch[g]
    && |v'.data| == |v.data|
    && forall c :: c in ch[g] && c < |v.data| ==> v'.data[c] == v.data[c]
  }

  /** Every file chain but `h` is the same in both volumes. */
  ghost predicate OthersSame(v: Volume, ch: Chains, v': Volume, ch': Chains, t: Tree, h: nat) {
    forall g :: g in ch && g !in t.view && g != h ==> SameFile(v, ch, v', ch', g)
  }

  lemma OthersSameChain(a: Volume, cha: Chains, b: Volume, chb: Chains, c: Volume, chc: Chains, t: Tree, t': Tree, h: nat, h': nat)
    requires OthersSame(a, cha, b, chb, t, h) && OthersSame(b, chb, c, chc, t', h')
    requires t'.view.Keys == t.view.Keys && (h' == h || h' !in cha)
    ensures OthersSame(a, cha, c, chc, t, h)
  {
    forall g | g in cha && g !in t.view && g != h
      ensures SameFile(a, cha, c, chc, g)
    {
      assert SameFile(a, cha, b, chb, g);
      assert SameFile(b, chb, c, chc, g);
    }
  }

  lemma PutSameFile(v: Volume, ch: Chains, t: Tree, loc: Loc, s: Slot, fat': Table, ch': Chains, g: nat)
    requires loc.c < |v.data| && g in ch && loc.c !in ch[g] && g in ch' && ch'[g] == ch[g]
    ensures SameFile(v, ch, PutAt(v.(fat := fat'), loc, s), ch', g)
  {
    hide PutSlot, IsLoc;
  }

  lemma NotInFile(v: Volume, ch: Chains, t: Tree, g: nat, c: nat)
    requires ChainsOk(v.kind, v.fat, ch) && DirBlock(ch, t, c) && g in ch && g !in t.view
    ensures c !in ch[g]
  {
    hide *;
    if c in ch[g] {
      FileIsNoDirBlock(v, ch, t, g, c);
    }
  }

  lemma LocInRange(data: Blocks, loc: Loc)
    requires IsLoc(data, loc)
    ensures loc.c < |data|
  {
  }

  lemma OthersIntro(v: Volume, ch: Chains, v': Volume, ch': Chains, t: Tree, h: nat)
    requires forall g :: g in ch && g !in t.view && g != h ==> SameFile(v, ch, v', ch', g)
    ensures OthersSame(v, ch, v', ch', t, h)
  {
  }

  lemma PutSame(v: Volume, ch: Chains, t: Tree, r: Ref, loc: Loc, s: Slot, fat': Table, ch': Chains, h: nat)
    requires ChainsOk(v.kind, v.fat, ch) && StoredAt(v.data, ch, t, r, loc)
    requires forall g :: g in ch && g != h ==> g in ch' && ch'[g] == ch[g]
    ensures OthersSame(v, ch, PutAt(v.(fat := fat'), loc, s), ch', t, h)
  {
    hide *;
    StoredAtFacts(v.data, ch, t, r, loc);
    LocInRange(v.data, loc);
    forall g | g in ch && g !in t.view && g != h
      ensures SameFile(v, ch, PutAt(v.(fat := fat'), loc, s), ch', g)
    {
      NotInFile(v, ch, t, g, loc.c);
      PutSameFile(v, ch, t, loc, s, fat', ch', g);
    }
    OthersIntro(v, ch, PutAt(v.(fat := fat'), loc, s), ch', t, h);
  }

  lemma FillSame(v: Volume, ch: Chains, t: Tree, ts: seq<nat>, bytes: seq<byte>, h: nat)
    requires ChainsOk(v.kind, v.fat, ch) && |v.fat| == |v.data| && AllFree(v.fat, ts)
    ensures OthersSame(v, ch, FillIn(v, ts, bytes), ch, t, h)
  {
    FillFrame(v.data, ts, bytes, v.csize);
    forall g | g in ch && g !in t.view && g != h
      ensures SameFile(v, ch, FillIn(v, ts, bytes), ch, g)
    {
      FreeIsUnowned(v.kind, v.fat, ch, g, ts);
    }
  }

  // ---------------------------------------------------------------- replace

  /** The record at `r` gives up its chain, if any, and becomes empty. */
  lemma TruncateStep(v: Volume, ch: Chains, t: Tree, r: Ref, loc: Loc, s: Slot) returns (ch': Chains, t': Tree)
    requires Inv(v, ch, t) && StoredAt(v.data, ch, t, r, loc) && Decode(s) == At(t, r)
    requires At(t, r).Entry? && !At(t, r).dot && !At(t, r).directory
    ensures Inv(Truncate(v, loc, s), ch', t') && StoredAt(Truncate(v, loc, s).data, ch', t', r, loc)
    ensures t'.view == SetAt(t, r, At(t, r).(head := 0, size := 0)).view
    ensures ch' == if At(t, r).head >= 2 then ch - {At(t, r).head} else ch
    ensures OthersSame(v, ch, Truncate(v, loc, s), ch', t, At(t, r).head)
  {
    hide *;
    StoredAtParts(v.data, ch, t, r, loc);
    var rec := At(t, r).(head := 0, size := 0);
    var h := At(t, r).head;
    TruncateIs(v, loc, s);
    InvParts(v, ch, t);
    EmptiedRecord(s);
    DecodeFields(s);
    Refit(v, ch, t, r, rec);
    OwnsHead(At(t, r));
    OwnsHead(rec);
    if h >= 2 {
      ReleaseFile(v, ch, t, r, loc, Emptied(s), h);
      ch', t' := ch - {h}, SetAt(t, r, rec).(own := t.own - {h});
      PutSame(v, ch, t, r, loc, Emptied(s), Release(v.kind, v.fat, h), ch', h);
    } else {
      KeepSlot(v, ch, t, r, loc, Emptied(s));
      ch', t' := ch, SetAt(t, r, rec);
      PutSame(v, ch, t, r, loc, Emptied(s), v.fat, ch, h);
    }
  }

  lemma TruncateIs(v: Volume, loc: Loc, s: Slot)
    ensures Truncate(v, loc, s) == PutAt(v.(fat := Release(v.kind, v.fat, Head(s))), loc, Emptied(s))
    ensures Head(s) < 2 ==> Truncate(v, loc, s) == PutAt(v, loc, Emptied(s)) && v.(fat := v.fat) == v
  {
  }

  lemma OwnsHead(rec: Record)
    requires rec.Entry? && !rec.dot
    ensures Owns(rec) <==> rec.head >= 2
  {
  }

  /** A slot changed to `rec`; every other slot and the set of directories stay. */
  ghost predicate OnlySlot(t: Tree, t': Tree, r: Ref, rec: Record) {
    && IsRef(t, r)
    && rec.Entry? && At(t, r).Entry?
    && rec.name == At(t, r).name && rec.dot == At(t, r).dot && rec.directory == At(t, r).directory
    && t'.view == SetAt(t, r, rec).view
  }

  lemma OnlySlotFacts(t: Tree, t': Tree, r: Ref, rec: Record)
    requires OnlySlot(t, t', r, rec)
    ensures IsRef(t', r) && At(t', r) == rec && t'.view.Keys == t.view.Keys
    ensures forall q :: IsRef(t', q) <==> IsRef(t, q)
    ensures forall q :: IsRef(t, q) && q != r ==> At(t', q) == At(t, q)
  {
  }

  lemma OnlySlotIntro(t: Tree, t': Tree, r: Ref, rec: Record)
    requires IsRef(t, r) && rec.Entry? && At(t, r).Entry?
    requires rec.name == At(t, r).name && rec.dot == At(t, r).dot && rec.directory == At(t, r).directory
    requires t'.view == SetAt(t, r, rec).view
    ensures OnlySlot(t, t', r, rec)
  {
  }

  lemma OnlySlotTwice(t: Tree, t1: Tree, t2: Tree, r: Ref, rec1: Record, rec2: Record)
    requires OnlySlot(t, t1, r, rec1) && OnlySlot(t1, t2, r, rec2)
    ensures OnlySlot(t, t2, r, rec2)
  {
    assert t.view[r.d][r.k := rec1][r.k := rec2] == t.view[r.d][r.k := rec2];
    assert t2.view == SetAt(t, r, rec2).view;
  }

  /** The file record `rec` stands for `bytes`, stored in just enough clusters. */
  ghost predicate Holds(v: Volume, ch: Chains, rec: Record, bytes: seq<byte>) {
    && rec.Entry? && rec.size == |bytes| && 0 < v.csize
    && if bytes == [] then rec.head == 0
       else
         && rec.head in ch && BlocksIn(v.data, ch[rec.head])
         && |ch[rec.head]| == Clusters(|bytes|, v.csize)
         && |bytes| <= |ChainBytes(v.data, ch[rec.head])|
         && ChainBytes(v.data, ch[rec.head])[..|bytes|] == bytes
  }

  /** The table of `v'` is that of `v` with the record's chain, free before, linked. */
  ghost predicate Relinked(v: Volume, v': Volume, ch': Chains, rec: Record, bytes: seq<byte>) {
    && rec.Entry? && v'.kind == v.kind
    && if bytes == [] then rec.head == 0 && v'.fat == v.fat
       else
         && rec.head in ch' && ch'[rec.head] != [] && ch'[rec.head][0] == rec.head
         && AllFree(v.fat, ch'[rec.head]) && Distinct(ch'[rec.head])
         && v'.fat == Link(v.kind, v.fat, ch'[rec.head])
  }

  lemma RelinkedIntro(v: Volume, v': Volume, ch': Chains, rec: Record, bytes: seq<byte>, ts: seq<nat>)
    requires rec.Entry? && v'.kind == v.kind
    requires bytes == [] ==> rec.head == 0 && v'.fat == v.fat
    requires bytes != [] ==> ts != [] && rec.head == ts[0] && rec.head in ch' && ch'[rec.head] == ts
    requires bytes != [] ==> AllFree(v.fat, ts) && Distinct(ts) && v'.fat == Link(v.kind, v.fat, ts)
    ensures Relinked(v, v', ch', rec, bytes)
  {
  }

  lemma FillKeeps(v: Volume, ts: seq<nat>, bytes: seq<byte>)
    ensures FillIn(v, ts, bytes).kind == v.kind && FillIn(v, ts, bytes).fat == v.fat
  {
  }

  lemma HoldsIntro(v: Volume, ch: Chains, rec: Record, bytes: seq<byte>)
    requires rec.Entry? && rec.size == |bytes| && 0 < v.csize && bytes != []
    requires rec.head in ch && BlocksIn(v.data, ch[rec.head])
    requires |ch[rec.head]| == Clusters(|bytes|, v.csize)
    requires |bytes| <= |ChainBytes(v.data, ch[rec.head])|
    requires ChainBytes(v.data, ch[rec.head])[..|bytes|] == bytes
    ensures Holds(v, ch, rec, bytes)
  {
  }

  lemma AdoptedData(v: Volume, ch: Chains, t: Tree, r: Ref, loc: Loc, s: Slot, ts: seq<nat>)
    requires |v.fat| == |v.data| && ChainsOk(v.kind, v.fat, ch) && StoredAt(v.data, ch, t, r, loc) && AllFree(v.fat, ts)
    ensures Adopt(v, ts, loc, s).csize == v.csize && |Adopt(v, ts, loc, s).data| == |v.data|
    ensures BlocksIn(v.data, ts)
    ensures forall c :: c in ts ==> c < |v.data| && Adopt(v, ts, loc, s).data[c] == v.data[c]
  {
    StoredAtFacts(v.data, ch, t, r, loc);
    hide ChainsOk, StoredAt, DirBlock, Link, PutSlot, Decode, Get;
    forall c | c in ts
      ensures c != loc.c
    {
      FreeIsNoDirBlock(v, ch, t, c);
    }
  }

  lemma AdoptedHolds(v: Volume, ch: Chains, t: Tree, r: Ref, loc: Loc, s: Slot, ts: seq<nat>, data0: Blocks, bytes: seq<byte>)
    requires Shape(v) && ChainsOk(v.kind, v.fat, ch) && StoredAt(v.data, ch, t, r, loc)
    requires bytes != [] && AllFree(v.fat, ts) && Distinct(ts) && |ts| == Clusters(|bytes|, v.csize)
    requires |data0| == |v.data| && v.data == Fill(data0, ts, bytes, v.csize)
    requires Decode(s).Entry? && Decode(s).size == |bytes| && ts != [] && Decode(s).head == ts[0]
    ensures Holds(Adopt(v, ts, loc, s), ch[ts[0] := ts], Decode(s), bytes)
  {
    hide *;
    CsizePositive(v);
    AdoptedData(v, ch, t, r, loc, s, ts);
    BlocksInSame(v.data, data0, ts);
    FillReadsBack(data0, ts, bytes, v.csize);
    var v' := Adopt(v, ts, loc, s);
    BlocksInSame(v.data, v'.data, ts);
    ChainBytesFrame(v.data, v'.data, ts);
    HoldsIntro(v', ch[ts[0] := ts], Decode(s), bytes);
  }

  lemma ReplaceUnfold(v: Volume, loc: Loc, s: Slot, bytes: seq<byte>)
    requires 0 < v.csize
    ensures var v1 := Truncate(v, loc, s);
      var need, free := Clusters(|bytes|, v.csize), FreeList(v1.fat);
      var ts := Prefix(free, need);
      && v1.csize == v.csize && v1.kind == v.kind
      && AllFree(v1.fat, ts) && Distinct(ts)
      && (need == 0 <==> bytes == [])
      && FillIn(v1, ts, bytes).fat == v1.fat && FillIn(v1, ts, bytes).csize == v1.csize
      && FillIn(v1, ts, bytes).data == Fill(v1.data, ts, bytes, v.csize)
      && (ts == [] || need > |free| ==> Replace(v, loc, s, bytes) == Outcome(FillIn(v1, ts, bytes), need == 0))
      && (need == 0 ==> ts == [] && FillIn(v1, ts, bytes) == v1)
      && (ts != [] && need <= |free| ==>
        && |ts| == need
        && Replace(v, loc, s, bytes) == Outcome(Adopt(FillIn(v1, ts, bytes), ts, loc, WithSize(WithHead(Emptied(s), ts[0]), |bytes|)), true))
  {
    ClustersStep(|bytes|, v.csize);
    FreeTake(Truncate(v, loc, s).fat, Clusters(|bytes|, v.csize));
  }

  lemma FreeHead(v: Volume, ts: seq<nat>)
    requires Shape(v) && AllFree(v.fat, ts) && ts != []
    ensures 2 <= ts[0] < |v.fat| < 0x1_0000_0000
  {
  }

  lemma StoredAtFilled(data: Blocks, ch: Chains, t: Tree, r: Ref, loc: Loc, data': Blocks)
    requires StoredAt(data, ch, t, r, loc) && SameSizes(data, data') && Viewed(data', ch, t)
    ensures StoredAt(data', ch, t, r, loc)
  {
    assert DirStored(data', ch, t, r.d);
    StoredAtKept(data, ch, t, r, loc, data', ch, t);
  }

  lemma HoldsNothing(v: Volume, ch: Chains, rec: Record)
    requires rec.Entry? && rec.head == 0 && rec.size == 0 && 0 < v.csize
    ensures Holds(v, ch, rec, [])
  {
  }

  lemma CsizePositive(v: Volume)
    requires Shape(v)
    ensures 0 < v.csize && |v.fat| == |v.data|
  {
  }

  /**
   Replace keeps the invariant whatever happens.  On success the record stands for the new
   bytes; when space runs out the record is left empty and no cluster stays allocated.
   */
  lemma ReplaceStep(v: Volume, ch: Chains, t: Tree, r: Ref, loc: Loc, s: Slot, bytes: seq<byte>) returns (ch': Chains, t': Tree, rec: Record)
    requires Inv(v, ch, t) && StoredAt(v.data, ch, t, r, loc) && Decode(s) == At(t, r)
    requires At(t, r).Entry? && !At(t, r).dot && !At(t, r).directory
    requires |bytes| < 0x1_0000_0000
    ensures 0 < v.csize
    ensures var out := Replace(v, loc, s, bytes);
      && Inv(out.v, ch', t') && OnlySlot(t, t', r, rec)
      && OthersSame(v, ch, out.v, ch', t, At(t, r).head)
      && (out.ok ==> Holds(out.v, ch', rec, bytes) && Relinked(Truncate(v, loc, s), out.v, ch', rec, bytes))
      && (!out.ok ==> Holds(out.v, ch', rec, []) && out.v.fat == Truncate(v, loc, s).fat)
  {
    hide *;
    InvParts(v, ch, t);
    CsizePositive(v);
    StoredAtParts(v.data, ch, t, r, loc);
    var h := At(t, r).head;
    var v1 := Truncate(v, loc, s);
    var ch1, t1 := TruncateStep(v, ch, t, r, loc, s);
    var rec1 := At(t, r).(head := 0, size := 0);
    OnlySlotIntro(t, t1, r, rec1);
    OnlySlotFacts(t, t1, r, rec1);
    InvParts(v1, ch1, t1);
    CsizePositive(v1);
    ReplaceUnfold(v, loc, s, bytes);
    var need, free := Clusters(|bytes|, v.csize), FreeList(v1.fat);
    var ts := Prefix(free, need);
    var v2 := FillIn(v1, ts, bytes);
    FillFree(v1, ch1, t1, ts, bytes);
    FillSame(v1, ch1, t1, ts, bytes, h);
    OthersSameChain(v, ch, v1, ch1, v2, ch1, t, t1, h, h);
    HoldsNothing(v2, ch1, rec1);
    FillKeeps(v1, ts, bytes);
    if ts == [] || need > |free| {
      ch', t', rec := ch1, t1, rec1;
      if need == 0 {
        RelinkedIntro(v1, v2, ch1, rec1, bytes, ts);
      }
    } else {
      var s1 := WithSize(WithHead(Emptied(s), ts[0]), |bytes|);
      rec := rec1.(head := ts[0], size := |bytes|);
      FreeHead(v1, ts);
      EmptiedRecord(s);
      FilledRecord(Emptied(s), ts[0], |bytes|);
      Le32RoundTrip(|bytes|);
      InvParts(v2, ch1, t1);
      Refit(v2, ch1, t1, r, rec);
      OwnsHead(rec1);
      OwnsHead(rec);
      StoredAtFilled(v1.data, ch1, t1, r, loc, v2.data);
      AdoptFile(v2, ch1, t1, r, loc, s1, ts);
      AdoptedHolds(v2, ch1, t1, r, loc, s1, ts, v1.data, bytes);
      ch', t' := ch1[ts[0] := ts], SetAt(t1, r, rec).(own := t1.own[ts[0] := r]);
      OnlySlotIntro(t1, t', r, rec);
      OnlySlotTwice(t, t1, t', r, rec1, rec);
      AdoptIs(v2, ts, loc, s1);
      PutSame(v2, ch1, t1, r, loc, s1, Link(v2.kind, v2.fat, ts), ch', h);
      PutAtFat(v2.(fat := Link(v2.kind, v2.fat, ts)), v2.fat, loc, s1);
      RelinkedIntro(v1, Adopt(v2, ts, loc, s1), ch', rec, bytes, ts);
      OthersSameChain(v, ch, v2, ch1, Adopt(v2, ts, loc, s1), ch', t, t1, h, h);
    }
  }
}
