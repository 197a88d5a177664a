/** Conservation of clusters: where replaced, failed and removed files' clusters go. */
module FatConserve {
  import opened Common
  import opened Bytes
  import opened FatTable
  import opened FatChains
  import opened FatSlots
  import opened FatStore
  import opened FatTree
  import opened FatOps
  import opened FatInvariant
  import opened FatSteps
  import opened FatFiles
  import opened FatAppend
  import opened FatDirs
  import opened FatWrites

  /** Linking the first `k` free clusters leaves the others free. */
  lemma LinkFreeCount(kind: Kind, fat: Table, k: nat)
    requires Bounded(kind, fat) && 0 < k <= |FreeList(fat)|
    ensures |FreeList(Link(kind, fat, FreeList(fat)[..k]))| == |FreeList(fat)| - k
  {
    var free := FreeList(fat);
    var ts := free[..k];
    FreeTake(fat, k);
    FreeListFacts(fat);
    LinkMakesChain(kind, fat, ts);
    var fat' := Link(kind, fat, ts);
    ChainIsNonzero(kind, fat', ts);
    FreeListFacts(fat');
    assert free == ts + free[k..];
    assert forall x :: x in free[k..] <==> x in free && x !in ts by { RestApart(free, k); }
    assert forall x :: x in free[k..] <==> x in FreeList(fat');
    SameElementsSameLength(free[k..], FreeList(fat'));
  }

  lemma RestApart(free: seq<nat>, k: nat)
    requires Distinct(free) && k <= |free|
    ensures Distinct(free[k..])
    ensures forall x :: x in free[k..] <==> x in free && x !in free[..k]
  {
    assert free == free[..k] + free[k..];
  }

  /** The chain of a record, empty if it owns none. */
  ghost function ChainFor(ch: Chains, rec: Record): seq<nat> {
    if rec.Entry? && rec.head in ch then ch[rec.head] else []
  }

  lemma TruncateFree(v: Volume, ch: Chains, t: Tree, r: Ref, loc: Loc, s: Slot)
    requires Inv(v, ch, t) && StoredAt(v.data, ch, t, r, loc) && Decode(s) == At(t, r)
    requires At(t, r).Entry? && !At(t, r).dot && !At(t, r).directory
    ensures |FreeList(Truncate(v, loc, s).fat)| == |FreeList(v.fat)| + |ChainFor(ch, At(t, r))|
    ensures Truncate(v, loc, s).fat == Zeroed(v.fat, ChainFor(ch, At(t, r)))
    ensures |Truncate(v, loc, s).fat| == |v.fat|
  {
    hide *;
    StoredAtParts(v.data, ch, t, r, loc);
    InvParts(v, ch, t);
    DecodeFields(s);
    OwnsHead(At(t, r));
    TruncateIs(v, loc, s);
    PutAtFat(v, Release(v.kind, v.fat, Head(s)), loc, Emptied(s));
    PutAtFat(v, v.fat, loc, Emptied(s));
    ChainForIs(v, ch, At(t, r));
    if Owns(At(t, r)) {
      var h := At(t, r).head;
      OwnerHead(v, ch, t, r);
      ReleasedTable(v, ch, h);
      ChainIsWired(v, ch, h);
      ChainNonzero(v, ch, h);
      ZeroedFreeCount(v.kind, v.fat, ch[h]);
    } else {
      ZeroedNothing(v.fat);
    }
  }

  lemma ChainForIs(v: Volume, ch: Chains, rec: Record)
    requires ChainsOk(v.kind, v.fat, ch) && rec.Entry?
    ensures rec.head < 2 ==> ChainFor(ch, rec) == []
    ensures rec.head in ch ==> ChainFor(ch, rec) == ch[rec.head]
  {
    if rec.head in ch {
      HeadsInRange(v, ch, rec.head);
    }
  }

  lemma ChainNonzero(v: Volume, ch: Chains, h: nat)
    requires Shape(v) && ChainsOk(v.kind, v.fat, ch) && h in ch
    ensures |v.fat| >= 2 && InRange(v.fat, ch[h]) && Distinct(ch[h]) && forall x :: x in ch[h] ==> x < |v.fat| && v.fat[x] != 0
  {
    ChainIsNonzero(v.kind, v.fat, ch[h]);
  }

  lemma ZeroedNothing(fat: Table)
    ensures Zeroed(fat, []) == fat
  {
  }

  /** The cluster balance of a replace. */
  lemma ReplaceBalance(v: Volume, ch: Chains, t: Tree, r: Ref, loc: Loc, s: Slot, bytes: seq<byte>)
    requires Inv(v, ch, t) && StoredAt(v.data, ch, t, r, loc) && Decode(s) == At(t, r)
    requires At(t, r).Entry? && !At(t, r).dot && !At(t, r).directory
    ensures 0 < v.csize
    ensures var out := Replace(v, loc, s, bytes);
      var freed, need := |FreeList(v.fat)| + |ChainFor(ch, At(t, r))|, Clusters(|bytes|, v.csize);
      && (out.ok <==> need <= freed)
      && (out.ok ==> |FreeList(out.v.fat)| + need == freed)
      && (!out.ok ==> out.v.fat == Zeroed(v.fat, ChainFor(ch, At(t, r))))
  {
    hide *;
    InvParts(v, ch, t);
    CsizePositive(v);
    ReplaceUnfold(v, loc, s, bytes);
    TruncateFree(v, ch, t, r, loc, s);
    BoundedShape(v);
    var v1 := Truncate(v, loc, s);
    var need, free := Clusters(|bytes|, v.csize), FreeList(v1.fat);
    var ts := Prefix(free, need);
    BoundedSame(v.kind, v.fat, v1.fat);
    PrefixCases(free, need);
    if ts != [] && need <= |free| {
      LinkFreeCount(v1.kind, v1.fat, need);
      var v2 := FillIn(v1, ts, bytes);
      var s1 := WithSize(WithHead(Emptied(s), ts[0]), |bytes|);
      AdoptIs(v2, ts, loc, s1);
      FillKind(v1, ts, bytes);
      PutAtFat(v2, Link(v2.kind, v2.fat, ts), loc, s1);
      PutAtFat(v2.(fat := Link(v2.kind, v2.fat, ts)), v2.fat, loc, s1);
    }
  }

  lemma FillKind(v: Volume, ts: seq<nat>, bytes: seq<byte>)
    ensures FillIn(v, ts, bytes).kind == v.kind && FillIn(v, ts, bytes).fat == v.fat
  {
  }

  lemma BoundedShape(v: Volume)
    requires Shape(v)
    ensures Bounded(v.kind, v.fat)
  {
  }

  lemma BoundedSame(kind: Kind, fat: Table, fat': Table)
    requires Bounded(kind, fat) && |fat'| == |fat|
    ensures Bounded(kind, fat')
  {
  }

  lemma PrefixCases(s: seq<nat>, n: nat)
    ensures n <= |s| ==> Prefix(s, n) == s[..n]
    ensures n > |s| ==> Prefix(s, n) == s
  {
  }

  /**
   Conservation: replacing a file succeeds exactly when the free clusters and its own suffice;
   it then holds what it needs and the rest is free.  When space runs out, its old clusters
   are free and every other entry of the table is as before.
   */
  lemma ReplaceConserves(v: Volume, ch: Chains, t: Tree, d: nat, name: ShortName, bytes: seq<byte>)
    requires Inv(v, ch, t) && d in t.view && Nameable(name)
    requires Lookup(t, d, name).Some? && Lookup(t, d, name).value.Entry? && !Lookup(t, d, name).value.directory
    ensures Shape(v) && 0 < v.csize
    ensures var out := Write(v, d, name, ReplaceAll, Buffer(bytes));
      var freed, need := |FreeList(v.fat)| + |ChainFor(ch, Lookup(t, d, name).value)|, Clusters(|bytes|, v.csize);
      && (out.ok <==> need <= freed)
      && (out.ok ==> |FreeList(out.v.fat)| + need == freed)
      && (!out.ok ==> out.v.fat == Zeroed(v.fat, ChainFor(ch, Lookup(t, d, name).value)))
  {
    hide *;
    InvParts(v, ch, t);
    CsizePositive(v);
    var r := LocateStep(v, ch, t, d, name);
    WriteUnfold(v, d, name, ReplaceAll, Buffer(bytes));
    var loc := Locate(v, d, name).value;
    var s := Get(v.data, loc);
    StoredAtParts(v.data, ch, t, r, loc);
    MatchesIs(At(t, r), name);
    NotDot(v, ch, t, r, s, name);
    DecodeFields(s);
    StoreUnfold(v, loc, s, ReplaceAll, Buffer(bytes));
    BufferBytes(bytes);
    ReplaceBalance(v, ch, t, r, loc, s, bytes);
  }

  lemma BufferBytes(bytes: seq<byte>)
    ensures BytesOf(Buffer(bytes)) == bytes
  {
  }

  // ---------------------------------------------------------------- create, then remove

  /** Linking free clusters and releasing them again restores the table. */
  lemma LinkThenRelease(kind: Kind, fat: Table, ts: seq<nat>)
    requires Bounded(kind, fat) && ts != [] && AllFree(fat, ts) && Distinct(ts)
    ensures Release(kind, Link(kind, fat, ts), ts[0]) == fat
  {
    LinkMakesChain(kind, fat, ts);
    ReleaseChain(kind, Link(kind, fat, ts), ts);
    var fat' := Zeroed(Link(kind, fat, ts), ts);
    forall x | 0 <= x < |fat|
      ensures fat'[x] == fat[x]
    {
    }
    assert fat' == fat;
  }

  lemma RelinkedRelease(v: Volume, v': Volume, ch': Chains, rec: Record, bytes: seq<byte>)
    requires Shape(v) && Relinked(v, v', ch', rec, bytes)
    ensures Release(v'.kind, v'.fat, rec.head) == v.fat
  {
    hide Link, Release, Shape;
    BoundedShape(v);
    if bytes == [] {
      ReleaseZero(v');
    } else {
      LinkThenRelease(v.kind, v.fat, ch'[rec.head]);
    }
  }

  lemma ReleaseZero(v: Volume)
    ensures Release(v.kind, v.fat, 0) == v.fat
  {
  }

  lemma RemoveFile(v: Volume, d: nat, name: ShortName)
    requires Shape(v) && Locate(v, d, name).Some? && !IsDirectory(Attr(Get(v.data, Locate(v, d, name).value)))
    ensures var loc := Locate(v, d, name).value;
      var s := Get(v.data, loc);
      Remove(v, d, name) == Outcome(PutAt(v.(fat := Release(v.kind, v.fat, Head(s))), loc, Erased(s)), true)
  {
  }

  lemma TruncateFresh(v: Volume, loc: Loc, s: Slot)
    requires Decode(s).Entry? && Decode(s).head == 0
    ensures Truncate(v, loc, s) == PutAt(v, loc, Emptied(s))
    ensures Truncate(v, loc, s).fat == v.fat && Truncate(v, loc, s).kind == v.kind
  {
    DecodeFields(s);
    TruncateIs(v, loc, s);
  }

  lemma RelinkedFrom(v: Volume, w: Volume, v': Volume, ch': Chains, rec: Record, bytes: seq<byte>)
    requires Relinked(w, v', ch', rec, bytes) && w.fat == v.fat && w.kind == v.kind
    ensures Relinked(v, v', ch', rec, bytes)
  {
  }

  /**
   Creating a file where the directory has room and then removing it succeeds and restores
   every entry of the allocation table.
   */
  lemma CreateThenRemove(v: Volume, ch: Chains, t: Tree, d: nat, name: ShortName, bytes: seq<byte>)
    requires Inv(v, ch, t) && d in t.view && Nameable(name) && |bytes| < 0x1_0000_0000
    requires Lookup(t, d, name).None? && Room(t.view[d]) < |t.view[d]|
    requires Shape(v) && Write(v, d, name, ReplaceAll, Buffer(bytes)).ok
    ensures var w := Write(v, d, name, ReplaceAll, Buffer(bytes)).v;
      Shape(w) && Remove(w, d, name).ok && Remove(w, d, name).v.fat == v.fat
  {
    hide *;
    InvParts(v, ch, t);
    var r0 := LocateStep(v, ch, t, d, name);
    WriteUnfold(v, d, name, ReplaceAll, Buffer(bytes));
    FreshFile(name);
    BufferBytes(bytes);
    var s := Fresh(name, ATTR_FILE);
    var was := Decode(s);
    TakeUnfold(v, ch, t, d, s);
    PutAtFat(v, v.fat, LocOf(v.data, ChainAt(ch, d), Room(t.view[d])), s);
    var made := Create(v, d, s);
    var ch1, t1, r := CreateStep(v, ch, t, d, s);
    InvParts(made.v, ch1, t1);
    CsizePositive(made.v);
    AddedIs(t, t1, r, was);
    DecodeFields(s);
    var loc := made.loc.value;
    StoreUnfold(made.v, loc, s, ReplaceAll, Buffer(bytes));
    var ch', t', rec := ReplaceStep(made.v, ch1, t1, r, loc, s, bytes);
    var out := Replace(made.v, loc, s, bytes);
    InvParts(out.v, ch', t');
    TruncateFresh(made.v, loc, s);
    RelinkedFrom(v, Truncate(made.v, loc, s), out.v, ch', rec, bytes);
    RelinkedRelease(v, out.v, ch', rec, bytes);
    OnlySlotNames(t1, t', ch1.Keys, ch'.Keys, r, rec);
    OnlySlotSame(t1, t', r, rec);
    var q := LocateStep(out.v, ch', t', d, name);
    var loc' := Locate(out.v, d, name).value;
    var s' := Get(out.v.data, loc');
    DecodeFields(s');
    RemoveFile(out.v, d, name);
    PutAtFat(out.v.(fat := v.fat), v.fat, loc', Erased(s'));
  }
}
