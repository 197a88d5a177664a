/** How a file's data is laid out cluster by cluster: the loop invariants of the write paths. */
module FatFilling {
  import opened Bytes
  import opened FatTable
  import opened FatChains
  import opened FatSlots
  import opened FatStore
  import opened FatTree
  import opened FatOps
  import opened FatInvariant
  import opened FatSteps
  import opened FatFiles
  import opened FatAppend
  import opened FatConserve
  import opened FatBuffer

  // ---------------------------------------------------------------- one cluster at a time

  lemma FillCons(data: Blocks, t: seq<nat>, bytes: seq<byte>, csize: nat)
    requires t != [] && t[0] < |data|
    ensures Fill(data, t, bytes, csize) == Fill(data[t[0] := Chunk(bytes, csize)], t[1..], Drop(bytes, csize), csize)
  {
  }

  lemma FillNil(data: Blocks, bytes: seq<byte>, csize: nat)
    ensures Fill(data, [], bytes, csize) == data
  {
  }

  lemma LinkCons(kind: Kind, fat: Table, t: seq<nat>)
    requires t != [] && t[0] < |fat|
    ensures Link(kind, fat, t) == Attach(kind, fat[t[0] := Eoc(kind)], t[0], t[1..])
  {
  }

  lemma AttachNil(kind: Kind, fat: Table, last: nat)
    ensures Attach(kind, fat, last, []) == fat
  {
  }

  /** A cluster allocated and, behind a predecessor, linked. */
  function Taken1(v: Volume, prev: nat, c: nat, block: seq<byte>): Volume {
    if c < |v.fat| && c < |v.data| && prev < |v.fat| then
      v.(fat := if prev >= 2 then v.fat[c := Eoc(v.kind)][prev := c] else v.fat[c := Eoc(v.kind)], data := v.data[c := block])
    else v
  }

  /** Clusters still free while the data goes on. */
  ghost predicate Supply(fat: Table, free: seq<nat>, j: nat) {
    j <= |free| && FreeList(fat) == free[j..]
  }

  lemma SupplyNext(kind: Kind, fat: Table, free: seq<nat>, j: nat, prev: nat)
    requires Supply(fat, free, j) && FreeList(fat) != [] && prev < |fat| && (prev >= 2 ==> fat[prev] != 0)
    ensures j < |free| && free[j] == FreeList(fat)[0] && 2 <= free[j] < |fat| && fat[free[j]] == 0
    ensures Supply(fat[free[j] := Eoc(kind)], free, j + 1)
    ensures prev >= 2 ==> Supply(fat[free[j] := Eoc(kind)][prev := free[j]], free, j + 1)
  {
    TakeFirst(fat, Eoc(kind));
    var c := free[j];
    assert free[j..][1..] == free[j + 1..];
    if prev >= 2 {
      FreeListSame(fat[c := Eoc(kind)], fat[c := Eoc(kind)][prev := c]);
    }
  }

  /** A replace in progress: `j` clusters of `t` are linked and filled, `cursor` is left. */
  ghost predicate Filling(v1: Volume, v: Volume, t: seq<nat>, j: nat, bytes: seq<byte>, cursor: seq<byte>, prev: nat) {
    && 0 < v1.csize && |v.fat| == |v1.fat| && |v.data| == |v1.data|
    && v == v1.(fat := v.fat, data := v.data)
    && t == Prefix(FreeList(v1.fat), Clusters(|bytes|, v1.csize))
    && j <= |t| && Supply(v.fat, FreeList(v1.fat), j)
    && Clusters(|cursor|, v1.csize) + j == Clusters(|bytes|, v1.csize)
    && Fill(v.data, t[j..], cursor, v1.csize) == Fill(v1.data, t, bytes, v1.csize)
    && (j == 0 ==> prev == 0 && v.fat == v1.fat)
    && (j > 0 ==> prev == t[j - 1] && 2 <= prev < |v.fat| && v.fat[prev] == Eoc(v1.kind)
                  && Attach(v1.kind, v.fat, prev, t[j..]) == Link(v1.kind, v1.fat, t))
  }

  lemma FillingStart(v1: Volume, bytes: seq<byte>)
    requires Shape(v1)
    ensures Filling(v1, v1, Prefix(FreeList(v1.fat), Clusters(|bytes|, v1.csize)), 0, bytes, bytes, 0)
  {
    var t := Prefix(FreeList(v1.fat), Clusters(|bytes|, v1.csize));
    assert t[0..] == t;
    assert FreeList(v1.fat)[0..] == FreeList(v1.fat);
  }

  lemma FillingParts(v1: Volume, v: Volume, t: seq<nat>, j: nat, bytes: seq<byte>, cursor: seq<byte>, prev: nat)
    requires Filling(v1, v, t, j, bytes, cursor, prev)
    ensures 0 < v1.csize && |v.fat| == |v1.fat| && |v.data| == |v1.data| && v == v1.(fat := v.fat, data := v.data)
    ensures j <= |t| && Supply(v.fat, FreeList(v1.fat), j)
    ensures t == Prefix(FreeList(v1.fat), Clusters(|bytes|, v1.csize))
    ensures Clusters(|cursor|, v1.csize) + j == Clusters(|bytes|, v1.csize)
    ensures Fill(v.data, t[j..], cursor, v1.csize) == Fill(v1.data, t, bytes, v1.csize)
    ensures j == 0 ==> prev == 0 && v.fat == v1.fat
    ensures j > 0 ==> prev == t[j - 1] && 2 <= prev < |v.fat| && v.fat[prev] == Eoc(v1.kind)
    ensures j > 0 ==> Attach(v1.kind, v.fat, prev, t[j..]) == Link(v1.kind, v1.fat, t)
  {
  }

  lemma FillingIntro(v1: Volume, v: Volume, t: seq<nat>, j: nat, bytes: seq<byte>, cursor: seq<byte>, prev: nat)
    requires 0 < v1.csize && |v.fat| == |v1.fat| && |v.data| == |v1.data| && v == v1.(fat := v.fat, data := v.data)
    requires t == Prefix(FreeList(v1.fat), Clusters(|bytes|, v1.csize))
    requires 0 < j <= |t| && Supply(v.fat, FreeList(v1.fat), j)
    requires Clusters(|cursor|, v1.csize) + j == Clusters(|bytes|, v1.csize)
    requires Fill(v.data, t[j..], cursor, v1.csize) == Fill(v1.data, t, bytes, v1.csize)
    requires prev == t[j - 1] && 2 <= prev < |v.fat| && v.fat[prev] == Eoc(v1.kind)
    requires Attach(v1.kind, v.fat, prev, t[j..]) == Link(v1.kind, v1.fat, t)
    ensures Filling(v1, v, t, j, bytes, cursor, prev)
  {
  }

  lemma ClustersDrop(cursor: seq<byte>, csize: nat)
    requires cursor != [] && csize > 0
    ensures Clusters(|cursor|, csize) == 1 + Clusters(|Drop(cursor, csize)|, csize)
  {
    ClustersStep(|cursor|, csize);
    ClustersStep(0, csize);
  }

  lemma SupplyTail(fat: Table, free: seq<nat>, j: nat)
    requires Supply(fat, free, j)
    ensures j <= |free| && FreeList(fat) == free[j..] && |FreeList(fat)| == |free| - j
  {
  }

  lemma Taken1Is(v: Volume, prev: nat, c: nat, block: seq<byte>)
    requires c < |v.fat| && c < |v.data| && prev < |v.fat|
    ensures Taken1(v, prev, c, block) ==
      v.(fat := if prev >= 2 then v.fat[c := Eoc(v.kind)][prev := c] else v.fat[c := Eoc(v.kind)], data := v.data[c := block])
  {
  }

  lemma PrefixAt(free: seq<nat>, n: nat, j: nat)
    requires j < n && j < |free|
    ensures j < |Prefix(free, n)| && Prefix(free, n)[j] == free[j]
  {
  }

  /** The next cluster is allocated, linked and filled. */
  lemma FillingStep(v1: Volume, v: Volume, t: seq<nat>, j: nat, bytes: seq<byte>, cursor: seq<byte>, prev: nat)
    requires Shape(v1) && Filling(v1, v, t, j, bytes, cursor, prev) && cursor != [] && FreeList(v.fat) != []
    ensures var c := FreeList(v.fat)[0];
      && 2 <= c < |v.fat| && |v.fat| == |v.data| && j < |t| && c == t[j]
      && Filling(v1, Taken1(v, prev, c, Chunk(cursor, v1.csize)), t, j + 1, bytes, Drop(cursor, v1.csize), c)
  {
    hide *;
    FillingParts(v1, v, t, j, bytes, cursor, prev);
    CsizePositive(v1);
    EocNonzero(v1.kind);
    ClustersDrop(cursor, v1.csize);
    SupplyTail(v.fat, FreeList(v1.fat), j);
    ShapeTwo(v1);
    SupplyNext(v1.kind, v.fat, FreeList(v1.fat), j, prev);
    PrefixAt(FreeList(v1.fat), Clusters(|bytes|, v1.csize), j);
    var c := t[j];
    var v' := Taken1(v, prev, c, Chunk(cursor, v1.csize));
    Taken1Is(v, prev, c, Chunk(cursor, v1.csize));
    DropOne(t, j);
    DropNone(t);
    FillCons(v.data, t[j..], cursor, v1.csize);
    if j == 0 {
      LinkCons(v1.kind, v1.fat, t);
    } else {
      AttachCons(v1.kind, v.fat, prev, t[j..]);
      assert prev != c;
    }
    FillingIntro(v1, v', t, j + 1, bytes, Drop(cursor, v1.csize), c);
  }

  lemma ShapeTwo(v: Volume)
    requires Shape(v)
    ensures |v.fat| >= 2
  {
  }

  // ---------------------------------------------------------------- slots again and again

  lemma PutGet(v: Volume, loc: Loc, s: Slot)
    requires IsLoc(v.data, loc)
    ensures IsLoc(PutAt(v, loc, s).data, loc) && Get(PutAt(v, loc, s).data, loc) == s
  {
    PutSlotAt(v.data[loc.c], loc.i, s, loc.i);
  }

  lemma PutPut(v: Volume, loc: Loc, a: Slot, b: Slot)
    requires IsLoc(v.data, loc)
    ensures PutAt(PutAt(v, loc, a), loc, b) == PutAt(v, loc, b)
  {
    PutSlotAt(v.data[loc.c], loc.i, a, loc.i);
    assert PutSlot(PutSlot(v.data[loc.c], loc.i, a), loc.i, b) == PutSlot(v.data[loc.c], loc.i, b);
    hide PutSlot;
  }

  lemma PutSelf(v: Volume, loc: Loc)
    requires IsLoc(v.data, loc)
    ensures PutAt(v, loc, Get(v.data, loc)) == v
  {
    assert PutSlot(v.data[loc.c], loc.i, Get(v.data, loc)) == v.data[loc.c];
    hide PutSlot;
  }

  lemma EmptiedTwice(s: Slot)
    ensures WithSize(WithHead(Emptied(s), 0), 0) == Emptied(s)
  {
    hide Byte0, Byte1, Byte2, Byte3;
  }

  lemma EmptiedIs(s: Slot)
    ensures Emptied(s) == WithSize(WithHead(s, 0), 0)
  {
  }

  lemma LocKept(data: Blocks, data': Blocks, loc: Loc)
    requires IsLoc(data, loc) && loc.c < |data'| && data'[loc.c] == data[loc.c]
    ensures IsLoc(data', loc) && Get(data', loc) == Get(data, loc)
  {
  }

  /** Filling free clusters does not touch a directory's slots. */
  lemma FillKeepsSlot(v: Volume, ch: Chains, t: Tree, r: Ref, loc: Loc, ts: seq<nat>, bytes: seq<byte>)
    requires Shape(v) && ChainsOk(v.kind, v.fat, ch) && StoredAt(v.data, ch, t, r, loc) && AllFree(v.fat, ts)
    ensures IsLoc(v.data, loc) && IsLoc(Fill(v.data, ts, bytes, v.csize), loc)
    ensures Get(Fill(v.data, ts, bytes, v.csize), loc) == Get(v.data, loc)
  {
    hide *;
    CsizePositive(v);
    StoredAtFacts(v.data, ch, t, r, loc);
    LocInRange(v.data, loc);
    FreeInBlocks(v, ts);
    FillFrame(v.data, ts, bytes, v.csize);
    if loc.c in ts {
      FreeMember(v.fat, ts, loc.c);
      FreeIsNoDirBlock(v, ch, t, loc.c);
    }
    LocKept(v.data, Fill(v.data, ts, bytes, v.csize), loc);
  }

  lemma FreeMember(fat: Table, ts: seq<nat>, c: nat)
    requires AllFree(fat, ts) && c in ts
    ensures 2 <= c < |fat| && fat[c] == 0
  {
  }

  lemma FreeInBlocks(v: Volume, ts: seq<nat>)
    requires |v.fat| == |v.data| && AllFree(v.fat, ts)
    ensures BlocksIn(v.data, ts)
  {
  }

  // ---------------------------------------------------------------- the end of a replace

  /** Out of space: everything taken so far is given back. */
  lemma FillingStuck(v1: Volume, v: Volume, t: seq<nat>, j: nat, bytes: seq<byte>, cursor: seq<byte>, prev: nat)
    requires Shape(v1) && Filling(v1, v, t, j, bytes, cursor, prev) && cursor != [] && FreeList(v.fat) == []
    ensures j == |t| && Clusters(|bytes|, v1.csize) > |FreeList(v1.fat)|
    ensures v.(fat := Release(v.kind, v.fat, if j > 0 then t[0] else 0)) == FillIn(v1, t, bytes)
  {
    hide *;
    FillingParts(v1, v, t, j, bytes, cursor, prev);
    ClustersDrop(cursor, v1.csize);
    SupplyTail(v.fat, FreeList(v1.fat), j);
    PrefixCases(FreeList(v1.fat), Clusters(|bytes|, v1.csize));
    DropAtEnd(t);
    FillNil(v.data, cursor, v1.csize);
    FillInIs(v1, t, bytes);
    BoundedShape(v1);
    FreeTake(v1.fat, Clusters(|bytes|, v1.csize));
    if j > 0 {
      AttachNil(v1.kind, v.fat, prev);
      LinkThenRelease(v1.kind, v1.fat, t);
    } else {
      ReleaseZero(v);
    }
  }

  /** All data placed. */
  lemma FillingDone(v1: Volume, v: Volume, t: seq<nat>, j: nat, bytes: seq<byte>, prev: nat)
    requires Shape(v1) && Filling(v1, v, t, j, bytes, [], prev) && bytes != []
    ensures j == |t| == Clusters(|bytes|, v1.csize) && t != [] && |t| <= |FreeList(v1.fat)|
    ensures v == FillIn(v1, t, bytes).(fat := Link(v1.kind, v1.fat, t))
    ensures 2 <= prev < |v.fat| && v.fat[prev] == Eoc(v.kind)
  {
    hide *;
    FillingParts(v1, v, t, j, bytes, [], prev);
    ClustersStep(0, v1.csize);
    ClustersStep(|bytes|, v1.csize);
    SupplyTail(v.fat, FreeList(v1.fat), j);
    PrefixCases(FreeList(v1.fat), Clusters(|bytes|, v1.csize));
    DropAtEnd(t);
    FillNil(v.data, [], v1.csize);
    FillInIs(v1, t, bytes);
    AttachNil(v1.kind, v.fat, prev);
  }

  lemma DropAtEnd(t: seq<nat>)
    ensures t[|t|..] == []
  {
  }

  lemma FillInIs(v: Volume, t: seq<nat>, bytes: seq<byte>)
    ensures FillIn(v, t, bytes) == v.(data := Fill(v.data, t, bytes, v.csize))
  {
  }

  lemma WriteEocAgain(v: Volume, c: nat)
    requires Shape(v) && c < |v.fat| && v.fat[c] == Eoc(v.kind)
    ensures WithEntry(v, c, Eoc(v.kind)) == v
  {
  }

  lemma WithEntryLink(v: Volume, prev: nat, c: nat)
    requires Shape(v) && prev < |v.fat| && c < |v.fat|
    ensures WithEntry(v, prev, c) == v.(fat := v.fat[prev := c])
  {
  }

  /** Storing a chunk in a cleared cluster: the data, then zeros. */
  lemma ChunkInPlace(v: Volume, c: nat, cursor: seq<byte>)
    requires c < |v.data| && |v.data[c]| == v.csize
    ensures var n := if |cursor| > v.csize then v.csize else |cursor|;
      && n <= |cursor| && n <= v.csize && |Zeros(v.csize - n)| == v.csize - n
      && |Overwrite(v.data[c], 0, cursor[..n])| == v.csize
      && Overwrite(Overwrite(v.data[c], 0, cursor[..n]), n, Zeros(v.csize - n)) == Chunk(cursor, v.csize)
      && Drop(cursor, v.csize) == cursor[n..]
  {
    var n := if |cursor| > v.csize then v.csize else |cursor|;
    assert Overwrite(v.data[c], 0, cursor[..n]) == cursor[..n] + v.data[c][n..];
    assert Overwrite(Overwrite(v.data[c], 0, cursor[..n]), n, Zeros(v.csize - n)) == cursor[..n] + Zeros(v.csize - n);
    if |cursor| >= v.csize {
      assert Zeros(0) == [];
    }
  }

  // ---------------------------------------------------------------- appending clusters

  /** An append in progress: `j` clusters of `t` hang behind `last0`, `cursor` is left. */
  ghost predicate Extending(v2: Volume, v: Volume, t: seq<nat>, j: nat, rest: seq<byte>, cursor: seq<byte>, last0: nat, last: nat) {
    && 0 < v2.csize && |v.fat| == |v2.fat| && |v.data| == |v2.data|
    && v == v2.(fat := v.fat, data := v.data)
    && t == Prefix(FreeList(v2.fat), Clusters(|rest|, v2.csize))
    && j <= |t| && Supply(v.fat, FreeList(v2.fat), j)
    && Clusters(|cursor|, v2.csize) + j == Clusters(|rest|, v2.csize)
    && Fill(v.data, t[j..], cursor, v2.csize) == Fill(v2.data, t, rest, v2.csize)
    && 2 <= last < |v.fat| && v.fat[last] != 0
    && Attach(v2.kind, v.fat, last, t[j..]) == Attach(v2.kind, v2.fat, last0, t)
  }

  lemma ExtendingStart(v2: Volume, rest: seq<byte>, last: nat)
    requires Shape(v2) && 2 <= last < |v2.fat| && v2.fat[last] != 0
    ensures Extending(v2, v2, Prefix(FreeList(v2.fat), Clusters(|rest|, v2.csize)), 0, rest, rest, last, last)
  {
    var t := Prefix(FreeList(v2.fat), Clusters(|rest|, v2.csize));
    assert t[0..] == t;
    assert FreeList(v2.fat)[0..] == FreeList(v2.fat);
  }

  lemma ExtendingParts(v2: Volume, v: Volume, t: seq<nat>, j: nat, rest: seq<byte>, cursor: seq<byte>, last0: nat, last: nat)
    requires Extending(v2, v, t, j, rest, cursor, last0, last)
    ensures 0 < v2.csize && |v.fat| == |v2.fat| && |v.data| == |v2.data| && v == v2.(fat := v.fat, data := v.data)
    ensures t == Prefix(FreeList(v2.fat), Clusters(|rest|, v2.csize))
    ensures j <= |t| && Supply(v.fat, FreeList(v2.fat), j)
    ensures Clusters(|cursor|, v2.csize) + j == Clusters(|rest|, v2.csize)
    ensures Fill(v.data, t[j..], cursor, v2.csize) == Fill(v2.data, t, rest, v2.csize)
    ensures 2 <= last < |v.fat| && v.fat[last] != 0
    ensures Attach(v2.kind, v.fat, last, t[j..]) == Attach(v2.kind, v2.fat, last0, t)
  {
  }

  lemma ExtendingIntro(v2: Volume, v: Volume, t: seq<nat>, j: nat, rest: seq<byte>, cursor: seq<byte>, last0: nat, last: nat)
    requires 0 < v2.csize && |v.fat| == |v2.fat| && |v.data| == |v2.data| && v == v2.(fat := v.fat, data := v.data)
    requires t == Prefix(FreeList(v2.fat), Clusters(|rest|, v2.csize))
    requires j <= |t| && Supply(v.fat, FreeList(v2.fat), j)
    requires Clusters(|cursor|, v2.csize) + j == Clusters(|rest|, v2.csize)
    requires Fill(v.data, t[j..], cursor, v2.csize) == Fill(v2.data, t, rest, v2.csize)
    requires 2 <= last < |v.fat| && v.fat[last] != 0
    requires Attach(v2.kind, v.fat, last, t[j..]) == Attach(v2.kind, v2.fat, last0, t)
    ensures Extending(v2, v, t, j, rest, cursor, last0, last)
  {
  }

  /** The next cluster is allocated, linked behind the tail and filled. */
  lemma ExtendingStep(v2: Volume, v: Volume, t: seq<nat>, j: nat, rest: seq<byte>, cursor: seq<byte>, last0: nat, last: nat)
    requires Shape(v2) && Extending(v2, v, t, j, rest, cursor, last0, last) && cursor != [] && FreeList(v.fat) != []
    ensures var c := FreeList(v.fat)[0];
      var v' := Taken1(v, last, c, Chunk(cursor, v2.csize));
      && 2 <= c < |v.fat| && |v.fat| == |v.data| && j < |t| && c == t[j]
      && Extending(v2, v', t, j + 1, rest, Drop(cursor, v2.csize), last0, c)
      && c < |v'.fat| && v'.fat[c] == Eoc(v2.kind)
  {
    hide *;
    ExtendingParts(v2, v, t, j, rest, cursor, last0, last);
    CsizePositive(v2);
    EocNonzero(v2.kind);
    ClustersDrop(cursor, v2.csize);
    SupplyTail(v.fat, FreeList(v2.fat), j);
    SupplyNext(v2.kind, v.fat, FreeList(v2.fat), j, last);
    PrefixAt(FreeList(v2.fat), Clusters(|rest|, v2.csize), j);
    var c := t[j];
    var v' := Taken1(v, last, c, Chunk(cursor, v2.csize));
    Taken1Is(v, last, c, Chunk(cursor, v2.csize));
    DropOne(t, j);
    FillCons(v.data, t[j..], cursor, v2.csize);
    AttachCons(v2.kind, v.fat, last, t[j..]);
    assert last != c;
    ExtendingIntro(v2, v', t, j + 1, rest, Drop(cursor, v2.csize), last0, c);
  }

  lemma ExtendingStuck(v2: Volume, v: Volume, t: seq<nat>, j: nat, rest: seq<byte>, cursor: seq<byte>, last0: nat, last: nat)
    requires Extending(v2, v, t, j, rest, cursor, last0, last) && cursor != [] && FreeList(v.fat) == []
    ensures Clusters(|rest|, v2.csize) > |FreeList(v2.fat)|
    ensures v == AttachTo(FillIn(v2, t, rest), last0, t)
  {
    hide *;
    ExtendingParts(v2, v, t, j, rest, cursor, last0, last);
    ClustersDrop(cursor, v2.csize);
    SupplyTail(v.fat, FreeList(v2.fat), j);
    PrefixCases(FreeList(v2.fat), Clusters(|rest|, v2.csize));
    DropAtEnd(t);
    FillNil(v.data, cursor, v2.csize);
    FillInIs(v2, t, rest);
    AttachNil(v2.kind, v.fat, last);
    AttachToIs(FillIn(v2, t, rest), last0, t);
  }

  lemma ExtendingDone(v2: Volume, v: Volume, t: seq<nat>, j: nat, rest: seq<byte>, last0: nat, last: nat)
    requires Extending(v2, v, t, j, rest, [], last0, last)
    ensures Clusters(|rest|, v2.csize) <= |FreeList(v2.fat)|
    ensures v == AttachTo(FillIn(v2, t, rest), last0, t)
  {
    hide *;
    ExtendingParts(v2, v, t, j, rest, [], last0, last);
    ClustersStep(0, v2.csize);
    SupplyTail(v.fat, FreeList(v2.fat), j);
    PrefixCases(FreeList(v2.fat), Clusters(|rest|, v2.csize));
    DropAtEnd(t);
    FillNil(v.data, [], v2.csize);
    FillInIs(v2, t, rest);
    AttachNil(v2.kind, v.fat, last);
    AttachToIs(FillIn(v2, t, rest), last0, t);
  }

  /** A slot outside the written clusters stays as it is. */
  lemma GrownKeepsSlot(v: Volume, loc: Loc, last: nat, offset: nat, bytes: seq<byte>, ts: seq<nat>, rest: seq<byte>)
    requires Shape(v) && IsLoc(v.data, loc) && loc.c != last && last < |v.data| && AllFree(v.fat, ts)
    requires loc.c < 2 || v.fat[loc.c] != 0
    ensures var v2 := PatchBlock(v, last, offset, bytes);
      && IsLoc(v2.data, loc) && Get(v2.data, loc) == Get(v.data, loc)
      && IsLoc(AttachTo(FillIn(v2, ts, rest), last, ts).data, loc)
      && Get(AttachTo(FillIn(v2, ts, rest), last, ts).data, loc) == Get(v.data, loc)
  {
    hide *;
    CsizePositive(v);
    LocInRange(v.data, loc);
    PatchIs(v, last, offset, bytes);
    var v2 := PatchBlock(v, last, offset, bytes);
    LocKept(v.data, v2.data, loc);
    FreeInBlocks(v2, ts);
    FillFrame(v2.data, ts, rest, v2.csize);
    FillInIs(v2, ts, rest);
    if loc.c in ts {
      FreeMember(v.fat, ts, loc.c);
    }
    FillAttach(v2, last, ts, rest);
    AttachToIs(FillIn(v2, ts, rest), last, ts);
    LocKept(v2.data, FillIn(v2, ts, rest).data, loc);
  }

  /** The first cluster of an empty file. */
  lemma FirstCluster(v: Volume, loc: Loc, s: Slot, c: nat)
    requires Shape(v) && IsLoc(v.data, loc) && 2 <= c < |v.fat| && loc.c != c
    ensures PutAt(Allocated(v, c), loc, s) == Adopt(FillIn(v, [c], []), [c], loc, s)
    ensures IsLoc(Allocated(v, c).data, loc) && Get(Allocated(v, c).data, loc) == Get(v.data, loc)
  {
    assert Chunk([], v.csize) == Zeros(v.csize);
    assert [c][1..] == [];
    assert Fill(v.data, [c], [], v.csize) == v.data[c := Zeros(v.csize)];
    assert Link(v.kind, v.fat, [c]) == v.fat[c := Eoc(v.kind)];
  }

  lemma AdoptedEntry(v: Volume, c: nat, loc: Loc, s: Slot)
    requires Shape(v) && 2 <= c < |v.fat|
    ensures Adopt(FillIn(v, [c], []), [c], loc, s).fat == v.fat[c := Eoc(v.kind)]
    ensures Adopt(FillIn(v, [c], []), [c], loc, s).kind == v.kind
  {
    assert [c][1..] == [];
  }

  /** Directory blocks are never free, and never part of a file. */
  lemma SlotBlockTaken(v: Volume, ch: Chains, t: Tree, r: Ref, loc: Loc)
    requires Inv(v, ch, t) && StoredAt(v.data, ch, t, r, loc)
    ensures IsLoc(v.data, loc) && loc.c < |v.data| == |v.fat|
    ensures loc.c < 2 || v.fat[loc.c] != 0
    ensures forall h :: h in ch && h !in t.view ==> loc.c !in ch[h]
  {
    hide *;
    InvParts(v, ch, t);
    CsizePositive(v);
    StoredAtFacts(v.data, ch, t, r, loc);
    LocInRange(v.data, loc);
    if loc.c >= 2 && v.fat[loc.c] == 0 {
      FreeIsNoDirBlock(v, ch, t, loc.c);
    }
    forall h | h in ch && h !in t.view
      ensures loc.c !in ch[h]
    {
      NotInFile(v, ch, t, h, loc.c);
    }
  }

  lemma TailNonzero(v: Volume, ch: Chains, h: nat)
    requires Shape(v) && ChainsOk(v.kind, v.fat, ch) && h in ch
    ensures ch[h] != [] && 2 <= Last(ch[h]) < |v.fat| && v.fat[Last(ch[h])] != 0 && Last(ch[h]) in ch[h] && |v.data[Last(ch[h])]| == v.csize
  {
    ChainFacts(v, ch, h);
    ChainIsNonzero(v.kind, v.fat, ch[h]);
  }

  lemma OneChain(v: Volume, c: nat)
    requires Shape(v) && 2 <= c < |v.fat| && v.fat[c] == Eoc(v.kind)
    ensures IsChain(v.kind, v.fat, [c])
  {
  }

  lemma ClusterFull(v: Volume, c: nat)
    requires Shape(v) && 2 <= c < |v.fat|
    ensures |v.data[c]| == v.csize && 0 < v.csize
  {
  }

  lemma ChainHead(v: Volume, ch: Chains, h: nat)
    requires ChainsOk(v.kind, v.fat, ch) && h in ch
    ensures ch[h] != [] && ch[h][0] == h
  {
  }
}
