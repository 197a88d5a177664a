/** Facts that tie the engine's directory and read loops to the volume operations. */
module FatBridge {
  import opened Common
  import opened Bytes
  import opened FatTable
  import opened FatChains
  import opened FatSlots
  import opened FatStore
  import opened FatTree
  import opened FatOps
  import opened FatInvariant
  import opened FatSteps
  import opened FatFiles
  import opened FatAppend
  import opened FatAppendExact
  import opened FatDirs
  import opened FatWrites
  import opened FatRemoves
  import opened FatLayout
  import opened FatWords
  import opened FatBuffer
  import opened FatFilling
  import opened FatPaths
  import opened FatTheorems

  // ---------------------------------------------------------------- lookup and creation

  lemma FindLocIsLocate(v: Volume, d: nat, name: ShortName, chain: seq<nat>)
    requires Shape(v) && DirChain(v, d) == chain
    ensures BlocksIn(v.data, chain) && FindLoc(v.data, chain, name) == Locate(v, d, name)
    ensures Locate(v, d, name).Some? <==> Find(DirOf(v, d), name).Some?
  {
    hide Shape, DirChain, Records, LocOf;
    if Find(DirOf(v, d), name).Some? {
      FindInRange(DirOf(v, d), name, 0);
    }
  }

  lemma RoomLocIs(data: Blocks, chain: seq<nat>)
    requires BlocksIn(data, chain)
    ensures var dir := Records(data, chain);
      RoomLoc(data, chain) == if Room(dir) < |dir| then Some(LocOf(data, chain, Room(dir))) else None
    ensures RoomLoc(data, chain).Some? ==> IsLoc(data, RoomLoc(data, chain).value)
  {
    hide Records, LocOf, Room;
    var dir := Records(data, chain);
    if RoomLoc(data, chain).Some? {
      LocOfFacts(data, chain, Room(dir));
    }
  }

  /** Allocating a cluster, linking it behind `last`, marking and clearing it once more. */
  lemma LinkedBehind(v: Volume, last: nat, c: nat)
    requires Shape(v) && 2 <= last < |v.fat| && 2 <= c < |v.fat| && last != c
    ensures var v1 := WithEntry(WithEntry(Allocated(v, c), last, c), c, Eoc(v.kind));
      && |v1.data[c]| == v.csize && IsLoc(GrowBy(v, last, c).data, Loc(c, 0))
      && v1.(data := v1.data[c := Overwrite(v1.data[c], 0, Zeros(v.csize))]) == GrowBy(v, last, c)
  {
    MaskedCluster(v, c);
    AttachOne(v.kind, v.fat, last, c);
    AllocatedIs(v, c);
    var fat := v.fat[c := Eoc(v.kind)][last := c][c := Eoc(v.kind)];
    assert fat == v.fat[last := c][c := Eoc(v.kind)];
    assert Overwrite(Zeros(v.csize), 0, Zeros(v.csize)) == Zeros(v.csize);
    var data := v.data[c := Zeros(v.csize)];
    assert data[c := Zeros(v.csize)] == data;
  }

  lemma AttachOne(kind: Kind, fat: Table, last: nat, c: nat)
    requires 2 <= last < |fat| && 2 <= c < |fat| && last != c
    ensures Attach(kind, fat, last, [c]) == fat[last := c][c := Eoc(kind)]
  {
    assert [c][1..] == [];
    assert fat[c := Eoc(kind)][last := c] == fat[last := c][c := Eoc(kind)];
  }

  lemma MaskedCluster(v: Volume, c: nat)
    requires Shape(v) && 2 <= c < |v.fat|
    ensures Masked(v.kind, c) == c && Masked(v.kind, Eoc(v.kind)) == Eoc(v.kind)
  {
  }

  // ---------------------------------------------------------------- an empty directory

  lemma VacantStep(dir: Dir, i: nat)
    requires i < |dir|
    ensures dir[i].End? ==> VacantFrom(dir, i)
    ensures !dir[i].End? ==> (VacantFrom(dir, i) <==> !(dir[i].Entry? && !dir[i].dot) && VacantFrom(dir, i + 1))
  {
  }

  lemma VacantEnd(dir: Dir)
    ensures VacantFrom(dir, |dir|)
  {
  }

  lemma {:induction false} VacantConcat(a: Dir, b: Dir, i: nat)
    requires i <= |a| && forall j :: 0 <= j < i ==> !a[j].End?
    ensures VacantFrom(a + b, i) <==> VacantFrom(a, i) && (HasEnd(a) || VacantFrom(b, 0))
    decreases |a| - i
  {
    if i == |a| {
      VacantShift(a, b, 0);
    } else {
      assert (a + b)[i] == a[i];
      if !a[i].End? {
        VacantConcat(a, b, i + 1);
      }
    }
  }

  lemma {:induction false} VacantShift(a: Dir, b: Dir, i: nat)
    requires i <= |b|
    ensures VacantFrom(a + b, |a| + i) <==> VacantFrom(b, i)
    decreases |b| - i
  {
    if i < |b| {
      assert (a + b)[|a| + i] == b[i];
      VacantShift(a, b, i + 1);
    }
  }

  lemma VacantCons(data: Blocks, chain: seq<nat>)
    requires BlocksIn(data, chain) && chain != []
    ensures BlocksIn(data, chain[1..]) && chain[0] < |data|
    ensures var dir := BlockRecords(data[chain[0]]);
      VacantFrom(Records(data, chain), 0) <==> VacantFrom(dir, 0) && (HasEnd(dir) || VacantFrom(Records(data, chain[1..]), 0))
  {
    hide BlockRecords;
    VacantConcat(BlockRecords(data[chain[0]]), Records(data, chain[1..]), 0);
  }

  lemma VacantNil(data: Blocks)
    ensures BlocksIn(data, []) && VacantFrom(Records(data, []), 0)
  {
  }

  lemma NoEndYet(dir: Dir, i: nat)
    requires i <= |dir|
    ensures i == |dir| && (forall j :: 0 <= j < i ==> !dir[j].End?) ==> !HasEnd(dir)
    ensures i < |dir| && dir[i].End? ==> HasEnd(dir)
  {
  }

  lemma DecodeEntry(s: Slot)
    ensures Decode(s).End? <==> s[0] == MARK_END
    ensures Decode(s).Entry? && !Decode(s).dot <==> s[0] != MARK_END && s[0] != MARK_FREE && !IsSkipped(Attr(s)) && !IsDot(Name(s))
  {
  }

  // ---------------------------------------------------------------- reading along a chain

  lemma ClipNothing(bytes: seq<byte>)
    ensures Clip(bytes, 0) == [] && Clip([], 0) == []
    ensures forall m: nat :: Clip([], m) == []
  {
  }

  /** One cluster of a bounded read. */
  lemma ClipSplit(block: seq<byte>, rest: seq<byte>, m: nat)
    ensures var n := if |block| > m then m else |block|;
      Clip(block + rest, m) == block[..n] + Clip(rest, m - n)
  {
  }

  lemma ClipTwice(bytes: seq<byte>, a: nat, b: nat)
    ensures Clip(Clip(bytes, a), b) == Clip(bytes, if a < b then a else b)
  {
    if a <= |bytes| && b <= a {
      assert bytes[..a][..b] == bytes[..b];
    }
  }

  lemma ChainBytesCons(data: Blocks, chain: seq<nat>)
    requires BlocksIn(data, chain) && chain != []
    ensures BlocksIn(data, chain[1..]) && chain[0] < |data|
    ensures ChainBytes(data, chain) == data[chain[0]] + ChainBytes(data, chain[1..])
  {
  }

  lemma ChainBytesNil(data: Blocks)
    ensures BlocksIn(data, []) && ChainBytes(data, []) == []
  {
  }

  /** A bounded read in progress: `got` so far, the clusters from index `i` on are left. */
  ghost predicate Loading(data: Blocks, chain: seq<nat>, i: nat, got: seq<byte>, max: nat, all: seq<byte>) {
    && i <= |chain| && BlocksIn(data, chain[i..]) && |got| <= max
    && got + Clip(ChainBytes(data, chain[i..]), max - |got|) == all
  }

  lemma LoadingStart(data: Blocks, chain: seq<nat>, got: seq<byte>, max: nat)
    requires BlocksIn(data, chain) && got == []
    ensures Loading(data, chain, 0, got, max, Clip(ChainBytes(data, chain), max))
  {
    DropNone(chain);
  }

  lemma LoadingStep(data: Blocks, chain: seq<nat>, i: nat, got: seq<byte>, n: nat, max: nat, all: seq<byte>)
    requires i < |chain| && Loading(data, chain, i, got, max, all) && chain[i] < |data| && n <= |data[chain[i]]|
    requires n == if |data[chain[i]]| > max - |got| then max - |got| else |data[chain[i]]|
    ensures Loading(data, chain, i + 1, got + data[chain[i]][..n], max, all)
  {
    hide *;
    LoadingParts(data, chain, i, got, max, all);
    DropOne(chain, i);
    ChainBytesCons(data, chain[i..]);
    var piece, rest := data[chain[i]][..n], ChainBytes(data, chain[i + 1..]);
    ClipSplit(data[chain[i]], rest, max - |got|);
    assert got + (piece + Clip(rest, max - |got| - n)) == got + piece + Clip(rest, max - |got| - n);
    LoadingIntro(data, chain, i + 1, got + piece, max, all);
  }

  lemma LoadingParts(data: Blocks, chain: seq<nat>, i: nat, got: seq<byte>, max: nat, all: seq<byte>)
    requires Loading(data, chain, i, got, max, all)
    ensures i <= |chain| && BlocksIn(data, chain[i..]) && |got| <= max && got + Clip(ChainBytes(data, chain[i..]), max - |got|) == all
  {
  }

  lemma LoadingIntro(data: Blocks, chain: seq<nat>, i: nat, got: seq<byte>, max: nat, all: seq<byte>)
    requires i <= |chain| && BlocksIn(data, chain[i..]) && |got| <= max && got + Clip(ChainBytes(data, chain[i..]), max - |got|) == all
    ensures Loading(data, chain, i, got, max, all)
  {
  }

  lemma LoadingEnd(data: Blocks, chain: seq<nat>, i: nat, got: seq<byte>, max: nat, all: seq<byte>)
    requires Loading(data, chain, i, got, max, all) && (i == |chain| || |got| == max)
    ensures got == all
  {
    ClipNothing(ChainBytes(data, chain[i..]));
    DropAtEnd(chain);
    hide Clip;
    ChainBytesNil(data);
    assert got + [] == got;
  }

  /** What a read returns, by the record it finds. */
  lemma ReadCases(v: Volume, d: nat, name: ShortName, max: nat)
    requires Shape(v)
    ensures var found := Locate(v, d, name);
      && (max == 0 || found.None? ==> Read(v, d, name, max) == None)
      && (max > 0 && found.Some? ==>
        Read(v, d, name, max) ==
          if IsDirectory(Attr(Get(v.data, found.value))) then None else Some(ReadRecord(v, Decode(Get(v.data, found.value)), max)))
  {
    hide Locate, Get, IsDirectory, ReadRecord, Decode, Attr;
  }

  lemma ReadBytesIs(v: Volume, s: Slot, max: nat)
    requires Shape(v) && Decode(s).Entry?
    ensures Head(s) < 2 || Size(s) == 0 || max == 0 ==> ReadRecord(v, Decode(s), max) == []
    ensures BlocksIn(v.data, ChainOf(v.kind, v.fat, Head(s)))
    ensures Head(s) >= 2 ==>
      ReadRecord(v, Decode(s), max) == Clip(ChainBytes(v.data, ChainOf(v.kind, v.fat, Head(s))), if Size(s) < max then Size(s) else max)
  {
    hide ChainBytes, ChainOf, Shape, Clip, Decode;
    DecodeFields(s);
    ChainOfBlocks(v, Head(s));
    var all := ChainBytes(v.data, ChainOf(v.kind, v.fat, Head(s)));
    ClipTwice(all, Size(s), max);
    ClipEmpty(all, max);
    ClipZero(Clip(all, Size(s)));
  }

  lemma ClipEmpty(bytes: seq<byte>, max: nat)
    ensures Clip(Clip(bytes, 0), max) == []
  {
  }

  lemma ClipZero(bytes: seq<byte>)
    ensures Clip(bytes, 0) == []
  {
  }

  // ---------------------------------------------------------------- a new directory

  lemma DotSlots(csize: nat, a: Slot, b: Slot)
    requires 64 <= csize
    ensures |Zeros(csize)| == csize && 0 < SlotCount(Zeros(csize)) && |PutSlot(Zeros(csize), 0, a)| == csize
    ensures 1 < SlotCount(PutSlot(Zeros(csize), 0, a))
    ensures PutSlot(PutSlot(Zeros(csize), 0, a), 1, b) == a + b + Zeros(csize - 64)
  {
    var z := Zeros(csize);
    var x := PutSlot(z, 0, a);
    assert x == a + z[32..];
    assert z[64..] == Zeros(csize - 64);
    assert x[..32] == a && x[64..] == z[64..];
    assert PutSlot(x, 1, b) == x[..32] + b + x[64..];
  }

  /** The volume after both dot records are stored in the cleared cluster `c`. */
  lemma DotRecords(v: Volume, c: nat, parent: nat)
    requires Shape(v) && 2 <= c < |v.fat| && v.data[c] == Zeros(v.csize)
    ensures 64 <= v.csize
    ensures var a := WithHead(Fresh(DOT, ATTR_DIRECTORY), c);
      var b := WithHead(Fresh(DOTDOT, ATTR_DIRECTORY), parent);
      var v1 := PutAt(v, Loc(c, 0), a);
      && IsLoc(v.data, Loc(c, 0)) && IsLoc(v1.data, Loc(c, 1))
      && PutAt(v1, Loc(c, 1), b) == v.(data := v.data[c := DotBlock(v.csize, c, parent)])
  {
    var a := WithHead(Fresh(DOT, ATTR_DIRECTORY), c);
    var b := WithHead(Fresh(DOTDOT, ATTR_DIRECTORY), parent);
    hide WithHead, Fresh, PutSlot, Zeros;
    DotSlots(v.csize, a, b);
    PutSlotBlock(v.data[c], 0, a);
    assert v.data[c := PutSlot(v.data[c], 0, a)][c := PutSlot(PutSlot(v.data[c], 0, a), 1, b)] == v.data[c := PutSlot(PutSlot(v.data[c], 0, a), 1, b)];
  }

  lemma FillBlock(v: Volume, c: nat, block: seq<byte>)
    requires Shape(v) && 2 <= c < |v.fat| && |block| == v.csize
    ensures FillIn(v, [c], block) == v.(data := v.data[c := block])
  {
    Single(c);
    ChunkWhole(block);
    FillCons(v.data, [c], block, v.csize);
    FillNil(v.data[c := block], Drop(block, v.csize), v.csize);
  }

  lemma ChunkWhole(block: seq<byte>)
    ensures Chunk(block, |block|) == block
  {
    assert Zeros(0) == [];
    assert block[..|block|] == block;
  }

  /** Allocating, filling and naming the cluster of a new directory. */
  lemma NewDirectory(v: Volume, loc: Loc, c: nat, s: Slot, block: seq<byte>)
    requires Shape(v) && 2 <= c < |v.fat| && |block| == v.csize && IsLoc(v.data, loc) && loc.c != c
    ensures var v1 := v.(fat := v.fat[c := Eoc(v.kind)], data := v.data[c := block]);
      IsLoc(v1.data, loc) && Get(v1.data, loc) == Get(v.data, loc) && PutAt(v1, loc, s) == Adopt(FillIn(v, [c], block), [c], loc, s)
  {
    hide Shape;
    FillBlock(v, c, block);
    assert [c][1..] == [];
    assert Link(v.kind, v.fat, [c]) == v.fat[c := Eoc(v.kind)];
  }

  lemma FreshHasNoSize(name: ShortName, attr: byte, c: nat)
    ensures WithSize(WithHead(Fresh(name, attr), c), 0) == WithHead(Fresh(name, attr), c)
  {
    var s := WithHead(Fresh(name, attr), c);
    assert s[28] == 0 && s[29] == 0 && s[30] == 0 && s[31] == 0;
    assert s[28 := 0][29 := 0][30 := 0][31 := 0] == s;
  }

  /** A cluster is allocated, marked and cleared once more. */
  lemma AllocatedAgain(v: Volume, c: nat)
    requires Shape(v) && 2 <= c < |v.fat|
    ensures var v1 := WithEntry(Allocated(v, c), c, Eoc(v.kind));
      && v1 == Allocated(v, c) && c < |v1.data| && v1.data[c] == Zeros(v.csize) && |v1.data[c]| == v.csize
      && v1.(data := v1.data[c := Overwrite(v1.data[c], 0, Zeros(v.csize))]) == Allocated(v, c)
    ensures Shape(Allocated(v, c))
    ensures Allocated(v, c) == v.(fat := v.fat[c := Eoc(v.kind)], data := v.data[c := Zeros(v.csize)])
  {
    AllocatedIs(v, c);
    MaskedCluster(v, c);
    AllocatedShape(v, c);
    assert v.fat[c := Eoc(v.kind)][c := Eoc(v.kind)] == v.fat[c := Eoc(v.kind)];
    assert Overwrite(Zeros(v.csize), 0, Zeros(v.csize)) == Zeros(v.csize);
    assert v.data[c := Zeros(v.csize)][c := Zeros(v.csize)] == v.data[c := Zeros(v.csize)];
  }

  lemma AllocatedShape(v: Volume, c: nat)
    requires Shape(v) && 2 <= c < |v.fat|
    ensures Shape(Allocated(v, c))
  {
  }

  lemma TwiceUpdated(data: Blocks, c: nat, a: seq<byte>, b: seq<byte>)
    requires c < |data|
    ensures data[c := a][c := b] == data[c := b]
  {
  }

  // ---------------------------------------------------------------- removal

  /** The chain behind a directory record the engine may follow. */
  lemma NamedWalk(v: Volume, ch: Chains, t: Tree, r: Ref, s: Slot)
    requires Inv(v, ch, t) && IsRef(t, r) && Decode(s) == At(t, r) && Decode(s).Entry? && !Decode(s).dot
    ensures Head(s) < 2 ==> ChainOf(v.kind, v.fat, Head(s)) == []
    ensures Head(s) >= 2 ==> DirWalk(v, Head(s), ChainOf(v.kind, v.fat, Head(s)))
  {
    hide *;
    InvParts(v, ch, t);
    DecodeFields(s);
    LowChain(v, Head(s));
    if Head(s) >= 2 {
      OwnsHead(At(t, r));
      OwnerHead(v, ch, t, r);
      WalkIs(v, ch, Head(s));
      ChainIsWired(v, ch, Head(s));
      ChainHead(v, ch, Head(s));
      WalkIntro(v, Head(s), ch[Head(s)]);
    }
  }

  lemma LowChain(v: Volume, h: nat)
    requires Shape(v)
    ensures h < 2 ==> ChainOf(v.kind, v.fat, h) == []
  {
  }

  lemma WalkIntro(v: Volume, d: nat, chain: seq<nat>)
    requires d >= 2 && chain != [] && chain[0] == d && IsChain(v.kind, v.fat, chain)
    ensures DirWalk(v, d, chain)
  {
  }

  // ---------------------------------------------------------------- copying out

  lemma BlockStoredAt(g: Geometry, img: Image, v: Volume, c: nat)
    requires Shows(g, img, v) && 2 <= c < |v.data|
    ensures |v.data[c]| == ClusterSize(g) && BlockAt(g, c) + |v.data[c]| <= |img| && BlockAt(g, c) < |img|
    ensures v.data[c] == img[BlockAt(g, c)..BlockAt(g, c) + |v.data[c]|]
  {
    hide *;
    ShowsParts(g, img, v);
    BlockShownAt(g, img, v.data, c);
    BlockOffsetInside(g, img, v, c);
    ClusterBlock(g, c);
  }

  lemma SliceOfBlock(img: Image, a: nat, block: seq<byte>, n: nat)
    requires a + |block| <= |img| && block == img[a..a + |block|] && n <= |block|
    ensures a + n <= |img| && img[a..a + n] == block[..n]
  {
  }

  lemma CopiedTail(before: seq<byte>, after: seq<byte>, total: nat, n: nat, max: nat)
    requires |before| == |after| && total + n <= max <= |after| && after[total + n..] == before[total + n..]
    ensures after[max..] == before[max..]
  {
    assert after[max..] == after[total + n..][max - total - n..];
    assert before[max..] == before[total + n..][max - total - n..];
  }

  lemma Gathered(after: seq<byte>, total: nat, n: nat, piece: seq<byte>, before: seq<byte>, rest: seq<byte>)
    requires |before| == |after| && total + n <= |after| && after[..total] == before[..total] && after[total..total + n] == piece
    ensures after[..total + n] + rest == before[..total] + (piece + rest)
  {
    assert after[..total + n] == after[..total] + after[total..total + n];
  }

  lemma NothingLeft(got: seq<byte>, left: nat)
    ensures got + Clip([], left) == got && got + [] == got
  {
  }

  /** The tail of a directory is not the cluster about to be allocated. */
  lemma LastTaken(v: Volume, chain: seq<nat>, c: nat)
    requires Shape(v) && chain != [] && IsChain(v.kind, v.fat, chain) && c < |v.fat| && v.fat[c] == 0
    ensures 2 <= Last(chain) < |v.fat| && Last(chain) != c
  {
    ChainIsNonzero(v.kind, v.fat, chain);
  }

  lemma NoBytes(out: seq<byte>)
    ensures out[..0] == []
  {
  }

  lemma Terminated(filled: seq<byte>, out: seq<byte>, n: nat, max: nat)
    requires n < max <= |filled| && out == filled[n := 0]
    ensures out[..n] == filled[..n] && out[max..] == filled[max..]
  {
  }

  // ---------------------------------------------------------------- witnesses for the engine

  /** The blocks of a live directory, or none for the number no directory has. */
  lemma AnyWalk(v: Volume, ch: Chains, t: Tree, d: nat) returns (chain: seq<nat>)
    requires Inv(v, ch, t) && (d in t.view || d == 1)
    ensures DirWalk(v, d, chain)
  {
    if d in t.view {
      hide *;
      LiveWalk(v, ch, t, d);
      chain := ChainAt(ch, d);
    } else {
      hide Inv;
      chain := [];
    }
  }

  /** The record a lookup finds, as the tree has it. */
  lemma FoundRef(v: Volume, ch: Chains, t: Tree, d: nat, name: ShortName) returns (r: Ref)
    requires Inv(v, ch, t) && (d in t.view || d == 1) && Nameable(name)
    requires Shape(v) && Locate(v, d, name).Some?
    ensures var loc := Locate(v, d, name).value;
      && StoredAt(v.data, ch, t, r, loc) && IsLoc(v.data, loc) && IsRef(t, r)
      && Decode(Get(v.data, loc)) == At(t, r) && At(t, r).Entry? && !At(t, r).dot
  {
    hide *;
    if d == 1 {
      NoSuchDirectory(v, name);
    }
    r := LocateStep(v, ch, t, d, name);
    var loc := Locate(v, d, name).value;
    StoredAtParts(v.data, ch, t, r, loc);
    MatchesIs(At(t, r), name);
    NotDot(v, ch, t, r, Get(v.data, loc), name);
  }

  lemma NoSuchDirectory(v: Volume, name: ShortName)
    requires Shape(v)
    ensures Locate(v, 1, name) == None
    ensures forall s :: Create(v, 1, s) == Taken(v, None)
  {
  }

  /** The record a creation adds, as the new tree has it. */
  lemma MadeRef(v: Volume, ch: Chains, t: Tree, d: nat, name: ShortName, attr: byte) returns (ch1: Chains, t1: Tree, r: Ref)
    requires Inv(v, ch, t) && (d in t.view || d == 1) && Nameable(name) && (attr == ATTR_FILE || attr == ATTR_DIRECTORY)
    requires Shape(v) && Locate(v, d, name).None?
    ensures var made := Create(v, d, Fresh(name, attr));
      made.loc.Some? ==>
        && Inv(made.v, ch1, t1) && StoredAt(made.v.data, ch1, t1, r, made.loc.value) && IsLoc(made.v.data, made.loc.value)
        && IsRef(t1, r) && At(t1, r).Entry? && !At(t1, r).dot
        && Get(made.v.data, made.loc.value) == Fresh(name, attr) && Decode(Fresh(name, attr)) == At(t1, r)
  {
    hide *;
    FreshFile(name);
    NoSuchDirectory(v, name);
    ch1, t1, r := ch, t, Ref(0, 0);
    if d != 1 {
      var r0 := LocateStep(v, ch, t, d, name);
      var s := Fresh(name, attr);
      ch1, t1, r := CreateStep(v, ch, t, d, s);
      CreatedSlot(v, d, s);
      if Create(v, d, s).loc.Some? {
        AddedIs(t, t1, r, Decode(s));
      }
    }
  }

  lemma CreatedSlot(v: Volume, d: nat, s: Slot)
    requires Shape(v)
    ensures var made := Create(v, d, s);
      made.loc.Some? ==> IsLoc(made.v.data, made.loc.value) && Get(made.v.data, made.loc.value) == s
  {
    hide TakeSlot, Shape, PutAt;
    var taken := TakeSlot(v, d);
    if taken.loc.Some? {
      PutGet(taken.v, taken.loc.value, s);
    }
  }

  lemma BytesOfIs(src: Source)
    ensures BytesOf(src) == if src.Null? then [] else src.bytes
  {
  }

  // ---------------------------------------------------------------- paths

  lemma ResolveIs(v: Volume, path: string)
    requires Shape(v)
    ensures ResolveDirectory(v, path) == WalkFrom(v, path, 0, v.rootHead)
  {
  }

  lemma StepToIs(v: Volume, path: string, i: nat, current: nat)
    requires Shape(v) && i <= |path|
    ensures var seg := NextSegment(path, i);
      seg.Segment? ==>
        && (ShortNameOf(seg.text).None? ==> StepTo(v, path, i, current) == None)
        && (ShortNameOf(seg.text).Some? ==>
          var found := Locate(v, current, ShortNameOf(seg.text).value);
          && (found.None? ==> StepTo(v, path, i, current) == None)
          && (found.Some? ==>
            var s := Get(v.data, found.value);
            StepTo(v, path, i, current) == if !IsDirectory(Attr(s)) || (Head(s) == 0 && v.kind.Fat32?) then None else Some(Head(s))))
  {
    hide NextSegment, ShortNameOf, Locate, Get, IsDirectory, Attr, Head;
  }

  lemma SegmentAdvances(path: string, i: nat)
    requires i <= |path|
    ensures NextSegment(path, i).Segment? ==> i < NextSegment(path, i).rest <= |path|
  {
    hide NextSegment;
  }

  lemma ValidOp(op: Op)
    requires op.WriteFile? ==> Sized(op.src)
    ensures Valid(op)
  {
  }
}
