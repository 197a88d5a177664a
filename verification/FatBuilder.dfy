/** Laying out files one after the other, and why the result is a consistent volume. */
module FatBuilder {
  import opened Common
  import opened Arith
  import opened Bytes
  import opened FatTable
  import opened FatSlots
  import opened FatStore
  import opened FatOps
  import opened FatFiles
  import opened FatDirs
  import opened FatWrites
  import opened FatBuffer
  import opened FatFilling
  import opened FatBridge
  import opened FatImage

  /** The record of a file as the builder writes it. */
  function FileSlot(name: ShortName, head: nat, size: nat): Slot {
    WithSize(WithHead(Fresh(name, ATTR_FILE), head), size)
  }

  /** The volume with a file laid out in the clusters from `n` on and recorded in root slot `k`. */
  function LaidOut(v: Volume, n: nat, k: nat, name: ShortName, bytes: seq<byte>): Volume
    requires 0 < v.csize
  {
    var need := Clusters(|bytes|, v.csize);
    PutAt(v.(fat := Link(v.kind, v.fat, Run(n, need)), data := Fill(v.data, Run(n, need), bytes, v.csize)),
      Loc(0, k), FileSlot(name, if need == 0 then 0 else n, |bytes|))
  }

  // ---------------------------------------------------------------- what the engine would write

  lemma RootChain(v: Volume)
    requires Shape(v) && v.kind.Fat16?
    ensures DirChain(v, 0) == [0] && |v.data| > 0
  {
  }

  lemma RootLoc(data: Blocks, k: nat)
    requires |data| > 0 && k < SlotCount(data[0])
    ensures BlocksIn(data, [0]) && LocOf(data, [0], k) == Loc(0, k) && IsLoc(data, Loc(0, k))
  {
  }

  lemma BuiltRoot(v: Volume, n: nat, names: seq<ShortName>)
    requires Built(v, n, names)
    ensures |v.data| == |v.fat| == 124 && v.kind.Fat16? && v.csize == 512 && |names| <= 64 && 2 <= n <= 124
    ensures RootHolds(BlockRecords(v.data[0]), names) && |BlockRecords(v.data[0])| == 64 == SlotCount(v.data[0])
    ensures FreeList(v.fat) == Run(n, 124 - n)
  {
    FreeRun(v.fat, n);
  }

  /** A new name goes to the first unused root slot. */
  lemma CreateInRoot(v: Volume, n: nat, names: seq<ShortName>, name: ShortName, s: Slot)
    requires Shape(v) && Built(v, n, names) && |names| < 64 && name !in names
    ensures Locate(v, 0, name) == None && |v.data| > 0
    ensures IsLoc(v.data, Loc(0, |names|)) && Create(v, 0, s) == Taken(PutAt(v, Loc(0, |names|), s), Some(Loc(0, |names|)))
  {
    hide *;
    BuiltRoot(v, n, names);
    RootChain(v);
    RootRecords(v.data);
    RootLoc(v.data, |names|);
    var dir := BlockRecords(v.data[0]);
    RoomAtEnd(dir, names, 0);
    NotListed(dir, names, name, 0);
    FindRoomAre(dir, name);
    LocateNone(v, name, dir);
    CreateUnfold(v, 0, s, [0]);
  }

  lemma FindRoomAre(dir: Dir, name: ShortName)
    ensures Find(dir, name) == FindFrom(dir, name, 0) && Room(dir) == RoomFrom(dir, 0)
  {
  }

  lemma LocateNone(v: Volume, name: ShortName, dir: Dir)
    requires Shape(v) && DirChain(v, 0) == [0] && BlocksIn(v.data, [0]) && Records(v.data, [0]) == dir && Find(dir, name) == None
    ensures Locate(v, 0, name) == None
  {
  }

  lemma FreshIsEmptied(name: ShortName)
    ensures Emptied(Fresh(name, ATTR_FILE)) == Fresh(name, ATTR_FILE) && FileSlot(name, 0, 0) == Fresh(name, ATTR_FILE)
    ensures !IsDirectory(Attr(Fresh(name, ATTR_FILE))) && Head(Fresh(name, ATTR_FILE)) == 0
  {
    FreshBytes(name, ATTR_FILE);
    var s := Fresh(name, ATTR_FILE);
    assert s[20 := 0][21 := 0][26 := 0][27 := 0] == s;
    assert s[28 := 0][29 := 0][30 := 0][31 := 0] == s;
  }

  lemma TruncateFresh(v: Volume, loc: Loc, name: ShortName)
    requires IsLoc(v.data, loc)
    ensures var v1 := PutAt(v, loc, Fresh(name, ATTR_FILE)); Truncate(v1, loc, Fresh(name, ATTR_FILE)) == v1
  {
    hide *;
    var s := Fresh(name, ATTR_FILE);
    FreshIsEmptied(name);
    PutPut(v, loc, s, s);
    ReleaseStep(v.kind, v.fat, 0);
    TruncateIs(PutAt(v, loc, s), loc, s);
    PutAtFatIs(v, loc, s);
  }

  lemma TruncateIs(v: Volume, loc: Loc, s: Slot)
    ensures Truncate(v, loc, s) == PutAt(v.(fat := Release(v.kind, v.fat, Head(s))), loc, Emptied(s))
  {
  }

  lemma PutAtFatIs(v: Volume, loc: Loc, s: Slot)
    ensures PutAt(v, loc, s).fat == v.fat && PutAt(v, loc, s).kind == v.kind && PutAt(v, loc, s).csize == v.csize
    ensures |PutAt(v, loc, s).data| == |v.data| && v.(fat := v.fat) == v && PutAt(v, loc, s).(fat := v.fat) == PutAt(v, loc, s)
  {
  }

  lemma {:induction false} FillOther(data: Blocks, t: seq<nat>, bytes: seq<byte>, csize: nat, c: nat, block: seq<byte>)
    requires c < |data| && c !in t
    ensures |Fill(data, t, bytes, csize)| == |data|
    ensures Fill(data[c := block], t, bytes, csize) == Fill(data, t, bytes, csize)[c := block]
    ensures Fill(data, t, bytes, csize)[c] == data[c]
    decreases |t|
  {
    if t != [] && t[0] < |data| {
      assert data[c := block][t[0] := Chunk(bytes, csize)] == data[t[0] := Chunk(bytes, csize)][c := block];
      hide Chunk, Drop;
      FillOther(data[t[0] := Chunk(bytes, csize)], t[1..], Drop(bytes, csize), csize, c, block);
    }
  }

  lemma RunAbove(n: nat, k: nat)
    requires n >= 2
    ensures 0 !in Run(n, k) && |Run(n, k)| == k && (k > 0 ==> Run(n, k)[0] == n && Run(n, k) != [])
  {
  }

  /** Storing the record before or after filling the clusters is the same. */
  lemma RecordThenFill(v: Volume, loc: Loc, s: Slot, s': Slot, t: seq<nat>, bytes: seq<byte>)
    requires IsLoc(v.data, loc) && loc.c !in t
    ensures Adopt(FillIn(PutAt(v, loc, s), t, bytes), t, loc, s') ==
      PutAt(v.(fat := Link(v.kind, v.fat, t), data := Fill(v.data, t, bytes, v.csize)), loc, s')
  {
    var w := v.(fat := Link(v.kind, v.fat, t), data := Fill(v.data, t, bytes, v.csize));
    hide Link, Fill;
    PutSlotBlock(v.data[loc.c], loc.i, s);
    FillOther(v.data, t, bytes, v.csize, loc.c, PutSlot(v.data[loc.c], loc.i, s));
    hide PutSlot;
    assert PutAt(v, loc, s).data == v.data[loc.c := PutSlot(v.data[loc.c], loc.i, s)];
    assert IsLoc(w.data, loc);
    PutPut(w, loc, s, s');
    assert FillIn(PutAt(v, loc, s), t, bytes).(fat := w.fat) == PutAt(w, loc, s);
  }

  /** For a new name and enough room, the engine's write lays the file out in the next clusters. */
  lemma WriteLaysOut(v: Volume, n: nat, names: seq<ShortName>, name: ShortName, bytes: seq<byte>)
    requires Shape(v) && Built(v, n, names) && |names| < 64 && name !in names && Clusters(|bytes|, 512) <= 124 - n
    ensures v.csize == 512 && Write(v, 0, name, ReplaceAll, Buffer(bytes)) == Outcome(LaidOut(v, n, |names|, name, bytes), true)
  {
    hide *;
    BuiltRoot(v, n, names);
    var s, loc, need := Fresh(name, ATTR_FILE), Loc(0, |names|), Clusters(|bytes|, 512);
    CreateInRoot(v, n, names, name, s);
    WriteUnfold(v, 0, name, ReplaceAll, Buffer(bytes));
    FreshIsEmptied(name);
    var made := PutAt(v, loc, s);
    PutAtFatIs(v, loc, s);
    StoreUnfold(made, loc, s, ReplaceAll, Buffer(bytes));
    BytesOfIs(Buffer(bytes));
    ReplaceUnfold(made, loc, s, bytes);
    TruncateFresh(v, loc, name);
    RunPrefix(n, need, 124 - n);
    RunAbove(n, need);
    RunAbove(n, 124 - n);
    RecordThenFill(v, loc, s, FileSlot(name, n, |bytes|), Run(n, need), bytes);
    FileSlotIs(name, n, |bytes|);
    LaidOutIs(v, n, |names|, name, bytes);
    RunNone(n);
    LinkNil(v.kind, v.fat);
    FillNil(v.data, bytes, 512);
    SameVolume(v);
  }

  lemma SameVolume(v: Volume)
    ensures v.(fat := v.fat, data := v.data) == v
  {
  }

  lemma LinkNil(kind: Kind, fat: Table)
    ensures Link(kind, fat, []) == fat
  {
  }

  lemma FileSlotIs(name: ShortName, head: nat, size: nat)
    ensures FileSlot(name, head, size) == WithSize(WithHead(Fresh(name, ATTR_FILE), head), size)
  {
  }

  lemma LaidOutIs(v: Volume, n: nat, k: nat, name: ShortName, bytes: seq<byte>)
    requires 0 < v.csize
    ensures var need := Clusters(|bytes|, v.csize);
      LaidOut(v, n, k, name, bytes) ==
        PutAt(v.(fat := Link(v.kind, v.fat, Run(n, need)), data := Fill(v.data, Run(n, need), bytes, v.csize)),
          Loc(0, k), FileSlot(name, if need == 0 then 0 else n, |bytes|))
  {
  }

  // ---------------------------------------------------------------- laying out cluster after cluster

  lemma {:induction false} AttachRun(kind: Kind, fat: Table, last: nat, n: nat, k: nat)
    requires last < n && n + k <= |fat|
    ensures var r := Attach(kind, fat, last, Run(n, k));
      && |r| == |fat|
      && forall j :: 0 <= j < |fat| ==>
        r[j] == if k > 0 && j == last then n else if n <= j < n + k then (if j == n + k - 1 then Eoc(kind) else j + 1) else fat[j]
    decreases k
  {
    hide Run;
    if k > 0 {
      RunCons(n, k);
      AttachRun(kind, fat[n := Eoc(kind)][last := n], n, n + 1, k - 1);
    } else {
      RunNone(n);
    }
  }

  /** The entry the builder gives cluster `c` of a file in the clusters `n .. n + need`. */
  function NextMark(n: nat, need: nat, c: nat): nat {
    if c + 1 == n + need then LAST_MARK else c + 1
  }

  /** The builder's chain is the engine's, except for the end-of-chain mark. */
  lemma LinkRun(fat: Table, fat': Table, n: nat, need: nat)
    requires 2 <= n && need > 0 && n + need <= |fat| == |fat'|
    requires forall c :: 0 <= c < |fat| ==> fat'[c] == if n <= c < n + need then NextMark(n, need, c) else fat[c]
    ensures n + need - 1 < |Link(Fat16, fat, Run(n, need))|
    ensures fat' == Link(Fat16, fat, Run(n, need))[n + need - 1 := LAST_MARK] && Link(Fat16, fat, Run(n, need))[n + need - 1] == Eoc(Fat16)
  {
    hide Run;
    RunCons(n, need);
    LinkCons(Fat16, fat, Run(n, need));
    AttachRun(Fat16, fat[n := Eoc(Fat16)], n, n + 1, need - 1);
  }

  /** `i` of the `need` clusters of a file are written and `cursor` is left. */
  ghost predicate Laid(v0: Volume, v: Volume, n: nat, need: nat, i: nat, bytes: seq<byte>, cursor: seq<byte>) {
    && 2 <= n && i <= need && n + need <= |v0.fat| == |v.fat| == |v0.data| == |v.data| && v0.csize == 512
    && v == v0.(fat := v.fat, data := v.data)
    && (forall c :: 0 <= c < |v.fat| ==> v.fat[c] == if n <= c < n + i then NextMark(n, need, c) else v0.fat[c])
    && Clusters(|cursor|, 512) == need - i
    && Fill(v.data, Run(n + i, need - i), cursor, 512) == Fill(v0.data, Run(n, need), bytes, 512)
  }

  lemma LaidStart(v: Volume, n: nat, bytes: seq<byte>)
    requires v.csize == 512 && |v.fat| == |v.data| && 2 <= n && n + Clusters(|bytes|, 512) <= |v.fat|
    ensures Laid(v, v, n, Clusters(|bytes|, 512), 0, bytes, bytes)
  {
  }

  lemma LaidParts(v0: Volume, v: Volume, n: nat, need: nat, i: nat, bytes: seq<byte>, cursor: seq<byte>)
    requires Laid(v0, v, n, need, i, bytes, cursor)
    ensures i <= need && n + need <= |v.fat| == |v.data| && v.csize == 512 && Clusters(|cursor|, 512) == need - i
    ensures v.kind == v0.kind
  {
  }

  lemma LaidStep(v0: Volume, v: Volume, v': Volume, n: nat, need: nat, i: nat, bytes: seq<byte>, cursor: seq<byte>)
    requires Laid(v0, v, n, need, i, bytes, cursor) && i < need
    requires v' == v.(fat := v'.fat, data := v'.data)
    requires n + i < |v.fat| == |v.data| && v'.fat == v.fat[n + i := NextMark(n, need, n + i)]
    requires v'.data == v.data[n + i := Chunk(cursor, 512)]
    ensures Laid(v0, v', n, need, i + 1, bytes, Drop(cursor, 512))
    ensures cursor != [] && (Drop(cursor, 512) == [] <==> n + i + 1 == n + need)
  {
    hide Run, Chunk, Drop, Clusters, Fill;
    ClustersNone(cursor);
    ClustersDrop(cursor, 512);
    ClustersNone(Drop(cursor, 512));
    RunCons(n + i, need - i);
    FillCons(v.data, Run(n + i, need - i), cursor, 512);
  }

  lemma ClustersNone(cursor: seq<byte>)
    ensures Clusters(|cursor|, 512) == 0 <==> cursor == []
  {
    ClustersStep(|cursor|, 512);
  }

  lemma LaidDone(v0: Volume, v: Volume, n: nat, need: nat, bytes: seq<byte>, cursor: seq<byte>)
    requires Laid(v0, v, n, need, need, bytes, cursor) && v0.kind.Fat16? && need > 0
    ensures n + need - 1 < |Link(Fat16, v0.fat, Run(n, need))|
    ensures v == v0.(fat := Link(Fat16, v0.fat, Run(n, need))[n + need - 1 := LAST_MARK], data := Fill(v0.data, Run(n, need), bytes, 512))
    ensures Link(Fat16, v0.fat, Run(n, need))[n + need - 1] == Eoc(Fat16)
  {
    LinkRun(v0.fat, v.fat, n, need);
    hide Run, Link, Fill;
    RunNone(n + need);
    FillNil(v.data, cursor, 512);
  }

  /** The table of a laid-out file: the clusters before its end are taken, the others still free. */
  lemma LaidTable(v: Volume, n: nat, need: nat, fat': Table)
    requires |v.fat| == 124 && 2 <= n && need > 0 && n + need <= 124
    requires forall c :: 2 <= c < 124 ==> (v.fat[c] == 0 <==> c >= n)
    requires n + need - 1 < |Link(Fat16, v.fat, Run(n, need))| && fat' == Link(Fat16, v.fat, Run(n, need))[n + need - 1 := LAST_MARK]
    ensures |fat'| == 124 && forall c :: 2 <= c < 124 ==> (fat'[c] == 0 <==> c >= n + need)
  {
    hide Run;
    RunCons(n, need);
    LinkCons(Fat16, v.fat, Run(n, need));
    AttachRun(Fat16, v.fat[n := Eoc(Fat16)], n, n + 1, need - 1);
  }

  lemma FileSlotRecord(name: ShortName, head: nat, size: nat)
    requires Nameable(name)
    ensures Decode(FileSlot(name, head, size)).Entry? && Decode(FileSlot(name, head, size)).name == name
  {
    var s := FileSlot(name, head, size);
    FreshBytes(name, ATTR_FILE);
    hide Byte0, Byte1, Byte2, Byte3, Head, Size, Fresh;
    assert s[11] == ATTR_FILE;
    assert Name(s) == name;
    assert s[0] == name[0];
  }

  lemma RootGrows(block: seq<byte>, names: seq<ShortName>, name: ShortName, s: Slot)
    requires RootHolds(BlockRecords(block), names) && |names| < 64 && |names| < SlotCount(block)
    requires Decode(s).Entry? && Decode(s).name == name
    ensures RootHolds(BlockRecords(PutSlot(block, |names|, s)), names + [name])
  {
    hide BlockRecords, PutSlot, Decode;
    PutSlotBlock(block, |names|, s);
  }

  lemma RootUntouched(v: Volume, n: nat, need: nat, bytes: seq<byte>)
    requires 2 <= n && |v.data| == 124
    ensures |Fill(v.data, Run(n, need), bytes, 512)| == 124 && Fill(v.data, Run(n, need), bytes, 512)[0] == v.data[0]
  {
    hide Fill, Run;
    RunAbove(n, need);
    FillOther(v.data, Run(n, need), bytes, 512, 0, v.data[0]);
  }

  /** One more file is laid out. */
  lemma BuiltStep(v: Volume, n: nat, names: seq<ShortName>, name: ShortName, need: nat, w: Volume, head: nat, size: nat)
    requires Built(v, n, names) && |names| < 64 && Nameable(name) && n + need <= 124
    requires w == v.(fat := w.fat, data := w.data) && |w.fat| == |w.data| == 124 && w.data[0] == v.data[0]
    requires forall c :: 2 <= c < 124 ==> (w.fat[c] == 0 <==> c >= n + need)
    ensures IsLoc(w.data, Loc(0, |names|))
    ensures Built(PutAt(w, Loc(0, |names|), FileSlot(name, head, size)), n + need, names + [name])
  {
    var s := FileSlot(name, head, size);
    BuiltRoot(v, n, names);
    FileSlotRecord(name, head, size);
    RootGrows(w.data[0], names, name, s);
    hide PutSlot, BlockRecords, FileSlot, RootHolds;
    assert SlotCount(w.data[0]) == 64;
  }

  // ---------------------------------------------------------------- any file, as the builder records it

  /** The clusters the builder counts for a size, in 32-bit arithmetic: near the limit, none. */
  function Counted(size: nat): nat {
    Quot(Wrap32(size + 511), 512)
  }

  lemma CountedIs(size: nat)
    requires size < 0x1_0000_0000
    ensures Counted(size) == Wrap32(size + 511) / 512
    ensures size + 511 < 0x1_0000_0000 ==> Counted(size) == Clusters(size, 512)
    ensures size + 511 >= 0x1_0000_0000 ==> Counted(size) == 0
  {
    hide *;
    CountedUnfold(size);
    WrapCases(size + 511);
    ClustersIsCeiling(size, 512);
    QuotRemAre(Wrap32(size + 511), 512);
    QuotSmall(size);
  }

  lemma CountedUnfold(size: nat)
    ensures Counted(size) == Quot(Wrap32(size + 511), 512)
  {
  }

  lemma QuotSmall(size: nat)
    requires size < 0x1_0000_0000
    ensures size + 511 >= 0x1_0000_0000 ==> Quot(size + 511 - 0x1_0000_0000, 512) == 0
  {
  }

  /** The volume with a file recorded in root slot `k` and its data, as counted, from cluster `n` on. */
  function Recorded(v: Volume, n: nat, k: nat, name: ShortName, bytes: seq<byte>): Volume
    requires 0 < v.csize
  {
    if Counted(|bytes|) == 0 then PutAt(v, Loc(0, k), FileSlot(name, 0, |bytes|))
    else Remarked(LaidOut(v, n, k, name, bytes), n + Counted(|bytes|) - 1)
  }

  lemma RecordedIs(v: Volume, n: nat, k: nat, name: ShortName, bytes: seq<byte>)
    requires 0 < v.csize
    ensures Counted(|bytes|) == 0 ==> Recorded(v, n, k, name, bytes) == PutAt(v, Loc(0, k), FileSlot(name, 0, |bytes|))
    ensures Counted(|bytes|) > 0 ==> Recorded(v, n, k, name, bytes) == Remarked(LaidOut(v, n, k, name, bytes), n + Counted(|bytes|) - 1)
  {
    hide Counted, LaidOut, PutAt;
  }

  lemma BuiltIsPacked(v: Volume, n: nat, names: seq<ShortName>)
    requires Built(v, n, names)
    ensures Packed(v, n, |names|)
  {
    BuiltRoot(v, n, names);
    hide BlockRecords, RootHolds;
  }

  lemma PackedParts(v: Volume, n: nat, k: nat)
    requires Packed(v, n, k)
    ensures v.kind.Fat16? && v.csize == 512 && |v.fat| == |v.data| == 124 && 2 <= n <= 124 && k <= 64 && SlotCount(v.data[0]) == 64
    ensures k < 64 ==> IsLoc(v.data, Loc(0, k))
    ensures forall c :: 2 <= c < 124 ==> (v.fat[c] == 0 <==> c >= n)
  {
  }

  /** One more record keeps the count. */
  lemma PackedStep(v: Volume, n: nat, k: nat, need: nat, w: Volume, s: Slot)
    requires Packed(v, n, k) && k < 64 && n + need <= 124
    requires w == v.(fat := w.fat, data := w.data) && |w.fat| == |w.data| == 124 && w.data[0] == v.data[0]
    requires forall c :: 2 <= c < 124 ==> (w.fat[c] == 0 <==> c >= n + need)
    ensures IsLoc(w.data, Loc(0, k)) && Packed(PutAt(w, Loc(0, k), s), n + need, k + 1)
  {
    PutSlotBlock(w.data[0], k, s);
    hide PutSlot;
  }

  lemma RecordDecoded(name: ShortName, size: nat)
    requires Nameable(name) && size < 0x1_0000_0000
    ensures Decode(FileSlot(name, 0, size)) == Entry(name, false, false, 0, size)
  {
    hide *;
    FreshFile(name);
    FileSlotIs(name, 0, size);
    FilledRecord(Fresh(name, ATTR_FILE), 0, size);
    Le32RoundTrip(size);
  }
}
