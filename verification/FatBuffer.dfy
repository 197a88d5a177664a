/** Facts that tie the bytes of the buffer to the volume it stores, change by change. */
module FatBuffer {
  import opened Common
  import opened Arith
  import opened Bytes
  import opened FatTable
  import opened FatChains
  import opened FatSlots
  import opened FatStore
  import opened FatTree
  import opened FatOps
  import opened FatInvariant
  import opened FatLayout
  import opened FatWords

  /** What reading entry `c` yields; out of range reads as end of chain. */
  function EntryOf(v: Volume, c: nat): nat {
    if c < |v.fat| then v.fat[c] else Eoc(v.kind)
  }

  function WithEntry(v: Volume, c: nat, value: nat): Volume {
    if c < |v.fat| then v.(fat := v.fat[c := Masked(v.kind, value)]) else v
  }

  // ---------------------------------------------------------------- facts about stored volumes

  lemma ShowsParts(g: Geometry, img: Image, v: Volume)
    requires Shows(g, img, v)
    ensures WellFormed(g, |img|) && FatShown(g, img, v.fat) && DataShown(g, img, v.data)
    ensures |v.fat| == |v.data| == g.clusters + 2
    ensures v.kind == g.kind && v.csize == ClusterSize(g) && v.rootHead == g.rootHead
    ensures 0 < g.bps && 0 < g.spc && 0 < g.copies && 64 <= v.csize
  {
  }

  lemma ShowsIntro(g: Geometry, img: Image, v: Volume)
    requires WellFormed(g, |img|) && FatShown(g, img, v.fat) && DataShown(g, img, v.data)
    requires v.kind == g.kind && v.csize == ClusterSize(g) && v.rootHead == g.rootHead
    ensures Shows(g, img, v)
  {
  }

  lemma FatShownAt(g: Geometry, img: Image, fat: Table, k: nat, c: nat)
    requires WellFormed(g, |img|) && FatShown(g, img, fat) && k < g.copies && c < |fat|
    ensures FatAt(g, k, c) + Width(g.kind) <= |img| && FatWord(g.kind, img, FatAt(g, k, c)) == fat[c]
  {
  }

  lemma SameOutsideWiden(img: Image, img': Image, lo: nat, hi: nat, lo': nat, hi': nat)
    requires SameOutside(img, img', lo, hi) && lo' <= lo && hi <= hi'
    ensures SameOutside(img, img', lo', hi')
  {
  }

  lemma SameOutsideTwice(a: Image, b: Image, c: Image, lo: nat, hi: nat)
    requires SameOutside(a, b, lo, hi) && SameOutside(b, c, lo, hi)
    ensures SameOutside(a, c, lo, hi)
  {
  }

  lemma SameOutsideRefl(img: Image, lo: nat, hi: nat)
    ensures SameOutside(img, img, lo, hi)
  {
  }

  lemma NoCopies(g: Geometry, img: Image, c: nat, value: nat)
    ensures CopiesPut(g, img, img, c, value, 0)
  {
  }

  /** One more copy of an entry is written. */
  lemma CopyStep(g: Geometry, img0: Image, img: Image, c: nat, value: nat, n: nat)
    requires WellFormed(g, |img|) && c < g.clusters + 2 && n < g.copies && value < Capacity(g.kind)
    requires CopiesPut(g, img0, img, c, value, n) && SameOutside(img0, img, 0, RootAt(g))
    ensures FatAt(g, n, c) + Width(g.kind) <= |img|
    ensures var img' := PutWord(g.kind, img, FatAt(g, n, c), value);
      CopiesPut(g, img0, img', c, value, n + 1) && SameOutside(img0, img', 0, RootAt(g))
  {
    hide *;
    NextCopy(g, img0, img, c, value, n);
    FatInside(g, |img|, n, c);
    var a := FatAt(g, n, c);
    var img' := PutWord(g.kind, img, a, value);
    PutWordReads(g.kind, img, a, value);
    SameOutsideWiden(img, img', a, a + Width(g.kind), 0, RootAt(g));
    SameOutsideTwice(img0, img, img', 0, RootAt(g));
  }

  lemma EntryWritten(g: Geometry, img: Image, img': Image, v: Volume, c: nat, value: nat)
    requires Shows(g, img, v) && c < |v.fat|
    requires CopiesPut(g, img, img', c, Masked(g.kind, value), g.copies) && SameOutside(img, img', 0, RootAt(g))
    ensures Shows(g, img', WithEntry(v, c, value))
  {
    hide *;
    ShowsParts(g, img, v);
    CopiesSize(g, img, img', c, Masked(g.kind, value), g.copies);
    AllCopies(g, img, img', v.fat, c, Masked(g.kind, value));
    DataKept(g, img, img', v.data, 0, RootAt(g));
    WithEntryIs(v, c, value);
    ShowsIntro(g, img', WithEntry(v, c, value));
  }

  lemma WithEntryIs(v: Volume, c: nat, value: nat)
    ensures c < |v.fat| ==> WithEntry(v, c, value) == v.(fat := v.fat[c := Masked(v.kind, value)])
    ensures c >= |v.fat| ==> WithEntry(v, c, value) == v
  {
  }

  lemma MaskedRange(kind: Kind, value: nat)
    ensures Masked(kind, value) < Capacity(kind)
  {
  }

  lemma FatWordIs(kind: Kind, img: Image, a: nat)
    requires a + Width(kind) <= |img|
    ensures kind.Fat16? ==> Width(kind) == 2 && FatWord(kind, img, a) == Le16(img[a], img[a + 1])
    ensures kind.Fat32? ==> Width(kind) == 4 && FatWord(kind, img, a) == Rem(Le32(img[a], img[a + 1], img[a + 2], img[a + 3]), 0x1000_0000)
  {
  }

  /** The sector of entry `c` in table copy `copy`, and the offset in that sector. */
  function EntrySector(g: Geometry, copy: nat, c: nat): nat
    requires g.bps > 0
  {
    g.reserved + Times(g.spf, copy) + Quot(EntryBytes(g.kind, c), g.bps)
  }

  function EntryWithin(g: Geometry, c: nat): nat
    requires g.bps > 0
  {
    Rem(EntryBytes(g.kind, c), g.bps)
  }

  lemma SectorBelow(g: Geometry, size: nat, k: nat, c: nat)
    requires WellFormed(g, size) && k < g.copies && c < g.clusters + 2
    ensures g.bps > 0 && Times(g.bps, EntrySector(g, k, c)) + EntryWithin(g, c) == FatAt(g, k, c) < size
  {
    BpsPositive(g, size);
    hide FatAt, WellFormed, Times, Quot, Rem;
    SectorAddress(g, k, c);
    FatInside(g, size, k, c);
    WidthPositive(g.kind);
  }

  lemma ClusterAddress(g: Geometry, c: nat)
    requires c >= 2
    ensures Times(g.bps, g.dataStart + Times(g.spc, c - 2)) == BlockAt(g, c)
  {
    TimesAdd(g.bps, g.dataStart, Times(g.spc, c - 2));
    TimesAssoc(g.bps, g.spc, c - 2);
  }

  lemma WidthPositive(kind: Kind)
    ensures Width(kind) > 0
  {
  }

  /** Rewriting the bytes of one block. */
  lemma BlockWritten(g: Geometry, img: Image, img': Image, v: Volume, c: nat, block: seq<byte>)
    requires Shows(g, img, v) && c < |v.data| && |block| == |v.data[c]|
    requires SameOutside(img, img', BlockAt(g, c), BlockAt(g, c) + |block|)
    requires BlockAt(g, c) + |block| <= |img'| && img'[BlockAt(g, c)..BlockAt(g, c) + |block|] == block
    ensures Shows(g, img', v.(data := v.data[c := block]))
  {
    hide *;
    ShowsParts(g, img, v);
    BlockShownAt(g, img, v.data, c);
    BlockInside(g, |img|, c);
    SameOutsideSize(img, img', BlockAt(g, c), BlockAt(g, c) + |block|);
    BlockStored(g, img, img', v.data, c, block);
    FatKept(g, img, img', v.fat, BlockAt(g, c), BlockAt(g, c) + |block|);
    ShowsIntro(g, img', v.(data := v.data[c := block]));
  }

  lemma SameOutsideSize(img: Image, img': Image, lo: nat, hi: nat)
    requires SameOutside(img, img', lo, hi)
    ensures |img'| == |img|
  {
  }

  lemma BlockShownAt(g: Geometry, img: Image, data: Blocks, c: nat)
    requires DataShown(g, img, data) && c < |data|
    ensures |data| == g.clusters + 2
    ensures BlockAt(g, c) + BlockSize(g, c) <= |img| && |data[c]| == BlockSize(g, c)
    ensures data[c] == img[BlockAt(g, c)..BlockAt(g, c) + BlockSize(g, c)]
  {
    assert BlockShown(g, img, data, c);
  }

  /** The image with `bytes` stored from address `a` on. */
  function Splice(img: Image, a: nat, bytes: seq<byte>): (r: Image)
    requires a + |bytes| <= |img|
    ensures |r| == |img|
  {
    img[..a] + bytes + img[a + |bytes|..]
  }

  /** Storing bytes inside a block rewrites that part of the block. */
  lemma SpliceBlock(g: Geometry, img: Image, v: Volume, c: nat, offset: nat, bytes: seq<byte>)
    requires Shows(g, img, v) && c < |v.data| && offset + |bytes| <= |v.data[c]|
    ensures BlockAt(g, c) + offset + |bytes| <= |img|
    ensures Shows(g, Splice(img, BlockAt(g, c) + offset, bytes), v.(data := v.data[c := Overwrite(v.data[c], offset, bytes)]))
  {
    hide *;
    ShowsParts(g, img, v);
    BlockShownAt(g, img, v.data, c);
    var a := BlockAt(g, c);
    var block := Overwrite(v.data[c], offset, bytes);
    OverwriteSize(v.data[c], offset, bytes);
    SpliceFacts(img, a, a + |block|, offset, bytes, v.data[c]);
    BlockWritten(g, img, Splice(img, a + offset, bytes), v, c, block);
  }

  lemma OverwriteSize(block: seq<byte>, offset: nat, bytes: seq<byte>)
    requires offset + |bytes| <= |block|
    ensures |Overwrite(block, offset, bytes)| == |block|
  {
  }

  lemma SpliceFacts(img: Image, a: nat, b: nat, offset: nat, bytes: seq<byte>, block: seq<byte>)
    requires a <= b <= |img| && img[a..b] == block && offset + |bytes| <= |block|
    ensures SameOutside(img, Splice(img, a + offset, bytes), a, b)
    ensures Splice(img, a + offset, bytes)[a..b] == Overwrite(block, offset, bytes)
  {
    var img' := Splice(img, a + offset, bytes);
    OverwriteSize(block, offset, bytes);
    hide *;
    forall i | 0 <= i < |img| && !(a <= i < b)
      ensures img'[i] == img[i]
    {
      SpliceAt(img, a + offset, bytes, i);
    }
    SameOutsideIntro(img, img', a, b);
    forall k | 0 <= k < b - a
      ensures img'[a..b][k] == Overwrite(block, offset, bytes)[k]
    {
      SpliceAt(img, a + offset, bytes, a + k);
      OverwriteAt(block, offset, bytes, k);
      SliceAt(img, a, b, k);
    }
    assert img'[a..b] == Overwrite(block, offset, bytes);
  }

  lemma SameOutsideIntro(img: Image, img': Image, lo: nat, hi: nat)
    requires |img'| == |img| && forall i :: 0 <= i < |img| && !(lo <= i < hi) ==> img'[i] == img[i]
    ensures SameOutside(img, img', lo, hi)
  {
  }

  lemma SpliceAt(img: Image, a: nat, bytes: seq<byte>, i: nat)
    requires a + |bytes| <= |img| && i < |img|
    ensures Splice(img, a, bytes)[i] == if a <= i < a + |bytes| then bytes[i - a] else img[i]
  {
  }

  lemma OverwriteAt(block: seq<byte>, offset: nat, bytes: seq<byte>, k: nat)
    requires offset + |bytes| <= |block| && k < |block|
    ensures |Overwrite(block, offset, bytes)| == |block|
    ensures Overwrite(block, offset, bytes)[k] == if offset <= k < offset + |bytes| then bytes[k - offset] else block[k]
  {
  }

  lemma SliceAt(img: Image, a: nat, b: nat, k: nat)
    requires a <= b <= |img| && k < b - a
    ensures img[a..b][k] == img[a + k]
  {
  }

  /** The byte address of a slot. */
  function SlotAddress(g: Geometry, loc: Loc): nat {
    BlockAt(g, loc.c) + 32 * loc.i
  }

  lemma SlotInside(g: Geometry, img: Image, v: Volume, loc: Loc)
    requires Shows(g, img, v) && IsLoc(v.data, loc)
    ensures SlotAddress(g, loc) + 32 <= |img|
    ensures Get(v.data, loc) == img[SlotAddress(g, loc)..SlotAddress(g, loc) + 32]
  {
    hide WellFormed, FatShown;
    BlockShownAt(g, img, v.data, loc.c);
    hide DataShown, BlockAt, BlockSize;
    SliceOfSlice(img, BlockAt(g, loc.c), BlockAt(g, loc.c) + BlockSize(g, loc.c), 32 * loc.i, 32 * loc.i + 32);
  }

  lemma SliceOfSlice(img: Image, a: nat, b: nat, i: nat, j: nat)
    requires a <= b <= |img| && i <= j <= b - a
    ensures img[a..b][i..j] == img[a + i..a + j]
  {
    forall k | 0 <= k < j - i
      ensures img[a..b][i..j][k] == img[a + i..a + j][k]
    {
      assert img[a..b][i + k] == img[a + i + k];
    }
  }

  /** Rewriting the bytes of one slot. */
  lemma SlotWritten(g: Geometry, img: Image, img': Image, v: Volume, loc: Loc, s: Slot)
    requires Shows(g, img, v) && IsLoc(v.data, loc)
    requires SlotAddress(g, loc) + 32 <= |img| && img' == Splice(img, SlotAddress(g, loc), s)
    ensures Shows(g, img', PutAt(v, loc, s))
  {
    hide *;
    SlotFits(v.data, loc);
    SlotAddressIs(g, loc);
    SpliceBlock(g, img, v, loc.c, 32 * loc.i, s);
    PutIsOverwrite(v, loc, s);
  }

  lemma SlotAddressIs(g: Geometry, loc: Loc)
    ensures SlotAddress(g, loc) == BlockAt(g, loc.c) + 32 * loc.i
  {
  }

  lemma SlotFits(data: Blocks, loc: Loc)
    requires IsLoc(data, loc)
    ensures loc.c < |data| && 32 * loc.i + 32 <= |data[loc.c]|
  {
  }

  lemma PutIsOverwrite(v: Volume, loc: Loc, s: Slot)
    requires IsLoc(v.data, loc)
    ensures PutAt(v, loc, s) == v.(data := v.data[loc.c := Overwrite(v.data[loc.c], 32 * loc.i, s)])
  {
  }

  /** The volume with cluster `c` allocated and cleared. */
  function Allocated(v: Volume, c: nat): Volume {
    if c < |v.fat| && c < |v.data| then v.(fat := v.fat[c := Eoc(v.kind)], data := v.data[c := Zeros(v.csize)]) else v
  }

  lemma AllocatedIs(v: Volume, c: nat)
    requires Shape(v) && 2 <= c < |v.fat|
    ensures WithEntry(v, c, Eoc(v.kind)) == v.(fat := v.fat[c := Eoc(v.kind)])
    ensures |v.data[c]| == v.csize == |Zeros(v.csize)|
    ensures Overwrite(v.data[c], 0, Zeros(v.csize)) == Zeros(v.csize)
    ensures Allocated(v, c) == v.(fat := v.fat[c := Eoc(v.kind)], data := v.data[c := Zeros(v.csize)])
  {
  }

  lemma FreeFromStep(fat: Table, c: nat)
    requires c < |fat|
    ensures fat[c] == 0 ==> FreeFrom(fat, c) != [] && FreeFrom(fat, c)[0] == c
    ensures fat[c] != 0 ==> FreeFrom(fat, c) == FreeFrom(fat, c + 1)
  {
  }

  lemma FreeListFrom(fat: Table)
    requires |fat| >= 2
    ensures FreeList(fat) == FreeFrom(fat, 2) && FreeFrom(fat, |fat|) == []
  {
  }

  lemma EocNonzero(kind: Kind)
    ensures Eoc(kind) != 0
  {
  }

  lemma ReleaseStep(kind: Kind, fat: Table, c: nat)
    ensures c < 2 || c >= |fat| ==> Release(kind, fat, c) == fat
    ensures 2 <= c < |fat| ==> Release(kind, fat, c) == if IsEoc(kind, fat[c]) then fat[c := 0] else Release(kind, fat[c := 0], fat[c])
    ensures IsEoc(kind, Eoc(kind))
  {
  }

  lemma ClearedMeasure(fat: Table, c: nat)
    requires c < |fat|
    ensures fat[c] != 0 ==> Nonzero(fat[c := 0]) < Nonzero(fat)
    ensures fat[c] == 0 ==> fat[c := 0] == fat
  {
    if fat[c] != 0 {
      assert c in Nonzero(fat) && c !in Nonzero(fat[c := 0]);
    }
  }

  lemma MaskedZero(kind: Kind)
    ensures Masked(kind, 0) == 0
  {
  }

  lemma BpsPositive(g: Geometry, size: nat)
    requires WellFormed(g, size)
    ensures g.bps > 0
  {
  }

  lemma EntryOfIs(v: Volume, c: nat)
    ensures EntryOf(v, c) == if c < |v.fat| then v.fat[c] else Eoc(v.kind)
  {
  }

  // ---------------------------------------------------------------- fields of a slot in place

  lemma HeadInPlace(img: Image, img': Image, a: nat, s: Slot, head: nat)
    requires a + 32 <= |img| && s == img[a..a + 32]
    requires img' == img[a + 20 := Byte2(head)][a + 21 := Byte3(head)][a + 26 := Byte0(head)][a + 27 := Byte1(head)]
    ensures img' == Splice(img, a, WithHead(s, head))
  {
    hide Byte0, Byte1, Byte2, Byte3;
    assert forall i :: 0 <= i < 32 ==> s[i] == img[a + i];
  }

  lemma SizeInPlace(img: Image, img': Image, a: nat, s: Slot, size: nat)
    requires a + 32 <= |img| && s == img[a..a + 32]
    requires img' == img[a + 28 := Byte0(size)][a + 29 := Byte1(size)][a + 30 := Byte2(size)][a + 31 := Byte3(size)]
    ensures img' == Splice(img, a, WithSize(s, size))
  {
    hide Byte0, Byte1, Byte2, Byte3;
    assert forall i :: 0 <= i < 32 ==> s[i] == img[a + i];
  }

  lemma MarkInPlace(img: Image, img': Image, a: nat, s: Slot)
    requires a + 32 <= |img| && s == img[a..a + 32] && img' == img[a := MARK_FREE]
    ensures img' == Splice(img, a, Erased(s))
  {
    assert forall i :: 0 <= i < 32 ==> s[i] == img[a + i];
  }

  lemma FreshInPlace(img: Image, a: nat, name: ShortName, attr: byte)
    requires a + 32 <= |img|
    ensures Splice(Splice(img, a, Zeros(32)), a, name)[a + 11 := attr] == Splice(img, a, Fresh(name, attr))
  {
  }

  // ---------------------------------------------------------------- scanning a directory

  /** The END mark is among the records. */
  predicate HasEnd(dir: Dir) {
    exists i :: 0 <= i < |dir| && dir[i].End?
  }

  function FindLoc(data: Blocks, chain: seq<nat>, name: ShortName): Option<Loc>
    requires BlocksIn(data, chain)
  {
    var dir := Records(data, chain);
    var found := Find(dir, name);
    if found.Some? && found.value < |dir| then Some(LocOf(data, chain, found.value)) else None
  }

  function RoomLoc(data: Blocks, chain: seq<nat>): Option<Loc>
    requires BlocksIn(data, chain)
  {
    var dir := Records(data, chain);
    if Room(dir) < |dir| then Some(LocOf(data, chain, Room(dir))) else None
  }

  lemma {:induction false} FindConcat(a: Dir, b: Dir, name: ShortName, i: nat)
    requires i <= |a| && forall j :: 0 <= j < i ==> !a[j].End?
    ensures FindFrom(a + b, name, i) ==
      if FindFrom(a, name, i).Some? then FindFrom(a, name, i)
      else if HasEnd(a) then None
      else if Find(b, name).Some? then Some(|a| + Find(b, name).value) else None
    decreases |a| - i
  {
    if i < |a| {
      assert (a + b)[i] == a[i];
      if a[i].End? {
        assert HasEnd(a);
      } else if !Matches(a[i], name) {
        FindConcat(a, b, name, i + 1);
      }
    } else {
      assert !HasEnd(a);
      FindShift(a, b, name, 0);
    }
  }

  lemma {:induction false} FindShift(a: Dir, b: Dir, name: ShortName, i: nat)
    requires i <= |b|
    ensures FindFrom(a + b, name, |a| + i) == if FindFrom(b, name, i).Some? then Some(|a| + FindFrom(b, name, i).value) else None
    decreases |b| - i
  {
    if i < |b| {
      assert (a + b)[|a| + i] == b[i];
      FindShift(a, b, name, i + 1);
    }
  }

  lemma {:induction false} RoomConcat(a: Dir, b: Dir, i: nat)
    requires i <= |a|
    ensures RoomFrom(a + b, i) == if RoomFrom(a, i) < |a| then RoomFrom(a, i) else |a| + Room(b)
    decreases |a| - i
  {
    RoomFromBound(a, i);
    if i < |a| {
      assert (a + b)[i] == a[i];
      if !a[i].Free? && !a[i].End? {
        RoomConcat(a, b, i + 1);
      }
    } else {
      RoomShift(a, b, 0);
    }
  }

  lemma {:induction false} RoomShift(a: Dir, b: Dir, i: nat)
    requires i <= |b|
    ensures RoomFrom(a + b, |a| + i) == |a| + RoomFrom(b, i)
    decreases |b| - i
  {
    if i < |b| {
      assert (a + b)[|a| + i] == b[i];
      RoomShift(a, b, i + 1);
    }
  }

  lemma {:induction false} RoomFromBound(dir: Dir, i: nat)
    requires i <= |dir|
    ensures i <= RoomFrom(dir, i) <= |dir|
    decreases |dir| - i
  {
    if i < |dir| && !dir[i].Free? && !dir[i].End? {
      RoomFromBound(dir, i + 1);
    }
  }

  /** Searching a chain block by block. */
  lemma FindLocCons(data: Blocks, chain: seq<nat>, name: ShortName)
    requires BlocksIn(data, chain) && chain != []
    ensures BlocksIn(data, chain[1..])
    ensures var dir := BlockRecords(data[chain[0]]);
      FindLoc(data, chain, name) ==
        if Find(dir, name).Some? then Some(Loc(chain[0], Find(dir, name).value))
        else if HasEnd(dir) then None
        else FindLoc(data, chain[1..], name)
  {
    RecordsCons(data, chain);
    var a, b := BlockRecords(data[chain[0]]), Records(data, chain[1..]);
    FindConcat(a, b, name, 0);
    FindInRange(a, name, 0);
    FindInRange(b, name, 0);
    FindInRange(a + b, name, 0);
    hide Records, BlockRecords, FindFrom, LocOf, HasEnd, Matches;
    var found := Find(a + b, name);
    if found.Some? {
      LocOfCons(data, chain, found.value);
    }
  }

  lemma RoomLocCons(data: Blocks, chain: seq<nat>)
    requires BlocksIn(data, chain) && chain != []
    ensures BlocksIn(data, chain[1..])
    ensures var dir := BlockRecords(data[chain[0]]);
      RoomLoc(data, chain) == if Room(dir) < |dir| then Some(Loc(chain[0], Room(dir))) else RoomLoc(data, chain[1..])
  {
    RecordsCons(data, chain);
    var a, b := BlockRecords(data[chain[0]]), Records(data, chain[1..]);
    RoomConcat(a, b, 0);
    RoomFromBound(a, 0);
    RoomFromBound(b, 0);
    hide Records, BlockRecords, RoomFrom, LocOf;
    if Room(a + b) < |a + b| {
      LocOfCons(data, chain, Room(a + b));
    }
  }

  /** Scan results for one block, as far as slot `i`. */
  ghost predicate Scanned(dir: Dir, name: ShortName, i: nat, free: Option<nat>) {
    && i <= |dir|
    && (forall j :: 0 <= j < i ==> !dir[j].End?)
    && Find(dir, name) == FindFrom(dir, name, i)
    && (free.None? ==> Room(dir) == RoomFrom(dir, i))
    && (free.Some? ==> free.value < |dir| && Room(dir) == free.value && dir[free.value].Free?)
  }

  lemma ScanStart(dir: Dir, name: ShortName)
    ensures Scanned(dir, name, 0, None)
  {
  }

  lemma ScanNext(dir: Dir, name: ShortName, i: nat, free: Option<nat>)
    requires Scanned(dir, name, i, free) && i < |dir| && !dir[i].End? && !Matches(dir[i], name)
    ensures Scanned(dir, name, i + 1, if dir[i].Free? && free.None? then Some(i) else free)
  {
  }

  lemma ScanEnd(dir: Dir, name: ShortName, i: nat, free: Option<nat>)
    requires Scanned(dir, name, i, free)
    ensures i < |dir| && dir[i].End? ==> HasEnd(dir) && Find(dir, name) == None && (free.None? ==> Room(dir) == i)
    ensures i < |dir| && Matches(dir[i], name) ==> Find(dir, name) == Some(i)
    ensures i == |dir| ==> !HasEnd(dir) && Find(dir, name) == None && (free.None? ==> Room(dir) == |dir|)
  {
  }

  lemma BlockRecordAt(data: Blocks, c: nat, i: nat)
    requires c < |data| && i < SlotCount(data[c])
    ensures IsLoc(data, Loc(c, i)) && |BlockRecords(data[c])| == SlotCount(data[c])
    ensures BlockRecords(data[c])[i] == Decode(Get(data, Loc(c, i)))
  {
  }

  lemma SlotCountIs(g: Geometry, img: Image, v: Volume, c: nat)
    requires Shows(g, img, v) && c < |v.data|
    ensures SlotCount(v.data[c]) == (if c == 0 then g.rootEntries else if c == 1 then 0 else ClusterSize(g) / 32)
    ensures |BlockRecords(v.data[c])| == SlotCount(v.data[c])
  {
    hide WellFormed, FatShown;
    BlockShownAt(g, img, v.data, c);
    hide DataShown, ClusterSize;
  }

  /** What a scan that met no match knows about room: a FREE slot, the END slot, or none. */
  function FirstOf<T>(free: Option<T>, zero: Option<T>): Option<T> {
    if free.Some? then free else zero
  }

  /** `chain` lists the blocks of directory `d`. */
  ghost predicate DirWalk(v: Volume, d: nat, chain: seq<nat>) {
    if d == 0 && v.kind.Fat16? then chain == [0]
    else if d < 2 then chain == []
    else chain != [] && chain[0] == d && IsChain(v.kind, v.fat, chain)
  }

  lemma DirWalkIs(v: Volume, d: nat, chain: seq<nat>)
    requires Shape(v) && DirWalk(v, d, chain)
    ensures DirChain(v, d) == chain && BlocksIn(v.data, chain)
    ensures d >= 2 ==> chain != [] && chain[0] == d && IsChain(v.kind, v.fat, chain)
    ensures d == 0 && v.kind.Fat16? ==> chain == [0]
    ensures d < 2 && !(d == 0 && v.kind.Fat16?) ==> chain == []
  {
    if d >= 2 {
      ChainOfChain(v.kind, v.fat, chain);
    }
  }

  /** A live directory can be walked. */
  lemma LiveWalk(v: Volume, ch: Chains, t: Tree, d: nat)
    requires Inv(v, ch, t) && d in t.view
    ensures (d == 0 || d in ch) && DirWalk(v, d, ChainAt(ch, d))
  {
    DirIsStored(v, ch, t, d);
    if d != 0 {
      HeadsInRange(v, ch, d);
    }
  }

  /** Stepping along a chain. */
  lemma ChainStep(v: Volume, chain: seq<nat>, i: nat)
    requires Shape(v) && IsChain(v.kind, v.fat, chain) && i < |chain|
    ensures 2 <= chain[i] < |v.fat|
    ensures i + 1 < |chain| ==> v.fat[chain[i]] == chain[i + 1] && !IsEoc(v.kind, v.fat[chain[i]])
    ensures i + 1 == |chain| ==> IsEoc(v.kind, v.fat[chain[i]]) && chain[i] == Last(chain)
  {
    if i + 1 < |chain| {
      ClusterIsNotEoc(v.kind, v.fat, chain[i + 1]);
    }
  }

  lemma EmptySearch(data: Blocks, name: ShortName)
    ensures BlocksIn(data, []) && FindLoc(data, [], name) == None && RoomLoc(data, []) == None
  {
  }

  lemma DropOne(chain: seq<nat>, i: nat)
    requires i < |chain|
    ensures chain[i..] != [] && chain[i..][0] == chain[i] && chain[i..][1..] == chain[i + 1..]
  {
  }

  lemma Single(c: nat)
    ensures [c][1..] == []
  {
  }

  lemma DecodeCases(s: Slot, name: ShortName)
    ensures Decode(s).End? <==> s[0] == MARK_END
    ensures Decode(s).Free? <==> s[0] == MARK_FREE
    ensures Matches(Decode(s), name) <==> s[0] != MARK_END && s[0] != MARK_FREE && !IsSkipped(Attr(s)) && Name(s) == name
  {
  }

  lemma BlockOffsetInside(g: Geometry, img: Image, v: Volume, c: nat)
    requires Shows(g, img, v) && 2 <= c < |v.fat|
    ensures BlockAt(g, c) < |img|
  {
    hide *;
    ShowsParts(g, img, v);
    BlockShownAt(g, img, v.data, c);
    ClusterBlock(g, c);
  }

  lemma ClusterBlock(g: Geometry, c: nat)
    requires c >= 2
    ensures BlockSize(g, c) == ClusterSize(g)
  {
  }

  lemma ScannedRoom(dir: Dir, name: ShortName, i: nat, free: Option<nat>)
    requires Scanned(dir, name, i, free)
    ensures free.Some? ==> Room(dir) == free.value < |dir|
  {
  }

  lemma FirstOfIs<T>(free: Option<T>, zero: Option<T>)
    ensures FirstOf(free, zero) == if free.Some? then free else zero
  {
  }

  lemma ZerosLength(n: nat)
    ensures |Zeros(n)| == n
  {
  }

  function AtBlock(c: nat, i: Option<nat>): Option<Loc> {
    if i.Some? then Some(Loc(c, i.value)) else None
  }

  lemma AtBlockIs(c: nat, i: Option<nat>)
    ensures AtBlock(c, i) == if i.Some? then Some(Loc(c, i.value)) else None
  {
  }

  lemma DropNone(chain: seq<nat>)
    ensures chain[0..] == chain
  {
  }

  lemma DropAll(chain: seq<nat>, i: nat)
    requires i < |chain|
    ensures i + 1 == |chain| ==> chain[i..][1..] == []
  {
  }
}
