/**
 The volume engine on its byte buffer.  `v` is the volume the buffer stores; every method
 changes the bytes in place and states the new volume.
 */
module FatEngine {
  import opened Common
  import opened Arith
  import opened Bytes
  import opened FatTable
  import opened FatChains
  import opened FatSlots
  import opened FatStore
  import opened FatTree
  import opened FatOps
  import opened FatInvariant
  import opened FatSteps
  import opened FatFiles
  import opened FatAppend
  import opened FatAppendExact
  import opened FatDirs
  import opened FatWrites
  import opened FatLayout
  import opened FatWords
  import opened FatBuffer
  import opened FatFilling
  import opened FatBridge
  import opened FatRemoves
  import opened FatMkdir
  import opened FatPaths
  import opened FatWalks
  import opened FatTheorems

  /** Where a directory scan found its match, or room for a new record. */
  datatype Scan = Scan(found: Option<Loc>, free: Option<Loc>, zero: Option<Loc>, last: nat)

  class FatVolume {
    const g: Geometry
    const base: array<byte>
    ghost var v: Volume

    ghost predicate Valid()
      reads this, base
    {
      Shows(g, base[..], v)
    }

    constructor (g: Geometry, base: array<byte>, ghost v: Volume)
      requires Shows(g, base[..], v)
      ensures Valid() && this.g == g && this.base == base && this.v == v
    {
      this.g, this.base, this.v := g, base, v;
    }

    /** The offset of a sector, unless it starts beyond the buffer. */
    method SectorOffset(sector: nat) returns (r: Option<nat>)
      ensures r == if Times(g.bps, sector) < base.Length then Some(Times(g.bps, sector)) else None
    {
      TimesIs(g.bps, sector);
      var offset := g.bps * sector;
      if offset >= base.Length {
        return None;
      }
      return Some(offset);
    }

    method ClusterOffset(c: nat) returns (r: Option<nat>)
      ensures c < 2 ==> r == None
      ensures c >= 2 ==> r == if BlockAt(g, c) < base.Length then Some(BlockAt(g, c)) else None
    {
      if c < 2 {
        return None;
      }
      ClusterAddress(g, c);
      TimesIs(g.spc, c - 2);
      hide Times;
      r := SectorOffset(g.dataStart + g.spc * (c - 2));
    }

    lemma Parts()
      requires Valid()
      ensures Shows(g, base[..], v) && WellFormed(g, base.Length) && Shape(v)
      ensures |v.fat| == |v.data| == g.clusters + 2 && v.kind == g.kind && 64 <= v.csize == ClusterSize(g)
    {
      ShownShape(g, base[..], v);
    }

    lemma Rebuild()
      requires Shows(g, base[..], v)
      ensures Valid()
    {
    }

    /** Where entry `c` of table copy `copy` is stored, by sector and offset in the sector. */
    method EntryOffset(copy: nat, c: nat) returns (r: Option<nat>)
      requires WellFormed(g, base.Length) && copy < g.copies && c < g.clusters + 2
      ensures r == Some(FatAt(g, copy, c)) && FatAt(g, copy, c) + Width(g.kind) <= base.Length
    {
      hide *;
      BpsPositive(g, base.Length);
      SectorBelow(g, base.Length, copy, c);
      FatInside(g, base.Length, copy, c);
      var sector := SectorOffset(EntrySector(g, copy, c));
      if sector.None? {
        return None;
      }
      return Some(sector.value + EntryWithin(g, c));
    }

    method ReadFat(c: nat) returns (r: nat)
      requires Valid()
      ensures r == EntryOf(v, c)
    {
      hide *;
      Parts();
      ShowsParts(g, base[..], v);
      EntryOfIs(v, c);
      if c >= g.clusters + 2 {
        return Eoc(g.kind);
      }
      var at := EntryOffset(0, c);
      if at.None? {
        return Eoc(g.kind);
      }
      var a := at.value;
      FatShownAt(g, base[..], v.fat, 0, c);
      FatWordIs(g.kind, base[..], a);
      if g.kind.Fat32? {
        r := Le32(base[a], base[a + 1], base[a + 2], base[a + 3]);
        QuotRemAre(r, 0x1000_0000);
        r := r % 0x1000_0000;
      } else {
        r := Le16(base[a], base[a + 1]);
      }
    }

    method StoreWord(a: nat, value: nat)
      requires a + Width(g.kind) <= base.Length
      modifies base
      ensures base[..] == PutWord(g.kind, old(base[..]), a, value)
    {
      hide Le32, Le16, Byte0, Byte1, Byte2, Byte3;
      if g.kind.Fat32? {
        var existing := Le32(base[a], base[a + 1], base[a + 2], base[a + 3]);
        QuotRemAre(existing, 0x1000_0000);
        QuotRemAre(value, 0x1000_0000);
        var word := existing - existing % 0x1000_0000 + value % 0x1000_0000;
        base[a], base[a + 1], base[a + 2], base[a + 3] := Byte0(word), Byte1(word), Byte2(word), Byte3(word);
      } else {
        QuotRemAre(value, 0x1_0000);
        var word := value % 0x1_0000;
        base[a], base[a + 1] := Byte0(word), Byte1(word);
      }
    }

    /** Stores a table entry in every copy of the table. */
    method WriteFat(c: nat, value: nat)
      requires Valid()
      modifies this`v, base
      ensures Valid() && v == WithEntry(old(v), c, value)
    {
      hide *;
      Parts();
      WithEntryIs(v, c, value);
      if c >= g.clusters + 2 {
        return;
      }
      ghost var img := base[..];
      var masked := Masked(g.kind, value);
      MaskedRange(g.kind, value);
      NoCopies(g, img, c, masked);
      SameOutsideRefl(img, 0, RootAt(g));
      var copy := 0;
      while copy < g.copies
        invariant copy <= g.copies
        invariant CopiesPut(g, img, base[..], c, masked, copy)
        invariant SameOutside(img, base[..], 0, RootAt(g))
        invariant v == old(v)
      {
        CopyStep(g, img, base[..], c, masked, copy);
        var at := EntryOffset(copy, c);
        if at.Some? {
          StoreWord(at.value, masked);
        }
        copy := copy + 1;
      }
      EntryWritten(g, img, base[..], v, c, value);
      v := WithEntry(v, c, value);
      Rebuild();
    }

    /** Copies bytes into the buffer, one by one. */
    method CopyBytes(a: nat, bytes: seq<byte>)
      requires a + |bytes| <= base.Length
      modifies base
      ensures base[..] == Splice(old(base[..]), a, bytes)
    {
      var i := 0;
      while i < |bytes|
        invariant i <= |bytes|
        invariant base[..] == old(base[..])[..a] + bytes[..i] + old(base[..])[a + i..]
      {
        base[a + i] := bytes[i];
        i := i + 1;
      }
    }

    /** Writes bytes into block `c` from `offset` on. */
    method StoreInBlock(c: nat, offset: nat, bytes: seq<byte>)
      requires Valid() && c < |v.data| && offset + |bytes| <= |v.data[c]|
      modifies this`v, base
      ensures Valid() && v == old(v).(data := old(v).data[c := Overwrite(old(v).data[c], offset, bytes)])
    {
      hide *;
      Parts();
      SpliceBlock(g, base[..], v, c, offset, bytes);
      CopyBytes(BlockAt(g, c) + offset, bytes);
      v := v.(data := v.data[c := Overwrite(v.data[c], offset, bytes)]);
      Rebuild();
    }

    /** First fit: the lowest free cluster is marked as the end of a chain and cleared. */
    method AllocateCluster() returns (c: nat)
      requires Valid()
      modifies this`v, base
      ensures Valid()
      ensures FreeList(old(v).fat) == [] ==> c == 0 && v == old(v)
      ensures FreeList(old(v).fat) != [] ==> c == FreeList(old(v).fat)[0] && v == Allocated(old(v), c)
    {
      hide *;
      Parts();
      FreeListFrom(v.fat);
      EocNonzero(v.kind);
      var total := g.clusters + 1;
      c := 2;
      while c <= total + 1
        invariant 2 <= c <= total + 2
        invariant c <= |v.fat| ==> FreeList(v.fat) == FreeFrom(v.fat, c)
        invariant c > |v.fat| ==> FreeList(v.fat) == []
        invariant Valid() && v == old(v)
        decreases total + 2 - c
      {
        var value := ReadFat(c);
        EntryOfIs(v, c);
        if c < |v.fat| {
          FreeFromStep(v.fat, c);
        }
        if value == 0 {
          AllocatedIs(v, c);
          WriteFat(c, Eoc(g.kind));
          StoreInBlock(c, 0, Zeros(ClusterSize(g)));
          return;
        }
        c := c + 1;
      }
      c := 0;
    }

    /** Releases a chain link by link; terminates on every table content. */
    method FreeChain(start: nat)
      requires Valid()
      modifies this`v, base
      ensures Valid() && v == old(v).(fat := Release(old(v).kind, old(v).fat, start))
    {
      hide *;
      Parts();
      ReleaseStep(v.kind, v.fat, start);
      if start < 2 {
        return;
      }
      var c: nat := start;
      while c >= 2
        invariant Valid()
        invariant v == old(v).(fat := v.fat)
        invariant Release(v.kind, v.fat, c) == Release(old(v).kind, old(v).fat, start)
        decreases Nonzero(v.fat), if c >= 2 then 1 else 0
      {
        Parts();
        ReleaseStep(v.kind, v.fat, c);
        EntryOfIs(v, c);
        WithEntryIs(v, c, 0);
        MaskedZero(v.kind);
        if c < |v.fat| {
          ClearedMeasure(v.fat, c);
        }
        var next := ReadFat(c);
        WriteFat(c, 0);
        if IsEoc(g.kind, next) {
          return;
        }
        c := next;
      }
      ReleaseStep(v.kind, v.fat, c);
    }

    // -------------------------------------------------------------- directory records

    /** The record at `loc`. */
    method ReadSlot(loc: Loc) returns (s: Slot)
      requires Valid() && IsLoc(v.data, loc)
      ensures s == Get(v.data, loc)
    {
      hide *;
      Parts();
      SlotInside(g, base[..], v, loc);
      var a := SlotAddress(g, loc);
      s := base[a..a + 32];
    }

    method SetFirstCluster(loc: Loc, head: nat)
      requires Valid() && IsLoc(v.data, loc)
      modifies this`v, base
      ensures Valid() && v == PutAt(old(v), loc, WithHead(Get(old(v).data, loc), head))
    {
      hide *;
      Parts();
      SlotInside(g, base[..], v, loc);
      var a := SlotAddress(g, loc);
      ghost var img, s := base[..], Get(v.data, loc);
      base[a + 20] := Byte2(head);
      base[a + 21] := Byte3(head);
      base[a + 26] := Byte0(head);
      base[a + 27] := Byte1(head);
      HeadInPlace(img, base[..], a, s, head);
      SlotWritten(g, img, base[..], v, loc, WithHead(s, head));
      v := PutAt(v, loc, WithHead(s, head));
      Rebuild();
    }

    method SetFileSize(loc: Loc, size: nat)
      requires Valid() && IsLoc(v.data, loc)
      modifies this`v, base
      ensures Valid() && v == PutAt(old(v), loc, WithSize(Get(old(v).data, loc), size))
    {
      hide *;
      Parts();
      SlotInside(g, base[..], v, loc);
      var a := SlotAddress(g, loc);
      ghost var img, s := base[..], Get(v.data, loc);
      base[a + 28] := Byte0(size);
      base[a + 29] := Byte1(size);
      base[a + 30] := Byte2(size);
      base[a + 31] := Byte3(size);
      SizeInPlace(img, base[..], a, s, size);
      SlotWritten(g, img, base[..], v, loc, WithSize(s, size));
      v := PutAt(v, loc, WithSize(s, size));
      Rebuild();
    }

    method MarkFree(loc: Loc)
      requires Valid() && IsLoc(v.data, loc)
      modifies this`v, base
      ensures Valid() && v == PutAt(old(v), loc, Erased(Get(old(v).data, loc)))
    {
      hide *;
      Parts();
      SlotInside(g, base[..], v, loc);
      var a := SlotAddress(g, loc);
      ghost var img, s := base[..], Get(v.data, loc);
      base[a] := MARK_FREE;
      MarkInPlace(img, base[..], a, s);
      SlotWritten(g, img, base[..], v, loc, Erased(s));
      v := PutAt(v, loc, Erased(s));
      Rebuild();
    }

    /** Clears the record at `loc` and gives it a name and an attribute. */
    method FillEntry(loc: Loc, name: ShortName, attr: byte)
      requires Valid() && IsLoc(v.data, loc)
      modifies this`v, base
      ensures Valid() && v == PutAt(old(v), loc, Fresh(name, attr))
    {
      hide *;
      Parts();
      SlotInside(g, base[..], v, loc);
      ZerosLength(32);
      var a := SlotAddress(g, loc);
      ghost var img := base[..];
      CopyBytes(a, Zeros(32));
      CopyBytes(a, name);
      base[a + 11] := attr;
      FreshInPlace(img, a, name, attr);
      SlotWritten(g, img, base[..], v, loc, Fresh(name, attr));
      v := PutAt(v, loc, Fresh(name, attr));
      Rebuild();
    }

    /** Scans the slots of one block up to a match or the END mark. */
    method ScanBlock(c: nat, name: ShortName) returns (found: Option<nat>, free: Option<nat>, zero: Option<nat>)
      requires Valid() && c < |v.data| && c != 1
      ensures var dir := BlockRecords(v.data[c]);
        && found == Find(dir, name)
        && (found.None? ==> FirstOf(free, zero) == if Room(dir) < |dir| then Some(Room(dir)) else None)
        && (found.None? ==> (zero.Some? <==> HasEnd(dir)))
    {
      hide *;
      Parts();
      SlotCountIs(g, base[..], v, c);
      ghost var dir := BlockRecords(v.data[c]);
      ScanStart(dir, name);
      found, free, zero := None, None, None;
      var count := if c == 0 then g.rootEntries else ClusterSize(g) / 32;
      var i := 0;
      while i < count
        invariant i <= count && found.None? && zero.None?
        invariant Scanned(dir, name, i, free)
      {
        BlockRecordAt(v.data, c, i);
        var s := ReadSlot(Loc(c, i));
        DecodeCases(s, name);
        ScanEnd(dir, name, i, free);
        if s[0] == MARK_END {
          zero := Some(i);
          ScannedRoom(dir, name, i, free);
          FirstOfIs(free, zero);
          return;
        }
        if s[0] != MARK_FREE && !IsSkipped(Attr(s)) && Name(s) == name {
          found := Some(i);
          return;
        }
        ScanNext(dir, name, i, free);
        if s[0] == MARK_FREE && free.None? {
          free := Some(i);
        }
        i := i + 1;
      }
      ScanEnd(dir, name, i, free);
      ScannedRoom(dir, name, i, free);
      FirstOfIs(free, zero);
    }

    /** Scans the blocks of directory `d` along its chain. */
    method DirScan(d: nat, name: ShortName, ghost chain: seq<nat>) returns (scan: Scan)
      requires Valid() && DirWalk(v, d, chain)
      ensures BlocksIn(v.data, chain) && Shape(v) && DirChain(v, d) == chain
      ensures scan.found == FindLoc(v.data, chain, name)
      ensures scan.found.None? ==> FirstOf(scan.free, scan.zero) == RoomLoc(v.data, chain)
      ensures scan.found.None? && RoomLoc(v.data, chain).None? && d >= 2 ==> chain != [] && scan.last == Last(chain)
    {
      hide *;
      Parts();
      DirWalkIs(v, d, chain);
      EmptySearch(v.data, name);
      scan := Scan(None, None, None, if d >= 2 then d else 0);
      FirstOfIs<Loc>(None, None);
      if d == 0 && g.kind.Fat16? {
        FindLocCons(v.data, chain, name);
        RoomLocCons(v.data, chain);
        Single(0);
        var found, free, zero := ScanBlock(0, name);
        FirstOfIs(free, zero);
        scan := Scan(AtBlock(0, found), AtBlock(0, free), AtBlock(0, zero), 0);
        FirstOfIs(scan.free, scan.zero);
        AtBlockIs(0, found);
        AtBlockIs(0, free);
        AtBlockIs(0, zero);
        return;
      }
      var c := d;
      ghost var i := 0;
      DropNone(chain);
      while c >= 2
        invariant i <= |chain| && (d < 2 ==> c == d && i == 0)
        invariant d >= 2 ==> i < |chain| && c == chain[i] && c >= 2
        invariant BlocksIn(v.data, chain[i..])
        invariant FindLoc(v.data, chain, name) == FindLoc(v.data, chain[i..], name)
        invariant RoomLoc(v.data, chain) == if scan.free.Some? then scan.free else RoomLoc(v.data, chain[i..])
        invariant scan.found.None? && scan.zero.None?
        decreases |chain| - i
      {
        ChainStep(v, chain, i);
        DropOne(chain, i);
        FindLocCons(v.data, chain[i..], name);
        RoomLocCons(v.data, chain[i..]);
        var found, free, zero := ScanBlock(c, name);
        FirstOfIs(free, zero);
        AtBlockIs(c, found);
        AtBlockIs(c, free);
        AtBlockIs(c, zero);
        if found.Some? {
          scan := scan.(found := AtBlock(c, found), last := c);
          return;
        }
        if scan.free.None? {
          scan := scan.(free := AtBlock(c, free));
        }
        if zero.Some? {
          scan := scan.(zero := AtBlock(c, zero), last := c);
          FirstOfIs(scan.free, scan.zero);
          return;
        }
        EntryOfIs(v, c);
        var next := ReadFat(c);
        if IsEoc(g.kind, next) {
          scan := scan.(last := c);
          DropAll(chain, i);
          FirstOfIs(scan.free, scan.zero);
          return;
        }
        ChainStep(v, chain, i + 1);
        c := next;
        i := i + 1;
      }
    }

    // -------------------------------------------------------------- file data

    /** Fills cluster `c` with the next data, zero padded. */
    method StoreChunk(c: nat, cursor: seq<byte>) returns (n: nat)
      requires Valid() && c < |v.data| && |v.data[c]| == v.csize
      modifies this`v, base
      ensures Valid() && v == old(v).(data := old(v).data[c := Chunk(cursor, old(v).csize)])
      ensures n <= |cursor| && cursor[n..] == Drop(cursor, old(v).csize)
    {
      hide *;
      Parts();
      ChunkInPlace(v, c, cursor);
      var size := ClusterSize(g);
      n := if |cursor| > size then size else |cursor|;
      StoreInBlock(c, 0, cursor[..n]);
      StoreInBlock(c, n, Zeros(size - n));
    }

    /** Allocates a cluster, links it behind `prev` if there is one, and fills it. */
    method TakeAndFill(prev: nat, cursor: seq<byte>) returns (c: nat, n: nat)
      requires Valid() && Shape(v) && prev < |v.fat|
      modifies this`v, base
      ensures Valid()
      ensures FreeList(old(v).fat) == [] ==> c == 0 && v == old(v)
      ensures FreeList(old(v).fat) != [] ==>
        && c == FreeList(old(v).fat)[0] && v == Taken1(old(v), prev, c, Chunk(cursor, old(v).csize))
        && n <= |cursor| && cursor[n..] == Drop(cursor, old(v).csize) && c >= 2
    {
      hide *;
      n := 0;
      if FreeList(v.fat) != [] {
        FirstFree(v);
        CsizePositive(v);
        AllocatedIs(v, FreeList(v.fat)[0]);
        Taken1Is(v, prev, FreeList(v.fat)[0], Chunk(cursor, v.csize));
      }
      c := AllocateCluster();
      if c == 0 {
        return;
      }
      Parts();
      if prev >= 2 {
        WithEntryLink(v, prev, c);
        WriteFat(prev, c);
      }
      n := StoreChunk(c, cursor);
    }

    /** Replaces the contents of a file. */
    method WriteReplace(loc: Loc, bytes: seq<byte>, ghost ch: Chains, ghost t: Tree, ghost r: Ref) returns (ok: bool)
      requires Valid() && Inv(v, ch, t) && StoredAt(v.data, ch, t, r, loc) && IsLoc(v.data, loc)
      requires At(t, r).Entry? && !At(t, r).dot && !At(t, r).directory
      modifies this`v, base
      ensures Valid() && 0 < old(v).csize
      ensures Outcome(v, ok) == Replace(old(v), loc, Get(old(v).data, loc), bytes)
    {
      hide *;
      InvParts(v, ch, t);
      CsizePositive(v);
      StoredAtFacts(v.data, ch, t, r, loc);
      var s := ReadSlot(loc);
      DecodeFields(s);
      ReplaceUnfold(v, loc, s, bytes);
      ghost var v0 := v;
      ghost var ch1, t1 := TruncateStep(v, ch, t, r, loc, s);
      TruncateIs(v, loc, s);
      FreeChain(Head(s));
      EmptiedIs(s);
      PutGet(v, loc, WithHead(s, 0));
      PutPut(v, loc, WithHead(s, 0), Emptied(s));
      PutGet(v, loc, Emptied(s));
      SetFirstCluster(loc, 0);
      SetFileSize(loc, 0);
      ghost var v1 := v;
      InvParts(v1, ch1, t1);
      if |bytes| == 0 {
        return true;
      }
      ghost var need, free := Clusters(|bytes|, v.csize), FreeList(v.fat);
      ghost var ts := Prefix(free, need);
      FillKeepsSlot(v1, ch1, t1, r, loc, ts, bytes);
      FillInIs(v1, ts, bytes);
      FillingStart(v1, bytes);
      ShapeTwo(v1);
      var cursor := bytes;
      var first: nat, prev: nat := 0, 0;
      ghost var j := 0;
      while cursor != []
        invariant Valid() && Filling(v1, v, ts, j, bytes, cursor, prev) && j <= |ts|
        invariant first == if j > 0 then ts[0] else 0
        invariant prev < |v.fat| == |v1.fat| && v.csize == v1.csize
        decreases |ts| - j
      {
        Parts();
        if FreeList(v.fat) != [] {
          FillingStep(v1, v, ts, j, bytes, cursor, prev);
        } else {
          FillingStuck(v1, v, ts, j, bytes, cursor, prev);
        }
        var c, n := TakeAndFill(prev, cursor);
        if c == 0 {
          FreeChain(first);
          EmptiedTwice(s);
          PutSelf(v, loc);
          PutPut(v, loc, WithHead(Emptied(s), 0), Emptied(s));
          PutGet(v, loc, WithHead(Emptied(s), 0));
          SetFirstCluster(loc, 0);
          SetFileSize(loc, 0);
          return false;
        }
        FillingParts(v1, v, ts, j + 1, bytes, cursor[n..], c);
        if first == 0 {
          first := c;
        }
        cursor := cursor[n..];
        prev := c;
        j := j + 1;
      }
      Parts();
      FillingDone(v1, v, ts, j, bytes, prev);
      WriteEocAgain(v, prev);
      WriteFat(prev, Eoc(g.kind));
      AdoptIs(FillIn(v1, ts, bytes), ts, loc, WithSize(WithHead(Emptied(s), ts[0]), |bytes|));
      FillKeeps(v1, ts, bytes);
      PutGet(v, loc, WithHead(Emptied(s), first));
      PutPut(v, loc, WithHead(Emptied(s), first), WithSize(WithHead(Emptied(s), first), |bytes|));
      SetFirstCluster(loc, first);
      SetFileSize(loc, |bytes|);
      return true;
    }

    /** Appends from `offset` in the tail cluster `last`, then in new clusters behind it. */
    method WriteTail(loc: Loc, last0: nat, offset0: nat, bytes: seq<byte>) returns (ok: bool)
      requires Valid() && Shape(v) && IsLoc(v.data, loc) && loc.c != last0 && (loc.c < 2 || v.fat[loc.c] != 0)
      requires 2 <= last0 < |v.fat| && v.fat[last0] != 0 && |v.data[last0]| == v.csize && offset0 < v.csize
      modifies this`v, base
      ensures Valid()
      ensures Outcome(v, ok) == AppendTail(old(v), loc, Get(old(v).data, loc), last0, offset0, bytes)
    {
      hide *;
      Parts();
      var s := ReadSlot(loc);
      var space := ClusterSize(g) - offset0;
      var n := if |bytes| < space then |bytes| else space;
      TailUnfold(v, loc, s, last0, offset0, bytes);
      PatchIs(v, last0, offset0, bytes[..n]);
      ghost var v2, rest := PatchBlock(v, last0, offset0, bytes[..n]), bytes[n..];
      AppendRestUnfold(v2, loc, WithSize(s, Size(s) + |bytes|), last0, rest);
      ghost var ts := Prefix(FreeList(v2.fat), Clusters(|rest|, v2.csize));
      GrownKeepsSlot(v, loc, last0, offset0, bytes[..n], ts, rest);
      StoreInBlock(last0, offset0, bytes[..n]);
      if offset0 + n < ClusterSize(g) {
        SetFileSize(loc, Size(s) + n);
        return true;
      }
      Parts();
      ExtendingStart(v2, rest, last0);
      ExtendingParts(v2, v2, ts, 0, rest, rest, last0, last0);
      var last: nat, cursor := last0, bytes[n..];
      ghost var j := 0;
      while cursor != []
        invariant Valid() && Extending(v2, v, ts, j, rest, cursor, last0, last) && j <= |ts|
        invariant last < |v.fat| && v.csize == v2.csize
        decreases |ts| - j
      {
        Parts();
        if FreeList(v.fat) != [] {
          ExtendingStep(v2, v, ts, j, rest, cursor, last0, last);
        } else {
          ExtendingStuck(v2, v, ts, j, rest, cursor, last0, last);
        }
        var c, m := TakeAndFill(last, cursor);
        if c == 0 {
          return false;
        }
        Parts();
        ExtendingParts(v2, v, ts, j + 1, rest, cursor[m..], last0, c);
        WriteEocAgain(v, c);
        WriteFat(c, Eoc(g.kind));
        last, cursor, j := c, cursor[m..], j + 1;
      }
      ExtendingDone(v2, v, ts, j, rest, last0, last);
      SetFileSize(loc, Size(s) + |bytes|);
      return true;
    }

    /** The last cluster of a chain. */
    method FindTail(head: nat, ghost chain: seq<nat>) returns (last: nat)
      requires Valid() && chain != [] && chain[0] == head && IsChain(v.kind, v.fat, chain)
      ensures last == Last(chain)
    {
      hide *;
      Parts();
      last := head;
      ghost var i := 0;
      while true
        invariant i < |chain| && last == chain[i]
        decreases |chain| - i
      {
        ChainStep(v, chain, i);
        EntryOfIs(v, last);
        var next := ReadFat(last);
        if IsEoc(g.kind, next) {
          return;
        }
        last := next;
        i := i + 1;
      }
    }

    /** Appends to a file, giving it a first cluster if it has none. */
    method WriteAppend(loc: Loc, bytes: seq<byte>, ghost ch: Chains, ghost t: Tree, ghost r: Ref) returns (ok: bool)
      requires Valid() && Inv(v, ch, t) && StoredAt(v.data, ch, t, r, loc) && IsLoc(v.data, loc)
      requires At(t, r).Entry? && !At(t, r).dot && !At(t, r).directory
      modifies this`v, base
      ensures Valid() && 0 < old(v).csize
      ensures Outcome(v, ok) == Append(old(v), loc, Get(old(v).data, loc), bytes)
    {
      hide *;
      InvParts(v, ch, t);
      CsizePositive(v);
      StoredAtFacts(v.data, ch, t, r, loc);
      StoredAtParts(v.data, ch, t, r, loc);
      SlotBlockTaken(v, ch, t, r, loc);
      var s := ReadSlot(loc);
      DecodeFields(s);
      AppendUnfold(v, loc, s, bytes);
      if |bytes| == 0 {
        return true;
      }
      Parts();
      if Head(s) < 2 {
        if FreeList(v.fat) != [] {
          FirstFree(v);
          ghost var f := FreeList(v.fat)[0];
          FirstCluster(v, loc, WithSize(WithHead(s, f), 0), f);
          AdoptedEntry(v, f, loc, WithSize(WithHead(s, f), 0));
          PutGet(Allocated(v, f), loc, WithHead(s, f));
          PutPut(Allocated(v, f), loc, WithHead(s, f), WithSize(WithHead(s, f), 0));
          PutGet(Allocated(v, f), loc, WithSize(WithHead(s, f), 0));
        }
        EocNonzero(v.kind);
        var first := AllocateCluster();
        if first == 0 {
          return false;
        }
        SetFirstCluster(loc, first);
        SetFileSize(loc, 0);
        Parts();
        WriteEocAgain(v, first);
        WriteFat(first, Eoc(g.kind));
        OneChain(v, first);
        var last := FindTail(first, [first]);
        ClusterFull(v, first);
        LastOne(first);
        ok := WriteTail(loc, last, 0, bytes);
      } else {
        OwnsHead(At(t, r));
        OwnerHead(v, ch, t, r);
        ghost var h := At(t, r).head;
        WalkIs(v, ch, h);
        ChainFacts(v, ch, h);
        ChainIsWired(v, ch, h);
        ChainHead(v, ch, h);
        TailNonzero(v, ch, h);
        var last := FindTail(Head(s), ch[h]);
        QuotRemAre(Size(s), ClusterSize(g));
        ok := WriteTail(loc, last, Size(s) % ClusterSize(g), bytes);
      }
    }

    // -------------------------------------------------------------- directory operations

    /**
     A fresh record in directory `d`: in a reusable slot, in the END slot, or in the first
     slot of a cluster linked behind the directory.
     */
    method CreateEntry(d: nat, scan: Scan, name: ShortName, attr: byte, ghost chain: seq<nat>) returns (r: Option<Loc>)
      requires Valid() && Shape(v) && DirChain(v, d) == chain && DirWalk(v, d, chain) && BlocksIn(v.data, chain)
      requires FirstOf(scan.free, scan.zero) == RoomLoc(v.data, chain)
      requires RoomLoc(v.data, chain).None? && d >= 2 ==> chain != [] && scan.last == Last(chain)
      modifies this`v, base
      ensures Valid() && Taken(v, r) == Create(old(v), d, Fresh(name, attr))
    {
      hide *;
      Parts();
      DirWalkIs(v, d, chain);
      CreateUnfold(v, d, Fresh(name, attr), chain);
      RoomLocIs(v.data, chain);
      FirstOfIs(scan.free, scan.zero);
      if scan.free.Some? {
        FillEntry(scan.free.value, name, attr);
        return scan.free;
      }
      if scan.zero.Some? {
        PutGet(v, scan.zero.value, Erased(Get(v.data, scan.zero.value)));
        PutPut(v, scan.zero.value, Erased(Get(v.data, scan.zero.value)), Fresh(name, attr));
        MarkFree(scan.zero.value);
        FillEntry(scan.zero.value, name, attr);
        return scan.zero;
      }
      if d < 2 {
        return None;
      }
      if FreeList(v.fat) != [] {
        FirstFree(v);
        LastTaken(v, chain, FreeList(v.fat)[0]);
        LinkedBehind(v, scan.last, FreeList(v.fat)[0]);
      }
      EocNonzero(v.kind);
      var c := AllocateCluster();
      if c == 0 {
        return None;
      }
      WriteFat(scan.last, c);
      WriteFat(c, Eoc(g.kind));
      Parts();
      ZerosLength(ClusterSize(g));
      StoreInBlock(c, 0, Zeros(ClusterSize(g)));
      FillEntry(Loc(c, 0), name, attr);
      return Some(Loc(c, 0));
    }

    /** Whether one block of a directory holds no records but dots, and whether it ends there. */
    method BlockIsEmpty(c: nat) returns (empty: bool, end: bool)
      requires Valid() && c < |v.data| && c != 1
      ensures var dir := BlockRecords(v.data[c]);
        empty == VacantFrom(dir, 0) && (empty ==> end == HasEnd(dir))
    {
      hide *;
      Parts();
      SlotCountIs(g, base[..], v, c);
      ghost var dir := BlockRecords(v.data[c]);
      VacantEnd(dir);
      var count := if c == 0 then g.rootEntries else ClusterSize(g) / 32;
      var i := 0;
      while i < count
        invariant i <= count && VacantFrom(dir, 0) == VacantFrom(dir, i)
        invariant forall j :: 0 <= j < i ==> !dir[j].End?
      {
        BlockRecordAt(v.data, c, i);
        VacantStep(dir, i);
        NoEndYet(dir, i);
        var s := ReadSlot(Loc(c, i));
        DecodeEntry(s);
        if s[0] == MARK_END {
          return true, true;
        }
        if s[0] != MARK_FREE && !IsSkipped(Attr(s)) && !IsDot(Name(s)) {
          return false, false;
        }
        i := i + 1;
      }
      NoEndYet(dir, i);
      return true, false;
    }

    /** Whether the directory starting at cluster `d` holds no records but dots. */
    method DirectoryIsEmpty(d: nat, ghost chain: seq<nat>) returns (empty: bool)
      requires Valid() && (if d < 2 then chain == [] else DirWalk(v, d, chain)) && BlocksIn(v.data, chain)
      ensures empty == VacantFrom(Records(v.data, chain), 0)
    {
      hide *;
      Parts();
      VacantNil(v.data);
      if d < 2 {
        return true;
      }
      DirWalkIs(v, d, chain);
      DropNone(chain);
      var c := d;
      ghost var i := 0;
      while true
        invariant i < |chain| && c == chain[i] && BlocksIn(v.data, chain[i..])
        invariant VacantFrom(Records(v.data, chain), 0) == VacantFrom(Records(v.data, chain[i..]), 0)
        decreases |chain| - i
      {
        ChainStep(v, chain, i);
        DropOne(chain, i);
        VacantCons(v.data, chain[i..]);
        var vacant, end := BlockIsEmpty(c);
        if !vacant {
          return false;
        }
        if end {
          return true;
        }
        EntryOfIs(v, c);
        var next := ReadFat(c);
        if IsEoc(g.kind, next) {
          DropAll(chain, i);
          return true;
        }
        c := next;
        i := i + 1;
      }
    }

    /** Copies `n` buffer bytes from `a` on to `out[total..]`. */
    method CopyOut(a: nat, n: nat, out: array<byte>, total: nat)
      requires a + n <= base.Length && total + n <= out.Length && out != base
      modifies out
      ensures out[..total] == old(out[..total]) && out[total..total + n] == base[a..a + n]
      ensures out[total + n..] == old(out[total + n..])
    {
      var i := 0;
      while i < n
        invariant i <= n
        invariant out[..total] == old(out[..total]) && out[total..total + i] == base[a..a + i]
        invariant out[total + n..] == old(out[total + n..])
      {
        out[total + i] := base[a + i];
        i := i + 1;
      }
    }

    /** Copies a cluster to `out[total..]`, not beyond `max`. */
    method CopyCluster(c: nat, out: array<byte>, total: nat, max: nat) returns (n: nat)
      requires Valid() && out != base && total <= max <= out.Length && 2 <= c < |v.data|
      modifies out
      ensures n <= |v.data[c]| && n == (if |v.data[c]| > max - total then max - total else |v.data[c]|)
      ensures out[..total + n] == old(out[..total]) + v.data[c][..n] && out[max..] == old(out[max..])
    {
      hide *;
      Parts();
      BlockStoredAt(g, base[..], v, c);
      var src := ClusterOffset(c);
      n := if total + ClusterSize(g) > max then max - total else ClusterSize(g);
      ghost var before := out[..];
      SliceOfBlock(base[..], BlockAt(g, c), v.data[c], n);
      CopyOut(src.value, n, out, total);
      CopiedTail(before, out[..], total, n, max);
      Gathered(out[..], total, n, v.data[c][..n], before, []);
      NothingLeft(out[..total + n], 0);
      NothingLeft(v.data[c][..n], 0);
    }

    /** Copies the bytes along a chain, `max` at most. */
    method LoadChain(start: nat, out: array<byte>, max: nat, ghost chain: seq<nat>) returns (total: nat)
      requires Valid() && out != base && max <= out.Length && start >= 2 && DirWalk(v, start, chain) && BlocksIn(v.data, chain)
      modifies out
      ensures total <= max && out[..total] == Clip(ChainBytes(v.data, chain), max)
      ensures out[max..] == old(out[max..])
    {
      hide *;
      Parts();
      DirWalkIs(v, start, chain);
      ghost var all := Clip(ChainBytes(v.data, chain), max);
      LoadingStart(v.data, chain, out[..0], max);
      total := 0;
      var c := start;
      ghost var i := 0;
      while total < max
        invariant total <= max && i < |chain| && c == chain[i] && out[max..] == old(out[max..])
        invariant Loading(v.data, chain, i, out[..total], max, all)
        decreases |chain| - i
      {
        ChainStep(v, chain, i);
        ClusterFull(v, c);
        ghost var got := out[..total];
        var n := CopyCluster(c, out, total, max);
        LoadingStep(v.data, chain, i, got, n, max, all);
        total := total + n;
        EntryOfIs(v, c);
        var next := ReadFat(c);
        if IsEoc(g.kind, next) {
          LoadingEnd(v.data, chain, i + 1, out[..total], max, all);
          return;
        }
        c := next;
        i := i + 1;
      }
      LoadingEnd(v.data, chain, i, out[..total], max, all);
    }

    /** Stores the caller's data in the file whose record is at `loc`. */
    method StoreData(loc: Loc, mode: Mode, src: Source, ghost ch: Chains, ghost t: Tree, ghost r: Ref) returns (ok: bool)
      requires Valid() && Inv(v, ch, t) && StoredAt(v.data, ch, t, r, loc) && IsLoc(v.data, loc)
      requires IsRef(t, r) && At(t, r).Entry? && !At(t, r).dot && Decode(Get(v.data, loc)) == At(t, r)
      modifies this`v, base
      ensures Valid() && 0 < old(v).csize
      ensures Outcome(v, ok) == Store(old(v), loc, Get(old(v).data, loc), mode, src)
    {
      hide *;
      Parts();
      var s := ReadSlot(loc);
      StoreUnfold(v, loc, s, mode, src);
      DecodeFields(s);
      if IsDirectory(Attr(s)) {
        return false;
      }
      if src.Null? && src.length > 0 {
        return false;
      }
      BytesOfIs(src);
      var bytes := if src.Null? then [] else src.bytes;
      if mode.ReplaceAll? {
        ok := WriteReplace(loc, bytes, ch, t, r);
      } else {
        ok := WriteAppend(loc, bytes, ch, t, r);
      }
    }

    /** Writes to the file `name` of directory `d`, creating it if needed. */
    method WriteIn(d: nat, name: ShortName, mode: Mode, src: Source, ghost ch: Chains, ghost t: Tree) returns (ok: bool)
      requires Valid() && Inv(v, ch, t) && (d in t.view || d == 1) && Nameable(name)
      modifies this`v, base
      ensures Valid() && Shape(old(v)) && Outcome(v, ok) == Write(old(v), d, name, mode, src)
    {
      hide *;
      Parts();
      ghost var chain := AnyWalk(v, ch, t, d);
      DirWalkIs(v, d, chain);
      FindLocIsLocate(v, d, name, chain);
      WriteUnfold(v, d, name, mode, src);
      FreshFile(name);
      var scan := DirScan(d, name, chain);
      if scan.found.Some? {
        ghost var r := FoundRef(v, ch, t, d, name);
        ok := StoreData(scan.found.value, mode, src, ch, t, r);
      } else {
        ghost var ch1, t1, r := MadeRef(v, ch, t, d, name, ATTR_FILE);
        var loc := CreateEntry(d, scan, name, ATTR_FILE, chain);
        if loc.None? {
          return false;
        }
        ok := StoreData(loc.value, mode, src, ch1, t1, r);
      }
    }

    /** Removes the file or empty directory `name` of directory `d`. */
    method RemoveIn(d: nat, name: ShortName, ghost ch: Chains, ghost t: Tree) returns (ok: bool)
      requires Valid() && Inv(v, ch, t) && (d in t.view || d == 1) && Nameable(name)
      modifies this`v, base
      ensures Valid() && Shape(old(v)) && Outcome(v, ok) == Remove(old(v), d, name)
    {
      hide *;
      Parts();
      ghost var chain := AnyWalk(v, ch, t, d);
      DirWalkIs(v, d, chain);
      FindLocIsLocate(v, d, name, chain);
      RemoveCases(v, d, name);
      var scan := DirScan(d, name, chain);
      if scan.found.None? {
        return false;
      }
      var loc := scan.found.value;
      ghost var r := FoundRef(v, ch, t, d, name);
      var s := ReadSlot(loc);
      NamedWalk(v, ch, t, r, s);
      if IsDirectory(Attr(s)) {
        if Head(s) < 2 && g.kind.Fat16? {
          return false;
        }
        var empty := DirectoryIsEmpty(Head(s), ChainOf(v.kind, v.fat, Head(s)));
        if !empty {
          return false;
        }
      }
      ReleaseStep(v.kind, v.fat, Head(s));
      if Head(s) >= 2 {
        FreeChain(Head(s));
      }
      MarkFree(loc);
      return true;
    }

    /** Writes the records `.` and `..` of a new directory. */
    method WriteDotEntries(c: nat, parent: nat)
      requires Valid() && Shape(v) && 2 <= c < |v.fat| && v.data[c] == Zeros(v.csize)
      modifies this`v, base
      ensures Valid() && 64 <= old(v).csize
      ensures v == old(v).(data := old(v).data[c := DotBlock(old(v).csize, c, if parent < 2 && g.kind.Fat16? then 0 else parent)])
    {
      hide *;
      var up := if parent < 2 && g.kind.Fat16? then 0 else parent;
      DotRecords(v, c, up);
      ghost var a, b := Fresh(DOT, ATTR_DIRECTORY), Fresh(DOTDOT, ATTR_DIRECTORY);
      ghost var v1 := PutAt(v, Loc(c, 0), WithHead(a, c));
      PutGet(v, Loc(c, 0), a);
      PutPut(v, Loc(c, 0), a, WithHead(a, c));
      PutGet(v1, Loc(c, 1), b);
      PutPut(v1, Loc(c, 1), b, WithHead(b, up));
      FillEntry(Loc(c, 0), DOT, ATTR_DIRECTORY);
      SetFirstCluster(Loc(c, 0), c);
      FillEntry(Loc(c, 1), DOTDOT, ATTR_DIRECTORY);
      SetFirstCluster(Loc(c, 1), up);
    }

    /** Makes the directory `name` in directory `d`. */
    method MkdirIn(d: nat, name: ShortName, ghost ch: Chains, ghost t: Tree) returns (ok: bool)
      requires Valid() && Inv(v, ch, t) && (d in t.view || d == 1) && Nameable(name)
      modifies this`v, base
      ensures Valid() && Shape(old(v)) && Outcome(v, ok) == Mkdir(old(v), d, name)
    {
      hide *;
      Parts();
      ghost var chain := AnyWalk(v, ch, t, d);
      DirWalkIs(v, d, chain);
      FindLocIsLocate(v, d, name, chain);
      MkdirUnfold(v, d, name);
      FreshFile(name);
      var scan := DirScan(d, name, chain);
      if scan.found.Some? {
        return false;
      }
      ghost var ch1, t1, r := MadeRef(v, ch, t, d, name, ATTR_DIRECTORY);
      ghost var s := Fresh(name, ATTR_DIRECTORY);
      var loc := CreateEntry(d, scan, name, ATTR_DIRECTORY, chain);
      if loc.None? {
        return false;
      }
      Parts();
      ghost var v1 := v;
      SlotBlockTaken(v1, ch1, t1, r, loc.value);
      var parent := if d < 2 && g.kind.Fat16? then 0 else d;
      if FreeList(v1.fat) != [] {
        FirstFree(v1);
        ghost var f := FreeList(v1.fat)[0];
        AllocatedAgain(v1, f);
        DotBlockSize(v1.csize, f, parent);
        TwiceUpdated(v1.data, f, Zeros(v1.csize), DotBlock(v1.csize, f, parent));
        NewDirectory(v1, loc.value, f, WithHead(s, f), DotBlock(v1.csize, f, parent));
        FreshHasNoSize(name, ATTR_DIRECTORY, f);
      }
      EocNonzero(v.kind);
      var c := AllocateCluster();
      if c == 0 {
        return false;
      }
      WriteFat(c, Eoc(g.kind));
      ZerosLength(ClusterSize(g));
      StoreInBlock(c, 0, Zeros(ClusterSize(g)));
      WriteDotEntries(c, parent);
      PutGet(v, loc.value, WithHead(s, c));
      PutPut(v, loc.value, WithHead(s, c), WithHead(s, c));
      SetFirstCluster(loc.value, c);
      SetFileSize(loc.value, 0);
      return true;
    }

    /** Reads the file `name` of directory `d` into `out`; -1 is an error, else the byte count. */
    method ReadIn(d: nat, name: ShortName, out: array<byte>, max: nat, ghost ch: Chains, ghost t: Tree) returns (n: int)
      requires Valid() && Inv(v, ch, t) && (d in t.view || d == 1) && Nameable(name) && out != base && max <= out.Length
      modifies out
      ensures Valid() && Shape(v) && -1 <= n <= max
      ensures n == -1 <==> Read(v, d, name, max).None?
      ensures n >= 0 ==> Read(v, d, name, max) == Some(out[..n])
      ensures out[max..] == old(out[max..])
    {
      hide *;
      Parts();
      ReadCases(v, d, name, max);
      if max == 0 {
        return -1;
      }
      ghost var chain := AnyWalk(v, ch, t, d);
      DirWalkIs(v, d, chain);
      FindLocIsLocate(v, d, name, chain);
      var scan := DirScan(d, name, chain);
      if scan.found.None? {
        return -1;
      }
      var loc := scan.found.value;
      ghost var r := FoundRef(v, ch, t, d, name);
      var s := ReadSlot(loc);
      NamedWalk(v, ch, t, r, s);
      if IsDirectory(Attr(s)) {
        return -1;
      }
      ReadBytesIs(v, s, max);
      var count := if Size(s) > max then max else Size(s);
      if count == 0 || Head(s) < 2 {
        NoBytes(out[..]);
        return 0;
      }
      ghost var before := out[..];
      n := LoadChain(Head(s), out, count, ChainOf(v.kind, v.fat, Head(s)));
      CopiedTail(before, out[..], 0, count, max);
      if n < max {
        ghost var filled := out[..];
        out[n] := 0;
        Terminated(filled, out[..], n, max);
      }
    }

    // -------------------------------------------------------------- operations on paths

    /** Walks to the directory a path names. */
    method ResolveDir(path: string, ghost ch: Chains, ghost t: Tree) returns (r: Option<nat>)
      requires Valid() && Inv(v, ch, t)
      ensures Shape(v) && r == ResolveDirectory(v, path)
    {
      hide *;
      Parts();
      ShowsParts(g, base[..], v);
      RootIsLive(v, ch, t);
      LiveIs(v, t, v.rootHead);
      ResolveIs(v, path);
      var current, i := g.rootHead, 0;
      while true
        invariant i <= |path| && LiveOrNone(v, t, current)
        invariant WalkFrom(v, path, i, current) == ResolveDirectory(v, path)
        decreases |path| - i
      {
        WalkUnfold(v, path, i, current);
        StepToIsLive(v, ch, t, path, i, current);
        StepToIs(v, path, i, current);
        var seg := NextPathSegment(path, i);
        if !seg.Segment? {
          return Some(current);
        }
        var name := MakeShortName(seg.text);
        if name.None? {
          return None;
        }
        LiveIs(v, t, current);
        ghost var chain := AnyWalk(v, ch, t, current);
        DirWalkIs(v, current, chain);
        FindLocIsLocate(v, current, name.value, chain);
        var scan := DirScan(current, name.value, chain);
        if scan.found.None? {
          return None;
        }
        var s := ReadSlot(scan.found.value);
        if !IsDirectory(Attr(s)) {
          return None;
        }
        if Head(s) == 0 && g.kind.Fat32? {
          return None;
        }
        SegmentAdvances(path, i);
        current, i := Head(s), seg.rest;
      }
    }

    /** The directory and 8.3 name a path ends in. */
    method ResolveName(path: string, ghost ch: Chains, ghost t: Tree) returns (r: Option<(nat, ShortName)>)
      requires Valid() && Inv(v, ch, t)
      ensures Shape(v)
      ensures r.None? <==> ResolveParent(v, path).None? || PrepareName(ResolveParent(v, path).value.leaf).None?
      ensures r.Some? ==>
        && r.value == (ResolveParent(v, path).value.d, PrepareName(ResolveParent(v, path).value.leaf).value)
        && (r.value.0 in t.view || r.value.0 == 1) && Nameable(r.value.1)
    {
      hide *;
      Parts();
      ShowsParts(g, base[..], v);
      ParentIs(v, path);
      ParentIsLive(v, ch, t, path);
      var slash := FindLast(path, '/');
      var d, leaf := g.rootHead, path;
      if slash >= 0 {
        if slash > MAX_PARENT {
          return None;
        }
        var found := ResolveDir(path[..slash], ch, t);
        if found.None? {
          return None;
        }
        d, leaf := found.value, path[slash + 1..];
      }
      if |leaf| > MAX_LEAF {
        return None;
      }
      var name := PrepareShortName(leaf);
      if name.None? {
        return None;
      }
      LiveIs(v, t, d);
      return Some((d, name.value));
    }

    /** Writes to the file at a path; the new volume is the one the operation specifies, and consistent. */
    method WriteFile(path: string, mode: Mode, src: Source) returns (ok: bool)
      requires Valid() && Consistent(v) && Sized(src)
      modifies this`v, base
      ensures Valid() && Consistent(v) && Shape(old(v)) && Outcome(v, ok) == Apply(old(v), Op.WriteFile(path, mode, src))
    {
      hide *;
      ghost var ch, t := Witnesses(v);
      ghost var op := Op.WriteFile(path, mode, src);
      Parts();
      ApplyUnfold(v, op);
      ValidOp(op);
      ApplyKeepsConsistent(v, op);
      var target := ResolveName(path, ch, t);
      if target.None? {
        return false;
      }
      ok := WriteIn(target.value.0, target.value.1, mode, src, ch, t);
    }

    /** Removes the file or empty directory at a path. */
    method RemoveFile(path: string) returns (ok: bool)
      requires Valid() && Consistent(v)
      modifies this`v, base
      ensures Valid() && Consistent(v) && Shape(old(v)) && Outcome(v, ok) == Apply(old(v), Op.RemoveFile(path))
    {
      hide *;
      ghost var ch, t := Witnesses(v);
      ghost var op := Op.RemoveFile(path);
      Parts();
      ApplyUnfold(v, op);
      ValidOp(op);
      ApplyKeepsConsistent(v, op);
      var target := ResolveName(path, ch, t);
      if target.None? {
        return false;
      }
      ok := RemoveIn(target.value.0, target.value.1, ch, t);
    }

    /** Makes the directory at a path. */
    method MakeDir(path: string) returns (ok: bool)
      requires Valid() && Consistent(v)
      modifies this`v, base
      ensures Valid() && Consistent(v) && Shape(old(v)) && Outcome(v, ok) == Apply(old(v), Op.MakeDir(path))
    {
      hide *;
      ghost var ch, t := Witnesses(v);
      ghost var op := Op.MakeDir(path);
      Parts();
      ApplyUnfold(v, op);
      ValidOp(op);
      ApplyKeepsConsistent(v, op);
      var target := ResolveName(path, ch, t);
      if target.None? {
        return false;
      }
      ok := MkdirIn(target.value.0, target.value.1, ch, t);
    }

    /** Reads the file at a path into `out`, `max` bytes at most; -1 is an error, else the byte count. */
    method ReadFile(path: string, out: array<byte>, max: nat) returns (n: int)
      requires Valid() && Consistent(v) && out != base && max <= out.Length
      modifies out
      ensures Valid() && Shape(v) && -1 <= n <= max
      ensures n == -1 <==> ReadPath(v, path, max).None?
      ensures n >= 0 ==> ReadPath(v, path, max) == Some(out[..n])
      ensures out[max..] == old(out[max..])
    {
      hide *;
      ghost var ch, t := Witnesses(v);
      Parts();
      ReadPathIs(v, path, max);
      var target := ResolveName(path, ch, t);
      if target.None? {
        return -1;
      }
      n := ReadIn(target.value.0, target.value.1, out, max, ch, t);
    }
  }
}
