/** The image builder on its buffer: every file it appends keeps the image a consistent, mountable volume. */
module FatImageBuilder {
  import opened Common
  import opened Arith
  import opened Bytes
  import opened FatTable
  import opened FatChains
  import opened FatSlots
  import opened FatStore
  import opened FatTree
  import opened FatOps
  import opened FatInvariant
  import opened FatDirs
  import opened FatWrites
  import opened FatLayout
  import opened FatWords
  import opened FatBuffer
  import opened FatFilling
  import opened FatTheorems
  import opened FatMount
  import opened FatImage
  import opened FatBuilder
  import opened FatEngine

  /** The boot sector fields that describe the image. */
  predicate BootOk(img: Image) {
    && |img| == IMAGE_SIZE
    && img[11] == 0 && img[12] == 2 && img[13] == 1 && img[14] == 1 && img[15] == 0 && img[16] == 1
    && img[17] == 64 && img[18] == 0 && img[19] == 128 && img[20] == 0 && img[22] == 1 && img[23] == 0
  }

  /** The jump, the maker's name, the volume description and the type label. */
  const BOOT_HEAD: seq<byte> := [
    0xEB, 0x3C, 0x90, 80, 82, 79, 79, 83, 32, 32, 32,
    0, 2, 1, 1, 0, 1, 64, 0, 128, 0, 0xF8, 1, 0, 1, 0, 1, 0, 0, 0, 0, 0, 0, 0, 0, 0,
    70, 65, 84, 49, 54, 32, 32, 32, 32]

  lemma HeadCopied(img: Image, img': Image)
    requires |img| == IMAGE_SIZE && img' == Splice(img, 0, BOOT_HEAD)
    ensures BootOk(img') && forall i :: 512 <= i < IMAGE_SIZE ==> img'[i] == img[i]
  {
    hide *;
    Sizes();
    BootHeadIs();
    forall i | 0 <= i < 45
      ensures img'[i] == BOOT_HEAD[i]
    {
      SpliceReads(img, 0, BOOT_HEAD, i);
    }
    forall i | 512 <= i < IMAGE_SIZE
      ensures img'[i] == img[i]
    {
      SpliceReads(img, 0, BOOT_HEAD, i);
    }
    BootIntro(img');
  }

  lemma BootHeadIs()
    ensures var b := BOOT_HEAD;
      && |b| == 45 && b[11] == 0 && b[12] == 2 && b[13] == 1 && b[14] == 1 && b[15] == 0 && b[16] == 1
      && b[17] == 64 && b[18] == 0 && b[19] == 128 && b[20] == 0 && b[22] == 1 && b[23] == 0
  {
  }

  lemma SpliceReads(img: Image, a: nat, bytes: seq<byte>, i: nat)
    requires a + |bytes| <= |img| && i < |img|
    ensures Splice(img, a, bytes)[i] == if a <= i < a + |bytes| then bytes[i - a] else img[i]
  {
  }

  /** The image mounts with the geometry the builder laid it out for. */
  lemma BootMounts(img: Image)
    requires BootOk(img)
    ensures Mount(img) == Some(G) && WellFormed(G, |img|)
  {
    GeometryFits();
    hide Le32;
    var b := BootOf(img);
    assert b.bps == 512 && b.spc == 1 && b.reserved == 1 && b.copies == 1 && b.rootEntries == 64 && b.total == 128 && b.spf == 1;
    QuotRemAre(2559, 512);
    QuotRemAre(122, 1);
    Le32RoundTrip(2);
    Le32RoundTrip(6);
    hide Quot, Wrap32;
    assert RootSectors(b) == 4;
    assert TableEnd(b) == 2;
    assert DataSectors(b) == 122;
  }

  lemma BootKept(img: Image, img': Image)
    requires BootOk(img) && |img'| == |img| && forall i :: 0 <= i < 512 ==> img'[i] == img[i]
    ensures BootOk(img')
  {
  }

  lemma Sizes()
    ensures IMAGE_SIZE == 65536 && ROOT_ENTRIES == 64 && MAX_CLUSTERS == 122 && LAST_MARK == 0xFFFF
  {
  }

  lemma TableAt(c: nat)
    ensures FatAt(G, 0, c) == 512 + 2 * c && Width(G.kind) == 2 && G.copies == 1 && G.clusters == 122 && G.kind == Fat16
    ensures RootAt(G) == 1024 && ClusterSize(G) == 512
    ensures BlockAt(G, c) >= 1024 && (c >= 2 ==> BlockAt(G, c) == 3072 + (c - 2) * 512)
  {
    TimesIs(512, if c >= 2 then c - 2 else 0);
  }

  lemma TableSplice(img: Image, img': Image, c: nat)
    requires |img| == |img'| && 512 + 2 * c + 2 <= |img|
    requires forall i :: 0 <= i < |img| && i != 512 + 2 * c && i != 512 + 2 * c + 1 ==> img'[i] == img[i]
    ensures forall i :: 0 <= i < 512 ==> img'[i] == img[i]
  {
  }

  /** Storing a table word, as the builder does it, changes one entry. */
  lemma EntryStored(img: Image, img': Image, v: Volume, c: nat, value: nat)
    requires Shows(G, img, v) && c < |v.fat| && value < 0x1_0000 && 512 + 2 * c + 2 <= |img|
    requires img' == PutWord(Fat16, img, 512 + 2 * c, value)
    ensures Shows(G, img', v.(fat := v.fat[c := value]))
  {
    hide *;
    TableAt(c);
    ShowsParts(G, img, v);
    CapacityIs();
    MaskedSmall(Fat16, value);
    NoCopies(G, img, c, value);
    SameOutsideRefl(img, 0, RootAt(G));
    CopyStep(G, img, img, c, value, 0);
    EntryWritten(G, img, img', v, c, value);
    WithEntryIs(v, c, value);
  }

  lemma CapacityIs()
    ensures Capacity(Fat16) == 0x1_0000
  {
  }

  lemma WordStored(img: Image, img': Image, a: nat, value: nat)
    requires a + 2 <= |img| && value < 0x1_0000 && img' == img[a := Byte0(value)][a + 1 := Byte1(value)]
    ensures Width(Fat16) == 2 && img' == PutWord(Fat16, img, a, value)
  {
    MaskedSmall(Fat16, value);
    CapacityIs();
  }

  /** What the builder's append does to the volume. */
  function WithFile(v: Volume, n: nat, name: ShortName, bytes: seq<byte>): Volume
    requires Shape(v)
  {
    var w := Write(v, 0, name, ReplaceAll, Buffer(bytes)).v;
    if Clusters(|bytes|, v.csize) == 0 then w else Remarked(w, n + Clusters(|bytes|, v.csize) - 1)
  }

  lemma AppendedIs(v: Volume, n: nat, names: seq<ShortName>, name: ShortName, bytes: seq<byte>)
    requires Shape(v) && Built(v, n, names) && |names| < 64 && name !in names && Clusters(|bytes|, 512) <= 124 - n
    ensures v.csize == 512
    ensures var need := Clusters(|bytes|, 512);
      WithFile(v, n, name, bytes) == if need == 0 then LaidOut(v, n, |names|, name, bytes) else Remarked(LaidOut(v, n, |names|, name, bytes), n + need - 1)
  {
    hide *;
    BuiltRoot(v, n, names);
    WriteLaysOut(v, n, names, name, bytes);
    WithFileUnfold(v, n, name, bytes);
  }

  lemma WithFileUnfold(v: Volume, n: nat, name: ShortName, bytes: seq<byte>)
    requires Shape(v)
    ensures var need := Clusters(|bytes|, v.csize);
      var w := Write(v, 0, name, ReplaceAll, Buffer(bytes)).v;
      WithFile(v, n, name, bytes) == if need == 0 then w else Remarked(w, n + need - 1)
  {
    hide Write, Clusters, Remarked, Shape;
  }

  lemma AppendedKeeps(v: Volume, ch: Chains, t: Tree, n: nat, names: seq<ShortName>, name: ShortName, bytes: seq<byte>) returns (ch': Chains, t': Tree)
    requires Shape(v) && Inv(v, ch, t) && Built(v, n, names) && |names| < 64 && name !in names && Nameable(name)
    requires Clusters(|bytes|, 512) <= 124 - n && |bytes| < 0x1_0000_0000
    ensures Inv(WithFile(v, n, name, bytes), ch', t')
  {
    hide *;
    BuiltRoot(v, n, names);
    RootInView(v, ch, t);
    SizedBuffer(bytes);
    ch', t' := WriteStep(v, ch, t, 0, name, ReplaceAll, Buffer(bytes));
    var out := Write(v, 0, name, ReplaceAll, Buffer(bytes));
    DoneKeepsInv(v, ch, t, 0, name, ReplaceAll, Buffer(bytes), out, ch', t');
    AppendedIs(v, n, names, name, bytes);
    WriteLaysOut(v, n, names, name, bytes);
    var need := Clusters(|bytes|, 512);
    if need > 0 {
      LaidOutEnd(v, n, |names|, name, bytes);
      RemarkedKeeps(out.v, ch', t', n + need - 1);
    }
  }

  /** An appended file keeps the volume consistent. */
  lemma AppendedConsistent(v: Volume, n: nat, names: seq<ShortName>, name: ShortName, bytes: seq<byte>)
    requires Shape(v) && Consistent(v) && Built(v, n, names) && |names| < 64 && name !in names && Nameable(name)
    requires Clusters(|bytes|, 512) <= 124 - n && |bytes| < 0x1_0000_0000
    ensures Consistent(WithFile(v, n, name, bytes))
  {
    hide *;
    var ch, t := Witnesses(v);
    var ch', t' := AppendedKeeps(v, ch, t, n, names, name, bytes);
    ConsistentIntro(WithFile(v, n, name, bytes), ch', t');
  }

  lemma SizedBuffer(bytes: seq<byte>)
    requires |bytes| < 0x1_0000_0000
    ensures Sized(Buffer(bytes))
  {
  }

  lemma RootInView(v: Volume, ch: Chains, t: Tree)
    requires Inv(v, ch, t) && v.kind.Fat16?
    ensures 0 in t.view
  {
  }

  lemma LaidOutEnd(v: Volume, n: nat, k: nat, name: ShortName, bytes: seq<byte>)
    requires v.kind.Fat16? && v.csize == 512 && |v.fat| == 124 && 2 <= n && n + Clusters(|bytes|, 512) <= 124 && Clusters(|bytes|, 512) > 0
    ensures var w := LaidOut(v, n, k, name, bytes);
      w.kind.Fat16? && n + Clusters(|bytes|, 512) - 1 < |w.fat| && IsEoc(Fat16, w.fat[n + Clusters(|bytes|, 512) - 1])
  {
    var need := Clusters(|bytes|, 512);
    hide Clusters, FileSlot, Fill, Run;
    var fat' := seq(124, c requires 0 <= c < 124 => if n <= c < n + need then NextMark(n, need, c) else v.fat[c]);
    LinkRun(v.fat, fat', n, need);
  }

  lemma RemarkedPut(w: Volume, c: nat, loc: Loc, s: Slot)
    requires c < |w.fat|
    ensures PutAt(w.(fat := w.fat[c := LAST_MARK]), loc, s) == Remarked(PutAt(w, loc, s), c)
  {
  }

  lemma BootIntro(img: Image)
    requires |img| == IMAGE_SIZE
    requires img[11] == 0 && img[12] == 2 && img[13] == 1 && img[14] == 1 && img[15] == 0 && img[16] == 1
    requires img[17] == 64 && img[18] == 0 && img[19] == 128 && img[20] == 0 && img[22] == 1 && img[23] == 0
    ensures BootOk(img)
  {
  }

  lemma SpliceKeeps(img: Image, a: nat, bytes: seq<byte>)
    requires 512 <= a && a + |bytes| <= |img|
    ensures forall i :: 0 <= i < 512 ==> Splice(img, a, bytes)[i] == img[i]
  {
  }

  lemma RootSlotAt(k: nat)
    ensures SlotAddress(G, Loc(0, k)) == 1024 + 32 * k
  {
  }

  lemma HighBytesZero(n: nat)
    requires n < 0x1_0000
    ensures Byte2(n) == 0 && Byte3(n) == 0
  {
    LowHigh(n);
    LowHigh(High(n));
    hide Low, High;
    assert High(High(n)) == 0;
    ZeroBytes();
  }

  lemma ZeroBytes()
    ensures Low(0) == 0 && High(0) == 0
  {
  }

  /** Clearing a slot and setting its fields writes the record. */
  lemma FileSlotInPlace(img: Image, img1: Image, img': Image, a: nat, name: ShortName, head: nat, size: nat)
    requires a + 32 <= |img| && img1 == Splice(img, a, Fresh(name, ATTR_FILE)) && head < 0x1_0000
    requires img' == img1[a + 26 := Byte0(head)][a + 27 := Byte1(head)]
      [a + 28 := Byte0(size)][a + 29 := Byte1(size)][a + 30 := Byte2(size)][a + 31 := Byte3(size)]
    ensures img' == Splice(img, a, FileSlot(name, head, size))
  {
    FreshBytes(name, ATTR_FILE);
    HighBytesZero(head);
    hide Byte0, Byte1, Byte2, Byte3, Fresh;
    var s := FileSlot(name, head, size);
    assert forall i :: 0 <= i < 32 ==> img'[a + i] == s[i];
  }

  lemma NextMarkIs(n: nat, need: nat, c: nat)
    ensures NextMark(n, need, c) == if c + 1 == n + need then LAST_MARK else c + 1
  {
  }

  lemma LaidTaken(v0: Volume, v: Volume, n: nat, k: nat, need: nat)
    requires Packed(v0, n, k) && need > 0 && n + need <= 124
    requires n + need - 1 < |Link(Fat16, v0.fat, Run(n, need))| && v.fat == Link(Fat16, v0.fat, Run(n, need))[n + need - 1 := LAST_MARK]
    ensures |v.fat| == 124 && forall c :: 2 <= c < 124 ==> (v.fat[c] == 0 <==> c >= n + need)
  {
    hide Link, Run;
    LaidTable(v0, n, need, v.fat);
  }

  /**
   A recorded file keeps the volume consistent: with the engine's own write when its clusters are
   counted right, and as a record without data when the count wraps to none.
   */
  lemma RecordedConsistent(v: Volume, n: nat, names: seq<ShortName>, name: ShortName, bytes: seq<byte>)
    requires Shape(v) && Consistent(v) && Built(v, n, names) && |names| < 64 && name !in names && Nameable(name)
    requires |bytes| < 0x1_0000_0000 && n + Counted(|bytes|) <= 124 && 0 < v.csize
    ensures Consistent(Recorded(v, n, |names|, name, bytes))
  {
    hide *;
    CountedIs(|bytes|);
    BuiltRoot(v, n, names);
    RecordedIs(v, n, |names|, name, bytes);
    if Counted(|bytes|) > 0 {
      AppendedIs(v, n, names, name, bytes);
      AppendedConsistent(v, n, names, name, bytes);
    } else {
      var s := FileSlot(name, 0, |bytes|);
      var ch, t := Witnesses(v);
      RootInView(v, ch, t);
      RecordDecoded(name, |bytes|);
      CreateInRoot(v, n, names, name, s);
      var r0 := LocateStep(v, ch, t, 0, name);
      var ch', t', r := CreateStep(v, ch, t, 0, s);
      ConsistentIntro(PutAt(v, Loc(0, |names|), s), ch', t');
    }
  }

  /** With its clusters counted right, a recorded file is what the volume engine would write, up to the end-of-chain mark. */
  lemma RecordedIsWritten(v: Volume, n: nat, names: seq<ShortName>, name: ShortName, bytes: seq<byte>)
    requires Shape(v) && Built(v, n, names) && |names| < 64 && name !in names
    requires |bytes| + 511 < 0x1_0000_0000 && n + Counted(|bytes|) <= 124 && 0 < v.csize
    ensures Recorded(v, n, |names|, name, bytes) == WithFile(v, n, name, bytes)
    ensures Write(v, 0, name, ReplaceAll, Buffer(bytes)).ok
  {
    hide *;
    CountedIs(|bytes|);
    BuiltRoot(v, n, names);
    RecordedIs(v, n, |names|, name, bytes);
    AppendedIs(v, n, names, name, bytes);
    WriteLaysOut(v, n, names, name, bytes);
    if Counted(|bytes|) == 0 {
      LaidOutIs(v, n, |names|, name, bytes);
      RunNone(n);
      LinkNil(v.kind, v.fat);
      FillNil(v.data, bytes, 512);
      SameVolume(v);
    }
  }

  /** The image buffer and how much of it is in use. */
  class ImageBuilder {
    const image: array<byte>
    var next: nat
    var used: nat
    ghost var v: Volume
    ghost var names: seq<ShortName>

    /** The buffer stores the volume `v`. */
    ghost predicate Stored()
      reads this`v, image
    {
      Shows(G, image[..], v) && BootOk(image[..])
    }

    /** The counters tell how much of the volume is in use. */
    ghost predicate Valid()
      reads this, image
    {
      Stored() && Packed(v, next, used)
    }

    /** The volume holds exactly the files `names`, and is consistent. */
    ghost predicate Sound()
      reads this
    {
      Built(v, next, names) && used == |names| && Consistent(v)
    }

    lemma Parts()
      requires Stored()
      ensures Shows(G, image[..], v) && BootOk(image[..]) && Shape(v)
      ensures image.Length == IMAGE_SIZE && |v.fat| == |v.data| == 124 && v.csize == 512 && v.kind.Fat16?
    {
      ShownShape(G, image[..], v);
    }

    lemma Rebuild()
      requires Shows(G, image[..], v) && BootOk(image[..])
      ensures Stored()
    {
    }

    lemma ValidParts()
      requires Valid()
      ensures Stored() && Packed(v, next, used)
    {
    }

    lemma ValidIntro()
      requires Stored() && Packed(v, next, used)
      ensures Valid()
    {
    }

    lemma SoundIs()
      ensures Sound() <==> Built(v, next, names) && used == |names| && Consistent(v)
    {
    }

    /** Clears the buffer, writes the boot sector and reserves the first two table entries. */
    constructor ()
      ensures Valid() && Sound() && fresh(image) && v == EmptyVolume() && names == []
    {
      image := new byte[IMAGE_SIZE](_ => 0);
      next, used := 2, 0;
      v, names := EmptyVolume(), [];
      new;
      hide *;
      WriteBootSector();
      image[512], image[513], image[514], image[515] := 0xF8, 0xFF, 0xFF, 0xFF;
      EmptyShown(image[..]);
      BootIntro(image[..]);
      Rebuild();
      EmptyBuilt();
      EmptyConsistent();
      ConsistentIntro(EmptyVolume(), map[], EmptyTree());
      BuiltIsPacked(EmptyVolume(), 2, []);
      SoundIs();
      ValidIntro();
    }

    method WriteBootSector()
      requires image.Length == IMAGE_SIZE
      modifies image
      ensures forall i :: 512 <= i < IMAGE_SIZE ==> image[i] == old(image[i])
      ensures BootOk(image[..])
    {
      CopyBytes(0, BOOT_HEAD);
      HeadCopied(old(image[..]), image[..]);
      image[510], image[511] := 0x55, 0xAA;
    }

    method SetFatEntry(c: nat, value: nat)
      requires Stored() && c < |v.fat| && value < 0x1_0000
      modifies this`v, image
      ensures Stored() && v == old(v).(fat := old(v).fat[c := value])
    {
      hide *;
      Sizes();
      Parts();
      var a := 512 + 2 * c;
      ghost var img := image[..];
      image[a], image[a + 1] := Byte0(value), Byte1(value);
      WordStored(img, image[..], a, value);
      EntryStored(img, image[..], v, c, value);
      TableSplice(img, image[..], c);
      BootKept(img, image[..]);
      v := v.(fat := v.fat[c := value]);
      Rebuild();
    }

    /** Copies bytes into block `c`. */
    method StoreInBlock(c: nat, offset: nat, bytes: seq<byte>)
      requires Stored() && c < |v.data| && offset + |bytes| <= |v.data[c]|
      modifies this`v, image
      ensures Stored() && v == old(v).(data := old(v).data[c := Overwrite(old(v).data[c], offset, bytes)])
    {
      hide *;
      Parts();
      TableAt(c);
      SpliceBlock(G, image[..], v, c, offset, bytes);
      var a := BlockAt(G, c) + offset;
      ghost var img := image[..];
      CopyBytes(a, bytes);
      SpliceKeeps(img, a, bytes);
      BootKept(img, image[..]);
      v := v.(data := v.data[c := Overwrite(v.data[c], offset, bytes)]);
      Rebuild();
    }

    method CopyBytes(a: nat, bytes: seq<byte>)
      requires a + |bytes| <= image.Length
      modifies image
      ensures image[..] == Splice(old(image[..]), a, bytes)
    {
      var i := 0;
      while i < |bytes|
        invariant i <= |bytes|
        invariant image[..] == Splice(old(image[..]), a, bytes[..i])
      {
        image[a + i] := bytes[i];
        i := i + 1;
      }
      assert bytes[..i] == bytes;
    }

    /** Fills cluster `c` with the next data, zero padded. */
    method StoreChunk(c: nat, cursor: seq<byte>) returns (n: nat)
      requires Stored() && 2 <= c < |v.data|
      modifies this`v, image
      ensures Stored() && v == old(v).(data := old(v).data[c := Chunk(cursor, 512)])
      ensures n <= |cursor| && cursor[n..] == Drop(cursor, 512)
    {
      hide *;
      Parts();
      ClusterFull(v, c);
      ChunkInPlace(v, c, cursor);
      n := if |cursor| < 512 then |cursor| else 512;
      StoreInBlock(c, 0, cursor[..n]);
      StoreInBlock(c, n, Zeros(512 - n));
    }

    /** Writes the record of a file in root slot `k`. */
    method StoreRecord(k: nat, name: ShortName, head: nat, size: nat)
      requires Stored() && IsLoc(v.data, Loc(0, k)) && head < 0x1_0000
      modifies this`v, image
      ensures Stored() && v == PutAt(old(v), Loc(0, k), FileSlot(name, head, size))
    {
      hide *;
      Parts();
      TableAt(0);
      SlotInside(G, image[..], v, Loc(0, k));
      SlotAddressIs(G, Loc(0, k));
      ZerosLength(32);
      var a := 1024 + 32 * k;
      RootSlotAt(k);
      ghost var img := image[..];
      CopyBytes(a, Zeros(32));
      CopyBytes(a, name);
      image[a + 11] := ATTR_FILE;
      FreshInPlace(img, a, name, ATTR_FILE);
      ghost var img1 := image[..];
      image[a + 26], image[a + 27] := Byte0(head), Byte1(head);
      image[a + 28], image[a + 29], image[a + 30], image[a + 31] := Byte0(size), Byte1(size), Byte2(size), Byte3(size);
      FileSlotInPlace(img, img1, image[..], a, name, head, size);
      SlotWritten(G, img, image[..], v, Loc(0, k), FileSlot(name, head, size));
      SpliceKeeps(img, a, FileSlot(name, head, size));
      BootKept(img, image[..]);
      v := PutAt(v, Loc(0, k), FileSlot(name, head, size));
      Rebuild();
    }

    /**
     Appends a file if there is room for its record and its data; otherwise the image stays as it
     is.  A name that can be used and is not yet there keeps the volume consistent.
     */
    method AppendFile(name: ShortName, src: Source)
      requires Valid() && (src.Buffer? ==> |src.bytes| < 0x1_0000_0000)
      modifies this, image
      ensures Valid() && 0 < old(v).csize
      ensures var need := if src.Null? then 0 else Counted(|src.bytes|);
        if src.Null? || old(used) == 64 || old(next) - 2 + need > MAX_CLUSTERS
        then v == old(v) && next == old(next) && used == old(used) && names == old(names)
        else
          && v == Recorded(old(v), old(next), old(used), name, src.bytes)
          && next == old(next) + need && used == old(used) + 1 && names == old(names) + [name]
      ensures old(Sound()) && Nameable(name) && name !in old(names) ==> Sound()
    {
      hide *;
      Sizes();
      ValidParts();
      Parts();
      PackedParts(v, next, used);
      if src.Null? || used >= ROOT_ENTRIES {
        return;
      }
      var bytes := src.bytes;
      var need := Wrap32(|bytes| + 512 - 1) / 512;
      CountedIs(|bytes|);
      if need > 0 && next - 2 + need > MAX_CLUSTERS {
        return;
      }
      SoundIs();
      RecordedIs(v, next, used, name, bytes);
      LaidOutIs(v, next, used, name, bytes);
      ghost var sound := Sound() && Nameable(name) && name !in names;
      if sound {
        RecordedConsistent(v, next, names, name, bytes);
      }
      ghost var v0 := v;
      var start := 0;
      if need > 0 {
        start := next;
        LaidStart(v, next, bytes);
        var c, cursor := next, bytes;
        var i := 0;
        while i < need
          invariant i <= need && c == next + i && Stored() && Laid(v0, v, next, need, i, bytes, cursor)
          invariant |v.fat| == |v.data| == 124 && unchanged(`next) && unchanged(`used) && unchanged(`names)
        {
          LaidParts(v0, v, next, need, i, bytes, cursor);
          ghost var v1 := v;
          var n := StoreChunk(c, cursor);
          NextMarkIs(next, need, c);
          ghost var v2 := v1.(fat := v1.fat[next + i := NextMark(next, need, next + i)], data := v.data);
          LaidStep(v0, v1, v2, next, need, i, bytes, cursor);
          var value := if |cursor[n..]| > 0 then c + 1 else LAST_MARK;
          SetFatEntry(c, value);
          cursor := cursor[n..];
          c := c + 1;
          i := i + 1;
        }
        LaidDone(v0, v, next, need, bytes, cursor);
        RootUntouched(v0, next, need, bytes);
        LaidTaken(v0, v, next, used, need);
        ghost var w := v0.(fat := Link(Fat16, v0.fat, Run(next, need)), data := Fill(v0.data, Run(next, need), bytes, 512));
        RemarkedPut(w, next + need - 1, Loc(0, used), FileSlot(name, next, |bytes|));
      }
      PackedStep(v0, next, used, need, v, FileSlot(name, start, |bytes|));
      if sound {
        BuiltStep(v0, next, names, name, need, v, start, |bytes|);
      }
      StoreRecord(used, name, start, |bytes|);
      next, used := next + need, used + 1;
      names := names + [name];
      SoundIs();
      ValidIntro();
    }
  }

  /** A file to append; its size is a 32-bit number. */
  datatype FileSpec = FileSpec(name: ShortName, src: Source)

  predicate Sized32(files: seq<FileSpec>) {
    forall i :: 0 <= i < |files| && files[i].src.Buffer? ==> |files[i].src.bytes| < 0x1_0000_0000
  }

  /** Names that can be used, each once. */
  ghost predicate DistinctNames(files: seq<FileSpec>) {
    && (forall i :: 0 <= i < |files| ==> Nameable(files[i].name))
    && (forall i, j :: 0 <= i < j < |files| ==> files[i].name != files[j].name)
  }

  /**
   Builds an image from files and mounts it.  Whatever fits or is skipped, the image mounts with
   the builder's geometry; with distinct, usable names the mounted volume is consistent, so every
   run of operations on it stays so.
   */
  method BuildAndMount(files: seq<FileSpec>) returns (vol: FatVolume)
    requires Sized32(files)
    ensures fresh(vol) && fresh(vol.base) && vol.Valid()
    ensures Mount(vol.base[..]) == Some(vol.g) == Some(G)
    ensures DistinctNames(files) ==> Consistent(vol.v)
  {
    hide *;
    var b := new ImageBuilder();
    NamedStart(files);
    var i := 0;
    while i < |files|
      invariant i <= |files| && fresh(b) && fresh(b.image) && b.Valid()
      invariant DistinctNames(files) ==> b.Sound() && Named(files, i, b.names)
    {
      SizedAt(files, i);
      if DistinctNames(files) {
        NamedNext(files, i, b.names);
      }
      b.AppendFile(files[i].name, files[i].src);
      i := i + 1;
    }
    b.ValidParts();
    b.SoundIs();
    b.Parts();
    BootMounts(b.image[..]);
    vol := new FatVolume(G, b.image, b.v);
    MountedValid(vol);
  }

  lemma SizedAt(files: seq<FileSpec>, i: nat)
    requires Sized32(files) && i < |files|
    ensures files[i].src.Buffer? ==> |files[i].src.bytes| < 0x1_0000_0000
  {
  }

  /** The names used so far are among the first `i`. */
  ghost predicate Named(files: seq<FileSpec>, i: nat, names: seq<ShortName>) {
    forall n :: n in names ==> exists j :: 0 <= j < i && j < |files| && files[j].name == n
  }

  lemma NamedStart(files: seq<FileSpec>)
    ensures Named(files, 0, [])
  {
  }

  lemma NamedNext(files: seq<FileSpec>, i: nat, names: seq<ShortName>)
    requires DistinctNames(files) && i < |files| && Named(files, i, names)
    ensures Nameable(files[i].name) && files[i].name !in names
    ensures Named(files, i + 1, names) && Named(files, i + 1, names + [files[i].name])
  {
  }

  lemma MountedValid(vol: FatVolume)
    requires Shows(vol.g, vol.base[..], vol.v)
    ensures vol.Valid()
  {
  }
}
