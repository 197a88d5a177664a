/**
 Reading the geometry of a volume from its boot sector, in the 32-bit arithmetic of the
 original, and exactly when that geometry is one the engine can work on.
 */
module FatMount {
  import opened Common
  import opened Arith
  import opened Bytes
  import opened FatTable
  import opened FatLayout

  const TWO32: nat := 0x1_0000_0000
  const FAT16_LIMIT: nat := 65525

  function Word16(img: Image, a: nat): nat
    requires a + 2 <= |img|
  {
    Le16(img[a], img[a + 1])
  }

  function DWord(img: Image, a: nat): nat
    requires a + 4 <= |img|
  {
    Le32(img[a], img[a + 1], img[a + 2], img[a + 3])
  }

  /** The fields of the boot sector that describe the volume. */
  datatype Boot = Boot(bps: nat, spc: nat, reserved: nat, copies: nat, rootEntries: nat, total: nat, spf: nat, root: nat)

  function BootOf(img: Image): Boot
    requires 512 <= |img|
  {
    Boot(
      Word16(img, 11), img[13], Word16(img, 14), img[16], Word16(img, 17),
      if Word16(img, 19) != 0 then Word16(img, 19) else DWord(img, 32),
      if Word16(img, 22) != 0 then Word16(img, 22) else DWord(img, 36),
      DWord(img, 44))
  }

  function RootSectors(b: Boot): nat
    requires b.bps > 0
  {
    Quot(b.rootEntries * 32 + b.bps - 1, b.bps)
  }

  function TableEnd(b: Boot): nat {
    b.reserved + Times(b.spf, b.copies)
  }

  /** What is left for data, as an unsigned 32-bit difference. */
  function DataSectors(b: Boot): nat
    requires b.bps > 0
  {
    var used := Wrap32(TableEnd(b) + RootSectors(b));
    if b.total >= used then b.total - used else b.total + TWO32 - used
  }

  /** FAT32 has no fixed root area; its geometry places an empty one behind the tables. */
  function GeometryOf(b: Boot): Option<Geometry> {
    if b.bps == 0 || b.spc == 0 || b.copies == 0 || DataSectors(b) >= 0x8000_0000 then None
    else
      var clusters, tables := Quot(DataSectors(b), b.spc), Wrap32(TableEnd(b));
      if clusters == 0 then None
      else if clusters < FAT16_LIMIT then
        Some(Geometry(Fat16, b.bps, b.spc, b.reserved, b.copies, b.spf, tables, b.rootEntries, Wrap32(tables + RootSectors(b)), clusters, 0))
      else
        Some(Geometry(Fat32, b.bps, b.spc, b.reserved, b.copies, b.spf, tables, 0, tables, clusters, if b.root < 2 then 2 else b.root))
  }

  /** The volume description the engine starts from; none if the buffer holds no volume. */
  function Mount(img: Image): Option<Geometry> {
    if |img| < 512 then None else GeometryOf(BootOf(img))
  }

  /** The checks the original leaves out: nothing wraps, the table is long enough, the buffer covers the clusters. */
  predicate Unchecked(g: Geometry, size: nat) {
    && 64 <= ClusterSize(g) && size <= TWO32
    && g.reserved + Times(g.spf, g.copies) <= g.dataStart
    && g.reserved + Times(g.spf, g.copies) < TWO32
    && EntryBytes(g.kind, g.clusters + 2) <= Times(g.bps, g.spf)
    && Times(g.bps, g.dataStart) + Times(ClusterSize(g), g.clusters) <= size
  }

  lemma CeilingCovers(n: nat, b: nat)
    requires b > 0
    ensures n <= Times(b, Quot(n + b - 1, b)) && Quot(n + b - 1, b) <= n
  {
    var q := Quot(n + b - 1, b);
    QuotRem(n + b - 1, b);
    hide *;
    var m := if q > n then q else n + 1;
    TimesMono(b, n + 1, m);
    TimesAdd(b, n, 1);
    TimesOne(b);
    TimesGrows(1, b, n);
    TimesIs(1, n);
  }

  lemma TimesOne(b: nat)
    ensures Times(b, 1) == b
  {
  }

  lemma StartAfterTables(rootSector: nat, roots: nat, rootBytes: nat, bps: nat, dataStart: nat)
    requires bps > 0 && rootBytes <= Times(bps, roots) && dataStart == Wrap32(rootSector + roots) && roots < TWO32 && rootSector < TWO32
    ensures rootSector <= dataStart <==> Times(bps, rootSector) + rootBytes <= Times(bps, dataStart)
  {
    WrapCases(rootSector + roots);
    hide Wrap32, Times;
    if rootSector + roots < TWO32 {
      TimesAdd(bps, rootSector, roots);
    } else {
      TimesNext(bps, dataStart, rootSector);
    }
  }

  lemma RootBeforeData(b: Boot, g: Geometry)
    requires 0 < b.bps == g.bps && b.rootEntries < 0x1_0000 && g.rootSector < TWO32
    requires g.kind.Fat16? ==> g.rootEntries == b.rootEntries && g.dataStart == Wrap32(g.rootSector + RootSectors(b))
    requires g.kind.Fat32? ==> g.rootEntries == 0 && g.dataStart == g.rootSector
    ensures g.rootSector <= g.dataStart <==> Times(g.bps, g.rootSector) + g.rootEntries * 32 <= Times(g.bps, g.dataStart)
  {
    CeilingCovers(b.rootEntries * 32, b.bps);
    hide Wrap32, Times, Quot;
    if g.kind.Fat16? {
      StartAfterTables(g.rootSector, RootSectors(b), b.rootEntries * 32, b.bps, g.dataStart);
    }
  }

  /** The part of the equivalence that is about numbers only. */
  lemma GeometryWellFormed(g: Geometry, tables: nat, size: nat)
    requires 0 < g.bps && 0 < g.spc && 0 < g.copies && 0 < g.clusters && (g.kind.Fat16? <==> g.clusters < FAT16_LIMIT)
    requires (g.kind.Fat16? ==> g.rootHead == 0) && (g.kind.Fat32? ==> g.rootHead >= 2 && g.rootEntries == 0)
    requires tables == g.reserved + Times(g.spf, g.copies) && g.rootSector == Wrap32(tables)
    requires g.rootSector <= g.dataStart <==> Times(g.bps, g.rootSector) + g.rootEntries * 32 <= Times(g.bps, g.dataStart)
    ensures WellFormed(g, size) <==> Unchecked(g, size)
  {
    WrapCases(tables);
    hide ClusterSize, EntryBytes, Times, Wrap32;
  }

  /**
   A mounted geometry is one the engine can work on if and only if the checks that mounting
   leaves out hold: for every boot sector content and every buffer size.
   */
  lemma MountWellFormed(img: Image, size: nat)
    requires Mount(img).Some?
    ensures WellFormed(Mount(img).value, size) <==> Unchecked(Mount(img).value, size)
  {
    hide *;
    MountIs(img);
    LimitIs();
    var b, g := BootOf(img), Mount(img).value;
    RootEntriesSmall(img);
    WrapCases(TableEnd(b));
    RootBeforeData(b, g);
    GeometryWellFormed(g, TableEnd(b), size);
  }

  lemma RootEntriesSmall(img: Image)
    requires 512 <= |img|
    ensures BootOf(img).rootEntries < 0x1_0000
  {
  }

  lemma MountIs(img: Image)
    requires Mount(img).Some?
    ensures 512 <= |img| && GeometryOf(BootOf(img)) == Mount(img)
    ensures var b, g := BootOf(img), Mount(img).value;
      && b.bps > 0 && b.spc > 0 && b.copies > 0
      && g.bps == b.bps && g.spc == b.spc && g.reserved == b.reserved && g.copies == b.copies && g.spf == b.spf
      && 0 < g.clusters && (g.kind.Fat16? <==> g.clusters < FAT16_LIMIT)
      && TableEnd(b) == g.reserved + Times(g.spf, g.copies) && g.rootSector == Wrap32(TableEnd(b))
      && (g.kind.Fat16? ==> g.rootHead == 0 && g.rootEntries == b.rootEntries && g.dataStart == Wrap32(g.rootSector + RootSectors(b)))
      && (g.kind.Fat32? ==> g.rootHead >= 2 && g.rootEntries == 0 && g.dataStart == g.rootSector)
  {
    hide BootOf, RootSectors, DataSectors, Wrap32, Times, Quot;
  }

  /** The type follows the cluster count, and no valid cluster number of a FAT16 volume reads as end-of-chain. */
  lemma MountKeepsClustersBelowEnd(img: Image, c: nat)
    requires Mount(img).Some? && Mount(img).value.kind.Fat16? && c < Mount(img).value.clusters + 2
    ensures !IsEoc(Fat16, c)
  {
    hide BootOf, RootSectors, DataSectors, Wrap32, Times, Quot;
  }

  // ---------------------------------------------------------------- boot sectors a caller can trust, and one not to

  /** Told from the boot sector: the areas fit into the sectors it counts, and the buffer covers those. */
  predicate Covered(b: Boot, size: nat)
    requires b.bps > 0
  {
    TableEnd(b) + RootSectors(b) <= b.total && Times(b.bps, b.total) <= size <= TWO32
  }

  lemma TotalSmall(img: Image)
    requires 512 <= |img|
    ensures BootOf(img).total < TWO32
  {
  }

  lemma ClustersAre(img: Image)
    requires Mount(img).Some?
    ensures var b := BootOf(img); b.bps > 0 && b.spc > 0 && Mount(img).value.clusters == Quot(DataSectors(b), b.spc)
  {
    hide BootOf, RootSectors, DataSectors, Wrap32, Times, Quot;
  }

  lemma DataSectorsAre(b: Boot)
    requires b.bps > 0 && TableEnd(b) + RootSectors(b) <= b.total < TWO32
    ensures DataSectors(b) == b.total - (TableEnd(b) + RootSectors(b))
  {
    WrapCases(TableEnd(b) + RootSectors(b));
    hide Wrap32, TableEnd, RootSectors;
  }

  /** The clusters of a covered volume end within the sectors it counts. */
  lemma ClustersWithin(bps: nat, spc: nat, start: nat, data: nat, clusters: nat, total: nat)
    requires spc > 0 && clusters == Quot(data, spc) && start + data <= total
    ensures Times(bps, start) + Times(Times(bps, spc), clusters) <= Times(bps, total)
  {
    hide *;
    QuotRem(data, spc);
    TimesAssoc(bps, spc, clusters);
    TimesAdd(bps, start, Times(spc, clusters));
    TimesMono(bps, start + Times(spc, clusters), total);
  }

  lemma CoveredIs(b: Boot, size: nat)
    requires b.bps > 0
    ensures Covered(b, size) <==> TableEnd(b) + RootSectors(b) <= b.total && Times(b.bps, b.total) <= size <= TWO32
  {
  }

  lemma UncheckedIntro(g: Geometry, size: nat)
    requires 64 <= ClusterSize(g) && size <= TWO32
    requires g.reserved + Times(g.spf, g.copies) <= g.dataStart && g.reserved + Times(g.spf, g.copies) < TWO32
    requires EntryBytes(g.kind, g.clusters + 2) <= Times(g.bps, g.spf)
    requires Times(g.bps, g.dataStart) + Times(ClusterSize(g), g.clusters) <= size
    ensures Unchecked(g, size)
  {
  }

  lemma ClusterSizeIs(g: Geometry)
    ensures ClusterSize(g) == Times(g.bps, g.spc)
  {
  }

  /**
   A mounted volume whose areas fit into its sectors, whose buffer covers them and whose table
   has an entry for every cluster is one the engine can work on.
   */
  lemma CoveredIsWellFormed(img: Image, size: nat)
    requires Mount(img).Some? && BootOf(img).bps > 0 && Covered(BootOf(img), size)
    requires var g := Mount(img).value; 64 <= ClusterSize(g) && EntryBytes(g.kind, g.clusters + 2) <= Times(g.bps, g.spf)
    ensures WellFormed(Mount(img).value, size)
  {
    hide *;
    MountIs(img);
    LimitIs();
    var b, g := BootOf(img), Mount(img).value;
    TotalSmall(img);
    CoveredIs(b, size);
    ClustersAre(img);
    DataSectorsAre(b);
    WrapCases(TableEnd(b));
    WrapCases(TableEnd(b) + RootSectors(b));
    ClusterSizeIs(g);
    ClustersWithin(b.bps, b.spc, g.dataStart, DataSectors(b), g.clusters, b.total);
    UncheckedIntro(g, size);
    MountWellFormed(img, size);
  }

  /** The last entry of a table copy ends before the next copy, or the root area, exactly when the copy is long enough. */
  lemma TableHoldsIff(g: Geometry, k: nat)
    ensures FatAt(g, k, g.clusters + 1) + Width(g.kind) <= FatAt(g, k + 1, 0) <==> EntryBytes(g.kind, g.clusters + 2) <= Times(g.bps, g.spf)
  {
    CopyAt(g, k);
    CopyAt(g, k + 1);
    EntryIn(g, k, g.clusters + 1);
    hide FatAt;
  }

  // 512-byte sectors, one table of one sector, 64 root records, 1006 sectors in all
  const SHORT_TABLE: seq<byte> := [
    0, 0, 0, 0, 0, 0, 0, 0, 0, 0, 0,
    0, 2, 1, 1, 0, 1, 64, 0, 238, 3, 0, 1, 0]

  const SHORT: Geometry := Geometry(Fat16, 512, 1, 1, 1, 1, 2, 64, 6, 1000, 0)

  function ShortTable(): Image {
    SHORT_TABLE + Zeros(488)
  }

  lemma ShortTableBytes()
    ensures var img := ShortTable();
      && |img| == 512 && img[11] == 0 && img[12] == 2 && img[13] == 1 && img[14] == 1 && img[15] == 0 && img[16] == 1
      && img[17] == 64 && img[18] == 0 && img[19] == 238 && img[20] == 3 && img[22] == 1 && img[23] == 0
  {
    var head := SHORT_TABLE;
    assert |head| == 24 && head[11] == 0 && head[12] == 2 && head[13] == 1 && head[14] == 1 && head[15] == 0 && head[16] == 1;
    assert head[17] == 64 && head[18] == 0 && head[19] == 238 && head[20] == 3 && head[22] == 1 && head[23] == 0;
  }

  lemma ShortTableBoot()
    ensures |ShortTable()| == 512
    ensures var b := BootOf(ShortTable());
      b.bps == 512 && b.spc == 1 && b.reserved == 1 && b.copies == 1 && b.rootEntries == 64 && b.total == 1006 && b.spf == 1
  {
    ShortTableBytes();
    hide ShortTable, Le32;
  }

  lemma ShortTableSectors(b: Boot)
    requires b.bps == 512 && b.spc == 1 && b.reserved == 1 && b.copies == 1 && b.rootEntries == 64 && b.total == 1006 && b.spf == 1
    ensures RootSectors(b) == 4 && TableEnd(b) == 2 && DataSectors(b) == 1000 && Quot(DataSectors(b), b.spc) == 1000
    ensures Wrap32(TableEnd(b)) == 2 && Wrap32(Wrap32(TableEnd(b)) + RootSectors(b)) == 6
  {
    hide *;
    SectorsAre(b);
    LimitIs();
    QuotRemAre(2559, 512);
    QuotRemAre(1000, 1);
    TimesIs(1, 1);
    Le32RoundTrip(2);
    Le32RoundTrip(6);
  }

  lemma SectorsAre(b: Boot)
    requires b.bps > 0
    ensures RootSectors(b) == Quot(b.rootEntries * 32 + b.bps - 1, b.bps) && TableEnd(b) == b.reserved + Times(b.spf, b.copies)
    ensures var used := Wrap32(TableEnd(b) + RootSectors(b)); DataSectors(b) == if b.total >= used then b.total - used else b.total + TWO32 - used
  {
    hide Quot, Times, Wrap32;
  }

  lemma LimitIs()
    ensures TWO32 == 0x1_0000_0000
  {
  }

  /**
   This boot sector mounts, but its table of 256 entries is too short for 1000 clusters: for no
   buffer size is the volume well-formed, and the entry of its last cluster lies inside the root
   directory.
   */
  lemma ShortTableMounts()
    ensures Mount(ShortTable()) == Some(SHORT)
    ensures forall size :: !WellFormed(SHORT, size)
    ensures RootAt(SHORT) <= FatAt(SHORT, 0, SHORT.clusters + 1)
    ensures FatAt(SHORT, 0, SHORT.clusters + 1) + Width(Fat16) <= RootAt(SHORT) + SHORT.rootEntries * 32
  {
    hide *;
    ShortTableBoot();
    var b := BootOf(ShortTable());
    ShortTableSectors(b);
    ShortGeometry(b);
    MountUnfold(ShortTable());
    ShortAddresses();
    forall size
      ensures !WellFormed(SHORT, size)
    {
      ShortIllFormed(size);
    }
  }

  lemma MountUnfold(img: Image)
    requires 512 <= |img|
    ensures Mount(img) == GeometryOf(BootOf(img))
  {
  }

  lemma ShortGeometry(b: Boot)
    requires b.bps == 512 && b.spc == 1 && b.reserved == 1 && b.copies == 1 && b.rootEntries == 64 && b.spf == 1
    requires RootSectors(b) == 4 && TableEnd(b) == 2 && DataSectors(b) == 1000 && Quot(DataSectors(b), b.spc) == 1000
    requires Wrap32(TableEnd(b)) == 2 && Wrap32(Wrap32(TableEnd(b)) + RootSectors(b)) == 6
    ensures GeometryOf(b) == Some(SHORT)
  {
    hide RootSectors, TableEnd, DataSectors, Quot, Wrap32, Times;
  }

  lemma ShortAddresses()
    ensures RootAt(SHORT) == 1024 && FatAt(SHORT, 0, SHORT.clusters + 1) == 2514 && Width(Fat16) == 2 && SHORT.rootEntries == 64
  {
    TimesIs(1, 0);
    TimesIs(512, 1);
    TimesIs(512, 2);
    hide Times;
  }

  lemma ShortIllFormed(size: nat)
    ensures !WellFormed(SHORT, size)
  {
    TimesIs(512, 1);
    hide Times;
  }
}
