/**
 Where a volume's table copies, root directory and clusters lie in the flat image, and what
 it means that the image stores a volume.
 */
module FatLayout {
  import opened Arith
  import opened Bytes
  import opened FatTable
  import opened FatStore

  type Image = seq<byte>

  /** The geometry fields read from the boot sector, in sectors. */
  datatype Geometry = Geometry(
    kind: Kind, bps: nat, spc: nat, reserved: nat, copies: nat, spf: nat,
    rootSector: nat, rootEntries: nat, dataStart: nat, clusters: nat, rootHead: nat)

  function Width(kind: Kind): nat {
    if kind.Fat32? then 4 else 2
  }

  /** The bytes that `n` table entries take. */
  function EntryBytes(kind: Kind, n: nat): nat {
    if kind.Fat32? then 4 * n else 2 * n
  }

  function ClusterSize(g: Geometry): nat {
    Times(g.bps, g.spc)
  }

  /**
   What the engine needs of a volume and does not check itself: the table has an entry for
   every cluster, the areas follow each other, and the buffer covers them all.
   */
  ghost predicate WellFormed(g: Geometry, size: nat) {
    && 0 < g.bps && 0 < g.spc && 0 < g.copies
    && 64 <= ClusterSize(g)
    && size <= 0x1_0000_0000
    && (g.kind.Fat16? <==> g.clusters < 65525)
    && 0 < g.clusters
    && EntryBytes(g.kind, g.clusters + 2) <= Times(g.bps, g.spf)
    && g.rootSector == g.reserved + Times(g.spf, g.copies)
    && Times(g.bps, g.rootSector) + g.rootEntries * 32 <= Times(g.bps, g.dataStart)
    && Times(g.bps, g.dataStart) + Times(ClusterSize(g), g.clusters) <= size
    && (g.kind.Fat32? ==> g.rootHead >= 2 && g.rootEntries == 0)
    && (g.kind.Fat16? ==> g.rootHead == 0)
  }

  // ---------------------------------------------------------------- addresses

  /** The byte address of entry `c` in table copy `k`. */
  function FatAt(g: Geometry, k: nat, c: nat): nat {
    Times(g.bps, g.reserved + Times(g.spf, k)) + EntryBytes(g.kind, c)
  }

  function RootAt(g: Geometry): nat {
    Times(g.bps, g.rootSector)
  }

  function DataAt(g: Geometry): nat {
    Times(g.bps, g.dataStart)
  }

  /** The byte address of block `c`: the root area for 0, a data cluster from 2 on. */
  function BlockAt(g: Geometry, c: nat): nat {
    if c < 2 then RootAt(g) else DataAt(g) + Times(ClusterSize(g), c - 2)
  }

  function BlockSize(g: Geometry, c: nat): nat {
    if c == 0 then g.rootEntries * 32 else if c == 1 then 0 else ClusterSize(g)
  }

  /** The value of a table entry stored at address `a`; FAT32 ignores the top four bits. */
  function FatWord(kind: Kind, img: Image, a: nat): nat
    requires a + Width(kind) <= |img|
  {
    if kind.Fat32? then Rem(Le32(img[a], img[a + 1], img[a + 2], img[a + 3]), 0x1000_0000)
    else Le16(img[a], img[a + 1])
  }

  // ---------------------------------------------------------------- arithmetic of the layout

  lemma CopyAt(g: Geometry, k: nat)
    ensures FatAt(g, k, 0) == Times(g.bps, g.reserved) + Times(Times(g.bps, g.spf), k)
  {
    TimesAdd(g.bps, g.reserved, Times(g.spf, k));
    TimesAssoc(g.bps, g.spf, k);
  }

  lemma EntryIn(g: Geometry, k: nat, c: nat)
    ensures FatAt(g, k, c) == FatAt(g, k, 0) + EntryBytes(g.kind, c)
    ensures EntryBytes(g.kind, c + 1) == EntryBytes(g.kind, c) + Width(g.kind)
  {
  }

  lemma TableRoom(g: Geometry, size: nat)
    requires WellFormed(g, size)
    ensures EntryBytes(g.kind, g.clusters + 2) <= Times(g.bps, g.spf)
    ensures RootAt(g) == FatAt(g, g.copies, 0) <= DataAt(g) <= size
  {
  }

  /** Every table entry lies inside its copy, and every copy before the root area. */
  lemma FatInside(g: Geometry, size: nat, k: nat, c: nat)
    requires WellFormed(g, size) && k < g.copies && c < g.clusters + 2
    ensures FatAt(g, k, 0) <= FatAt(g, k, c)
    ensures FatAt(g, k, c) + Width(g.kind) <= FatAt(g, k, 0) + Times(g.bps, g.spf) <= RootAt(g) <= DataAt(g) <= size
  {
    TableRoom(g, size);
    EntriesOrdered(g.kind, c + 1, g.clusters + 2);
    hide *;
    CopyAt(g, k);
    CopyAt(g, g.copies);
    EntryIn(g, k, c);
    TimesNext(Times(g.bps, g.spf), k, g.copies);
  }

  lemma EntriesOrdered(kind: Kind, a: nat, b: nat)
    requires a <= b
    ensures EntryBytes(kind, a) <= EntryBytes(kind, b)
  {
  }

  /** Different entries, of the same or of different copies, do not overlap. */
  lemma FatApart(g: Geometry, size: nat, k: nat, c: nat, k': nat, c': nat)
    requires WellFormed(g, size) && k < g.copies && c < g.clusters + 2 && k' < g.copies && c' < g.clusters + 2
    requires k != k' || c != c'
    ensures FatAt(g, k, c) + Width(g.kind) <= FatAt(g, k', c') || FatAt(g, k', c') + Width(g.kind) <= FatAt(g, k, c)
  {
    hide *;
    FatInside(g, size, k, c);
    FatInside(g, size, k', c');
    CopyAt(g, k);
    CopyAt(g, k');
    EntryIn(g, k, c);
    EntryIn(g, k', c');
    if k < k' {
      TimesNext(Times(g.bps, g.spf), k, k');
    } else if k' < k {
      TimesNext(Times(g.bps, g.spf), k', k);
    } else if c < c' {
      EntriesOrdered(g.kind, c + 1, c');
    } else {
      EntriesOrdered(g.kind, c' + 1, c);
    }
  }

  lemma AreasInOrder(g: Geometry, size: nat)
    requires WellFormed(g, size)
    ensures RootAt(g) + g.rootEntries * 32 <= DataAt(g) && DataAt(g) + Times(ClusterSize(g), g.clusters) <= size
  {
  }

  /** Every block lies behind the tables and inside the image. */
  lemma BlockInside(g: Geometry, size: nat, c: nat)
    requires WellFormed(g, size) && c < g.clusters + 2
    ensures RootAt(g) <= BlockAt(g, c) && BlockAt(g, c) + BlockSize(g, c) <= size
    ensures c < 2 ==> BlockAt(g, c) + BlockSize(g, c) <= DataAt(g)
    ensures c >= 2 ==> DataAt(g) <= BlockAt(g, c)
  {
    hide WellFormed, ClusterSize, RootAt, DataAt;
    AreasInOrder(g, size);
    if c >= 2 {
      TimesNext(ClusterSize(g), c - 2, g.clusters);
    }
  }

  /** Different blocks do not overlap. */
  lemma BlocksApart(g: Geometry, size: nat, c: nat, c': nat)
    requires WellFormed(g, size) && c < g.clusters + 2 && c' < g.clusters + 2 && c != c'
    ensures BlockAt(g, c) + BlockSize(g, c) <= BlockAt(g, c') || BlockAt(g, c') + BlockSize(g, c') <= BlockAt(g, c)
  {
    hide WellFormed, ClusterSize, RootAt, DataAt;
    BlockInside(g, size, c);
    BlockInside(g, size, c');
    if 2 <= c < c' {
      TimesNext(ClusterSize(g), c - 2, c' - 2);
    } else if 2 <= c' < c {
      TimesNext(ClusterSize(g), c' - 2, c - 2);
    }
  }

  // ---------------------------------------------------------------- what the image stores

  ghost predicate FatShown(g: Geometry, img: Image, fat: Table)
    requires WellFormed(g, |img|)
  {
    && |fat| == g.clusters + 2
    && forall k, c :: 0 <= k < g.copies && 0 <= c < |fat| ==>
      FatAt(g, k, c) + Width(g.kind) <= |img| && FatWord(g.kind, img, FatAt(g, k, c)) == fat[c]
  }

  ghost predicate BlockShown(g: Geometry, img: Image, data: Blocks, c: nat)
    requires c < |data|
  {
    && BlockAt(g, c) + BlockSize(g, c) <= |img|
    && data[c] == img[BlockAt(g, c)..BlockAt(g, c) + BlockSize(g, c)]
  }

  ghost predicate DataShown(g: Geometry, img: Image, data: Blocks) {
    && |data| == g.clusters + 2
    && forall c :: 0 <= c < |data| ==> BlockShown(g, img, data, c)
  }

  /** The image stores the volume, the same table in every copy. */
  ghost predicate Shows(g: Geometry, img: Image, v: Volume) {
    && WellFormed(g, |img|)
    && v.kind == g.kind && v.csize == ClusterSize(g) && v.rootHead == g.rootHead
    && FatShown(g, img, v.fat)
    && DataShown(g, img, v.data)
  }

  /** Images that differ at most inside [lo, hi). */
  ghost predicate SameOutside(img: Image, img': Image, lo: nat, hi: nat) {
    |img'| == |img| && forall i :: 0 <= i < |img| && !(lo <= i < hi) ==> img'[i] == img[i]
  }

  lemma SliceSame(img: Image, img': Image, lo: nat, hi: nat, a: nat, b: nat)
    requires SameOutside(img, img', lo, hi) && a <= b <= |img| && (b <= lo || hi <= a || a == b)
    ensures img'[a..b] == img[a..b]
  {
  }

  /** Bytes of one block change: the table stays, and the volume sees the new block. */
  lemma BlockStored(g: Geometry, img: Image, img': Image, data: Blocks, c: nat, block: seq<byte>)
    requires WellFormed(g, |img|) && DataShown(g, img, data) && c < |data| && |block| == BlockSize(g, c)
    requires SameOutside(img, img', BlockAt(g, c), BlockAt(g, c) + BlockSize(g, c))
    requires BlockAt(g, c) + BlockSize(g, c) <= |img'| && img'[BlockAt(g, c)..BlockAt(g, c) + BlockSize(g, c)] == block
    ensures DataShown(g, img', data[c := block])
  {
    var data' := data[c := block];
    forall e | 0 <= e < |data'|
      ensures BlockShown(g, img', data', e)
    {
      assert BlockShown(g, img, data, e);
      if e != c {
        BlocksApart(g, |img|, c, e);
        SliceSame(img, img', BlockAt(g, c), BlockAt(g, c) + BlockSize(g, c), BlockAt(g, e), BlockAt(g, e) + BlockSize(g, e));
      }
    }
  }

  /** Writing behind the tables does not touch the table. */
  lemma FatKept(g: Geometry, img: Image, img': Image, fat: Table, lo: nat, hi: nat)
    requires WellFormed(g, |img|) && FatShown(g, img, fat) && SameOutside(img, img', lo, hi) && RootAt(g) <= lo
    ensures FatShown(g, img', fat)
  {
    forall k, c | 0 <= k < g.copies && 0 <= c < |fat|
      ensures FatAt(g, k, c) + Width(g.kind) <= |img'| && FatWord(g.kind, img', FatAt(g, k, c)) == fat[c]
    {
      FatInside(g, |img|, k, c);
    }
  }

  /** Writing inside the tables touches neither the root directory nor any cluster. */
  lemma DataKept(g: Geometry, img: Image, img': Image, data: Blocks, lo: nat, hi: nat)
    requires WellFormed(g, |img|) && DataShown(g, img, data) && SameOutside(img, img', lo, hi) && hi <= RootAt(g)
    ensures DataShown(g, img', data)
  {
    forall e | 0 <= e < |data|
      ensures BlockShown(g, img', data, e)
    {
      assert BlockShown(g, img, data, e);
      BlockInside(g, |img|, e);
      SliceSame(img, img', lo, hi, BlockAt(g, e), BlockAt(g, e) + BlockSize(g, e));
    }
  }

  /** Clusters are at least 64 bytes, so there are not many of them. */
  lemma ClustersFew(g: Geometry, size: nat)
    requires WellFormed(g, size)
    ensures g.clusters <= 0x400_0000 && (g.kind.Fat16? ==> g.clusters < 65525) && 64 <= ClusterSize(g)
    ensures g.kind.Fat16? <==> g.rootHead == 0
    ensures g.rootHead != 1
  {
    TimesGrows(64, ClusterSize(g), g.clusters);
    TimesIs(64, g.clusters);
  }

  /** A stored volume has the shape the engine works with. */
  lemma ShownShape(g: Geometry, img: Image, v: Volume)
    requires Shows(g, img, v)
    ensures Shape(v)
  {
    ClustersFew(g, |img|);
    hide WellFormed, ClusterSize;
    forall c | 2 <= c < |v.data|
      ensures |v.data[c]| == v.csize
    {
      assert BlockShown(g, img, v.data, c);
    }
  }
}
