/**
 The image builder: a fresh FAT16 volume filled with files, laid out cluster after cluster.
 What it builds is, up to the end-of-chain mark it uses, what the volume engine would write.
 */
module FatImage {
  import opened Common
  import opened Arith
  import opened Bytes
  import opened FatTable
  import opened FatChains
  import opened FatSlots
  import opened FatStore
  import opened FatTree
  import opened FatOps
  import opened FatInvariant
  import opened FatSteps
  import opened FatLayout

  const ROOT_ENTRIES: nat := 64
  const MAX_CLUSTERS: nat := 122
  const IMAGE_SIZE: nat := 65536
  const LAST_MARK: nat := 0xFFFF

  const G: Geometry := Geometry(Fat16, 512, 1, 1, 1, 1, 2, 64, 6, 122, 0)

  /** The clusters `a`, `a + 1`, ... */
  function Run(a: nat, k: nat): seq<nat> {
    seq(k, i requires 0 <= i < k => a + i)
  }

  // ---------------------------------------------------------------- the empty volume

  function EmptyTable(): Table {
    seq(124, c requires 0 <= c < 124 => if c == 0 then 0xFFF8 else if c == 1 then LAST_MARK else 0)
  }

  function EmptyBlocks(): Blocks {
    seq(124, c requires 0 <= c < 124 => Zeros(BlockSize(G, c)))
  }

  function EmptyVolume(): Volume {
    Volume(Fat16, 512, 0, EmptyTable(), EmptyBlocks())
  }

  lemma GeometryFits()
    ensures WellFormed(G, IMAGE_SIZE)
  {
    TimesIs(1, 1);
    TimesIs(512, 1);
    TimesIs(512, 2);
    TimesIs(512, 6);
    TimesIs(512, 122);
    hide Times;
  }

  /** An image of zeros with the first two table entries set stores the empty volume. */
  lemma EmptyShown(img: Image)
    requires |img| == IMAGE_SIZE && img[512] == 0xF8 && img[513] == 0xFF && img[514] == 0xFF && img[515] == 0xFF
    requires forall i :: 516 <= i < IMAGE_SIZE ==> img[i] == 0
    ensures Shows(G, img, EmptyVolume())
  {
    GeometryFits();
    EmptyFatShown(img);
    EmptyDataShown(img);
  }

  lemma EmptyFatShown(img: Image)
    requires |img| == IMAGE_SIZE && img[512] == 0xF8 && img[513] == 0xFF && img[514] == 0xFF && img[515] == 0xFF
    requires forall i :: 516 <= i < IMAGE_SIZE ==> img[i] == 0
    requires WellFormed(G, IMAGE_SIZE)
    ensures FatShown(G, img, EmptyTable())
  {
    forall k, c | 0 <= k < G.copies && 0 <= c < 124
      ensures FatAt(G, k, c) + Width(G.kind) <= |img| && FatWord(G.kind, img, FatAt(G, k, c)) == EmptyTable()[c]
    {
      assert k == 0 && FatAt(G, 0, c) == 512 + 2 * c;
    }
  }

  lemma EmptyDataShown(img: Image)
    requires |img| == IMAGE_SIZE && forall i :: 516 <= i < IMAGE_SIZE ==> img[i] == 0
    ensures DataShown(G, img, EmptyBlocks())
  {
    forall c | 0 <= c < 124
      ensures BlockShown(G, img, EmptyBlocks(), c)
    {
      var a, n := BlockAt(G, c), BlockSize(G, c);
      TimesIs(512, if c >= 2 then c - 2 else 0);
      assert c >= 2 ==> a == 3072 + (c - 2) * 512 && n == 512;
      assert c < 2 ==> a == 1024 && n <= 2048;
      assert img[a..a + n] == Zeros(n);
    }
  }

  lemma EmptyShape()
    ensures Shape(EmptyVolume())
  {
  }

  function EmptyDir(): Dir {
    seq(64, i => End)
  }

  lemma EmptyRecords(block: seq<byte>)
    requires block == Zeros(2048)
    ensures BlockRecords(block) == EmptyDir()
  {
    forall i | 0 <= i < 64
      ensures BlockRecords(block)[i] == End
    {
      assert SlotAt(block, i)[0] == block[32 * i];
    }
    assert |BlockRecords(block)| == 64;
  }

  lemma RootRecords(data: Blocks)
    requires |data| > 0
    ensures BlocksIn(data, [0]) && Records(data, [0]) == BlockRecords(data[0])
  {
    assert [0][1..] == [];
    assert Records(data, []) == [];
  }

  function EmptyTree(): Tree {
    Tree(map[0 := EmptyDir()], map[], map[0 := 0], 0)
  }

  lemma EmptyTreeOk()
    ensures TreeOk(EmptyTree(), {})
  {
    var t := EmptyTree();
    assert DirOk(t.view[0]);
    assert t.own.Keys == {} - {t.root};
  }

  lemma EmptyChainsOk()
    ensures ChainsOk(Fat16, EmptyTable(), map[])
  {
  }

  lemma EmptyViewed()
    ensures Viewed(EmptyBlocks(), map[], EmptyTree())
  {
    RootRecords(EmptyBlocks());
    EmptyRecords(EmptyBlocks()[0]);
    assert DirStored(EmptyBlocks(), map[], EmptyTree(), 0);
  }

  /** The empty volume is consistent. */
  lemma EmptyConsistent()
    ensures Inv(EmptyVolume(), map[], EmptyTree())
  {
    EmptyShape();
    EmptyChainsOk();
    EmptyTreeOk();
    EmptyViewed();
    var ch: Chains := map[];
    assert ch.Keys == {};
    hide Shape, ChainsOk, TreeOk, Viewed, EmptyTable, EmptyBlocks, EmptyDir;
  }

  // ---------------------------------------------------------------- partly built volumes

  /** Clusters below `n` are taken, the others free, and `k` root slots are used. */
  ghost predicate Packed(v: Volume, n: nat, k: nat) {
    && v.kind.Fat16? && v.csize == 512 && v.rootHead == 0 && |v.fat| == |v.data| == 124
    && 2 <= n <= 124 && k <= 64 && SlotCount(v.data[0]) == 64
    && (forall c :: 2 <= c < 124 ==> (v.fat[c] == 0 <==> c >= n))
  }

  /** Clusters below `n` are taken, the others free; the root holds exactly the files `names`, then END slots. */
  ghost predicate Built(v: Volume, n: nat, names: seq<ShortName>) {
    && v.kind.Fat16? && v.csize == 512 && v.rootHead == 0 && |v.fat| == |v.data| == 124
    && 2 <= n <= 124 && |names| <= 64
    && (forall c :: 2 <= c < 124 ==> (v.fat[c] == 0 <==> c >= n))
    && RootHolds(BlockRecords(v.data[0]), names)
  }

  ghost predicate RootHolds(dir: Dir, names: seq<ShortName>) {
    && |dir| == 64 && |names| <= 64
    && (forall i :: 0 <= i < |names| ==> dir[i].Entry? && dir[i].name == names[i])
    && (forall i :: |names| <= i < 64 ==> dir[i].End?)
  }

  lemma EmptyBuilt()
    ensures Built(EmptyVolume(), 2, [])
  {
    EmptyRecords(EmptyBlocks()[0]);
  }

  lemma {:induction false} RunOfFree(fat: Table, n: nat, c: nat)
    requires 2 <= c <= |fat| && n <= |fat| && forall i :: 2 <= i < |fat| ==> (fat[i] == 0 <==> i >= n)
    ensures var m := if c < n then n else c; FreeFrom(fat, c) == Run(m, |fat| - m)
    decreases |fat| - c
  {
    hide FreeFrom, Run;
    if c < |fat| {
      RunOfFree(fat, n, c + 1);
      FreeFromCons(fat, c);
      RunCons(c, |fat| - c);
    } else {
      FreeFromEnd(fat);
      RunNone(c);
    }
  }

  lemma RunCons(a: nat, k: nat)
    requires k > 0
    ensures Run(a, k) == [a] + Run(a + 1, k - 1) && Run(a, k)[0] == a && Run(a, k)[1..] == Run(a + 1, k - 1)
  {
  }

  lemma RunNone(a: nat)
    ensures Run(a, 0) == []
  {
  }

  lemma FreeFromEnd(fat: Table)
    ensures FreeFrom(fat, |fat|) == []
  {
  }

  lemma FreeFromCons(fat: Table, c: nat)
    requires c < |fat|
    ensures FreeFrom(fat, c) == if fat[c] == 0 then [c] + FreeFrom(fat, c + 1) else FreeFrom(fat, c + 1)
  {
  }

  lemma FreeRun(fat: Table, n: nat)
    requires |fat| == 124 && 2 <= n <= 124 && forall i :: 2 <= i < 124 ==> (fat[i] == 0 <==> i >= n)
    ensures FreeList(fat) == Run(n, 124 - n)
  {
    RunOfFree(fat, n, 2);
  }

  lemma RunPrefix(n: nat, k: nat, m: nat)
    requires k <= m
    ensures Prefix(Run(n, m), k) == Run(n, k)
  {
  }

  lemma {:induction false} RoomAtEnd(dir: Dir, names: seq<ShortName>, i: nat)
    requires RootHolds(dir, names) && i <= |names|
    ensures RoomFrom(dir, i) == |names|
    decreases |names| - i
  {
    if i < |names| {
      RoomAtEnd(dir, names, i + 1);
    }
  }

  lemma {:induction false} NotListed(dir: Dir, names: seq<ShortName>, name: ShortName, i: nat)
    requires RootHolds(dir, names) && i <= |names| && name !in names
    ensures FindFrom(dir, name, i) == None
    decreases |names| - i
  {
    if i < |names| {
      NotListed(dir, names, name, i + 1);
    }
  }

  // ---------------------------------------------------------------- the end-of-chain mark

  /** The volume with another end-of-chain mark in entry `c`. */
  function Remarked(v: Volume, c: nat): Volume {
    if c < |v.fat| then v.(fat := v.fat[c := LAST_MARK]) else v
  }

  lemma RemarkedChain(fat: Table, c: nat, chain: seq<nat>)
    requires IsChain(Fat16, fat, chain) && 2 <= c < |fat| && IsEoc(Fat16, fat[c]) && |fat| <= Eoc(Fat16)
    ensures IsChain(Fat16, fat[c := LAST_MARK], chain)
  {
    forall i | 0 <= i < |chain|
      ensures chain[i] < |fat| && (i + 1 < |chain| ==> chain[i] != c)
    {
      assert chain[i] in chain;
      if i + 1 < |chain| {
        assert chain[i + 1] in chain;
      }
    }
  }

  lemma RemarkedChains(fat: Table, c: nat, ch: Chains)
    requires ChainsOk(Fat16, fat, ch) && 2 <= c < |fat| && IsEoc(Fat16, fat[c]) && |fat| <= Eoc(Fat16)
    ensures ChainsOk(Fat16, fat[c := LAST_MARK], ch)
  {
    forall h | h in ch
      ensures IsChain(Fat16, fat[c := LAST_MARK], ch[h]) && ch[h][0] == h
    {
      RemarkedChain(fat, c, ch[h]);
    }
  }

  /** Which end-of-chain mark ends a chain does not matter. */
  lemma RemarkedKeeps(v: Volume, ch: Chains, t: Tree, c: nat)
    requires Inv(v, ch, t) && v.kind.Fat16? && 2 <= c < |v.fat| && IsEoc(Fat16, v.fat[c])
    ensures Inv(Remarked(v, c), ch, t)
  {
    hide *;
    InvParts(v, ch, t);
    RemarkedShape(v, c);
    RemarkedChains(v.fat, c, ch);
    InvIntro(Remarked(v, c), ch, t);
  }

  lemma RemarkedShape(v: Volume, c: nat)
    requires Shape(v) && v.kind.Fat16? && c < |v.fat|
    ensures Shape(Remarked(v, c)) && |v.fat| <= Eoc(Fat16)
    ensures Remarked(v, c) == v.(fat := v.fat[c := LAST_MARK])
  {
  }
}
