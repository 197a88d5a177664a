/** Reading and writing table entries in the bytes of all table copies. */
module FatWords {
  import opened Arith
  import opened Bytes
  import opened FatTable
  import opened FatLayout

  /** What a table entry can hold. */
  function Capacity(kind: Kind): nat {
    if kind.Fat32? then 0x1000_0000 else 0x1_0000
  }

  function Masked(kind: Kind, value: nat): nat {
    Rem(value, Capacity(kind))
  }

  /** The 32-bit word at `a`. */
  function Word32(img: Image, a: nat): nat
    requires a + 4 <= |img|
  {
    Le32(img[a], img[a + 1], img[a + 2], img[a + 3])
  }

  function Put32(img: Image, a: nat, n: nat): (r: Image)
    requires a + 4 <= |img|
    ensures |r| == |img|
  {
    img[a := Byte0(n)][a + 1 := Byte1(n)][a + 2 := Byte2(n)][a + 3 := Byte3(n)]
  }

  function Put16(img: Image, a: nat, n: nat): (r: Image)
    requires a + 2 <= |img|
    ensures |r| == |img|
  {
    img[a := Byte0(n)][a + 1 := Byte1(n)]
  }

  /** The image after storing `value` in the entry at `a`; FAT32 keeps the top four bits. */
  function PutWord(kind: Kind, img: Image, a: nat, value: nat): (r: Image)
    requires a + Width(kind) <= |img|
    ensures |r| == |img|
  {
    if kind.Fat32? then Put32(img, a, Word32(img, a) - Rem(Word32(img, a), 0x1000_0000) + Masked(kind, value))
    else Put16(img, a, Masked(kind, value))
  }

  lemma SplitNibble(w: nat, x: nat)
    requires w < 0x1_0000_0000 && x < 0x1000_0000
    ensures var n := w - Rem(w, 0x1000_0000) + x;
      n < 0x1_0000_0000 && Rem(n, 0x1000_0000) == x && Quot(n, 0x1000_0000) == Quot(w, 0x1000_0000)
  {
    hide *;
    QuotRem(w, 0x1000_0000);
    var q := Quot(w, 0x1000_0000);
    QuotRemPlus(0x1000_0000, q, x);
    TimesIs(0x1000_0000, q);
  }

  lemma Word32Range(img: Image, a: nat)
    requires a + 4 <= |img|
    ensures Word32(img, a) < 0x1_0000_0000
  {
  }

  lemma Put32Reads(img: Image, a: nat, n: nat)
    requires a + 4 <= |img| && n < 0x1_0000_0000
    ensures Word32(Put32(img, a, n), a) == n && SameOutside(img, Put32(img, a, n), a, a + 4)
  {
    Le32RoundTrip(n);
    hide Byte0, Byte1, Byte2, Byte3, Le32;
  }

  lemma Put16Reads(img: Image, a: nat, n: nat)
    requires a + 2 <= |img| && n < 0x1_0000
    ensures Le16(Put16(img, a, n)[a], Put16(img, a, n)[a + 1]) == n && SameOutside(img, Put16(img, a, n), a, a + 2)
  {
    Le16RoundTrip(n);
    hide Byte0, Byte1, Le16;
  }

  /** A stored entry reads back masked, changes no other byte, and keeps the top four bits. */
  lemma PutWordReads(kind: Kind, img: Image, a: nat, value: nat)
    requires a + Width(kind) <= |img|
    ensures FatWord(kind, PutWord(kind, img, a, value), a) == Masked(kind, value)
    ensures SameOutside(img, PutWord(kind, img, a, value), a, a + Width(kind))
    ensures kind.Fat32? ==> Quot(Word32(PutWord(kind, img, a, value), a), 0x1000_0000) == Quot(Word32(img, a), 0x1000_0000)
  {
    if kind.Fat32? {
      Word32Range(img, a);
      SplitNibble(Word32(img, a), Masked(kind, value));
      hide Put32, Le32;
      Put32Reads(img, a, Word32(img, a) - Rem(Word32(img, a), 0x1000_0000) + Masked(kind, value));
    } else {
      hide Put16, Le16;
      Put16Reads(img, a, Masked(kind, value));
    }
  }

  lemma FatWordSame(kind: Kind, img: Image, img': Image, lo: nat, hi: nat, a: nat)
    requires SameOutside(img, img', lo, hi) && a + Width(kind) <= |img| && (a + Width(kind) <= lo || hi <= a)
    ensures FatWord(kind, img', a) == FatWord(kind, img, a)
  {
  }

  /** The first `n` copies of entry `c` hold `value`; every other entry is as in `img`. */
  ghost predicate CopiesPut(g: Geometry, img: Image, img': Image, c: nat, value: nat, n: nat) {
    && |img'| == |img|
    && forall k, e :: 0 <= k < g.copies && 0 <= e < g.clusters + 2 && FatAt(g, k, e) + Width(g.kind) <= |img| ==>
      FatWord(g.kind, img', FatAt(g, k, e)) == if k < n && e == c then value else FatWord(g.kind, img, FatAt(g, k, e))
  }

  lemma CopiesPutAt(g: Geometry, img: Image, img': Image, c: nat, value: nat, n: nat, k: nat, e: nat)
    requires CopiesPut(g, img, img', c, value, n) && k < g.copies && e < g.clusters + 2 && FatAt(g, k, e) + Width(g.kind) <= |img|
    ensures |img'| == |img|
    ensures FatWord(g.kind, img', FatAt(g, k, e)) == if k < n && e == c then value else FatWord(g.kind, img, FatAt(g, k, e))
  {
  }

  lemma CopiesPutIntro(g: Geometry, img: Image, img': Image, c: nat, value: nat, n: nat)
    requires |img'| == |img|
    requires forall k, e :: 0 <= k < g.copies && 0 <= e < g.clusters + 2 && FatAt(g, k, e) + Width(g.kind) <= |img| ==>
      FatWord(g.kind, img', FatAt(g, k, e)) == if k < n && e == c then value else FatWord(g.kind, img, FatAt(g, k, e))
    ensures CopiesPut(g, img, img', c, value, n)
  {
  }

  lemma CopiesSize(g: Geometry, img: Image, img': Image, c: nat, value: nat, n: nat)
    requires CopiesPut(g, img, img', c, value, n)
    ensures |img'| == |img|
  {
  }

  lemma MaskedSmall(kind: Kind, value: nat)
    requires value < Capacity(kind)
    ensures Masked(kind, value) == value
  {
  }

  lemma NextCopy(g: Geometry, img0: Image, img: Image, c: nat, value: nat, n: nat)
    requires WellFormed(g, |img|) && c < g.clusters + 2 && n < g.copies && value < Capacity(g.kind)
    requires CopiesPut(g, img0, img, c, value, n)
    ensures FatAt(g, n, c) + Width(g.kind) <= |img|
    ensures CopiesPut(g, img0, PutWord(g.kind, img, FatAt(g, n, c), value), c, value, n + 1)
  {
    hide *;
    CopiesSize(g, img0, img, c, value, n);
    FatInside(g, |img|, n, c);
    var a := FatAt(g, n, c);
    var img' := PutWord(g.kind, img, a, value);
    MaskedSmall(g.kind, value);
    PutWordReads(g.kind, img, a, value);
    forall k, e | 0 <= k < g.copies && 0 <= e < g.clusters + 2 && FatAt(g, k, e) + Width(g.kind) <= |img|
      ensures FatWord(g.kind, img', FatAt(g, k, e)) == if k < n + 1 && e == c then value else FatWord(g.kind, img0, FatAt(g, k, e))
    {
      if k != n || e != c {
        CopiesPutAt(g, img0, img, c, value, n, k, e);
        FatApart(g, |img|, n, c, k, e);
        FatWordSame(g.kind, img, img', a, a + Width(g.kind), FatAt(g, k, e));
      }
    }
    CopiesPutIntro(g, img0, img', c, value, n + 1);
  }

  /** With every copy written, the image shows the table with that one entry changed. */
  lemma AllCopies(g: Geometry, img: Image, img': Image, fat: Table, c: nat, value: nat)
    requires WellFormed(g, |img|) && FatShown(g, img, fat) && c < |fat|
    requires CopiesPut(g, img, img', c, value, g.copies)
    ensures FatShown(g, img', fat[c := value])
  {
  }

  /** The sector arithmetic of the engine computes the entry's address. */
  lemma SectorAddress(g: Geometry, k: nat, c: nat)
    requires g.bps > 0
    ensures var offset := EntryBytes(g.kind, c);
      Times(g.bps, g.reserved + Times(g.spf, k) + Quot(offset, g.bps)) + Rem(offset, g.bps) == FatAt(g, k, c)
  {
    var offset := EntryBytes(g.kind, c);
    hide Times, Quot, Rem, EntryBytes;
    TimesAdd(g.bps, g.reserved + Times(g.spf, k), Quot(offset, g.bps));
    QuotRem(offset, g.bps);
  }

  /**
   The classification threshold: no cluster of a well-formed volume, FAT16 or FAT32, has a
   number that reads as an end-of-chain mark.
   */
  lemma NoClusterReadsAsEnd(g: Geometry, size: nat, c: nat)
    requires WellFormed(g, size) && c < g.clusters + 2
    ensures !IsEoc(g.kind, c) && c < Capacity(g.kind)
  {
    ClustersFew(g, size);
    hide WellFormed;
  }
}
