/**
 A mounted volume as a value: the allocation table and the contents of the data clusters.
 Block 0 of `data` stands for the fixed root directory area of a FAT16 volume, so that the
 root directory is the one-block chain [0].
 */
module FatStore {
  import opened Common
  import opened Arith
  import opened Bytes
  import opened FatTable
  import opened FatSlots

  type Blocks = seq<seq<byte>>

  datatype Volume = Volume(kind: Kind, csize: nat, rootHead: nat, fat: Table, data: Blocks)

  ghost predicate Shape(v: Volume) {
    && Bounded(v.kind, v.fat)
    && |v.data| == |v.fat|
    && 64 <= v.csize
    && |v.fat| < 0x1_0000_0000
    && (v.kind.Fat16? <==> v.rootHead == 0)
    && v.rootHead != 1
    && (forall c :: 2 <= c < |v.data| ==> |v.data[c]| == v.csize)
  }

  // ---------------------------------------------------------------- slots of a directory

  ghost predicate BlocksIn(data: Blocks, chain: seq<nat>) {
    forall i :: 0 <= i < |chain| ==> chain[i] < |data|
  }

  /** Slot `i` of block `c`. */
  datatype Loc = Loc(c: nat, i: nat)

  predicate IsLoc(data: Blocks, loc: Loc) {
    loc.c < |data| && loc.i < SlotCount(data[loc.c])
  }

  function Get(data: Blocks, loc: Loc): Slot
    requires IsLoc(data, loc)
  {
    SlotAt(data[loc.c], loc.i)
  }

  function Put(data: Blocks, loc: Loc, s: Slot): Blocks
    requires IsLoc(data, loc)
  {
    data[loc.c := PutSlot(data[loc.c], loc.i, s)]
  }

  /** The records of the blocks of a chain, in chain order. */
  function Records(data: Blocks, chain: seq<nat>): Dir
    requires BlocksIn(data, chain)
    decreases |chain|
  {
    if chain == [] then [] else BlockRecords(data[chain[0]]) + Records(data, chain[1..])
  }

  /** Where record `k` of a chain is stored. */
  function LocOf(data: Blocks, chain: seq<nat>, k: nat): Loc
    requires BlocksIn(data, chain)
    requires k < |Records(data, chain)|
    decreases |chain|
  {
    var n := SlotCount(data[chain[0]]);
    if k < n then Loc(chain[0], k) else LocOf(data, chain[1..], k - n)
  }

  lemma {:induction false} LocOfFacts(data: Blocks, chain: seq<nat>, k: nat)
    requires BlocksIn(data, chain) && k < |Records(data, chain)|
    ensures IsLoc(data, LocOf(data, chain, k)) && LocOf(data, chain, k).c in chain
    ensures Decode(Get(data, LocOf(data, chain, k))) == Records(data, chain)[k]
    decreases |chain|
  {
    var n := SlotCount(data[chain[0]]);
    if k >= n {
      LocOfFacts(data, chain[1..], k - n);
    }
  }

  /** Records only depend on the blocks of the chain. */
  lemma {:induction false} RecordsFrame(data: Blocks, data': Blocks, chain: seq<nat>)
    requires BlocksIn(data, chain) && |data| == |data'|
    requires forall c :: c in chain ==> c < |data| && data'[c] == data[c]
    ensures Records(data', chain) == Records(data, chain)
    decreases |chain|
  {
    if chain != [] {
      assert chain[0] in chain;
      RecordsFrame(data, data', chain[1..]);
    }
  }

  lemma UpdateFront(a: Dir, b: Dir, k: nat, x: Record)
    requires k < |a|
    ensures (a + b)[k := x] == a[k := x] + b
  {
  }

  lemma UpdateBack(a: Dir, b: Dir, k: nat, x: Record)
    requires k < |b|
    ensures (a + b)[|a| + k := x] == a + b[k := x]
  {
  }

  lemma RecordsCons(data: Blocks, chain: seq<nat>)
    requires BlocksIn(data, chain) && chain != []
    ensures BlocksIn(data, chain[1..])
    ensures Records(data, chain) == BlockRecords(data[chain[0]]) + Records(data, chain[1..])
  {
  }

  lemma LocOfCons(data: Blocks, chain: seq<nat>, k: nat)
    requires BlocksIn(data, chain) && chain != [] && k < |Records(data, chain)|
    ensures BlocksIn(data, chain[1..]) && |BlockRecords(data[chain[0]])| == SlotCount(data[chain[0]])
    ensures var n := SlotCount(data[chain[0]]);
      if k < n then LocOf(data, chain, k) == Loc(chain[0], k)
      else k - n < |Records(data, chain[1..])| && LocOf(data, chain, k) == LocOf(data, chain[1..], k - n)
  {
  }

  lemma PutElsewhere(data: Blocks, loc: Loc, s: Slot, chain: seq<nat>)
    requires IsLoc(data, loc) && BlocksIn(data, chain)
    ensures |Put(data, loc, s)| == |data| && BlocksIn(Put(data, loc, s), chain)
    ensures forall c :: 0 <= c < |data| && c != loc.c ==> Put(data, loc, s)[c] == data[c]
    ensures Put(data, loc, s)[loc.c] == PutSlot(data[loc.c], loc.i, s)
  {
  }

  lemma {:induction false} RecordsPut(data: Blocks, chain: seq<nat>, k: nat, s: Slot)
    requires BlocksIn(data, chain) && Distinct(chain) && k < |Records(data, chain)|
    requires IsLoc(data, LocOf(data, chain, k))
    ensures Records(Put(data, LocOf(data, chain, k), s), chain) == Records(data, chain)[k := Decode(s)]
    decreases |chain|
  {
    var n := SlotCount(data[chain[0]]);
    var loc := LocOf(data, chain, k);
    var data' := Put(data, loc, s);
    assert Distinct(chain[1..]) && chain[0] !in chain[1..];
    LocOfCons(data, chain, k);
    hide Records, LocOf, Put, BlockRecords, Decode, SlotAt, PutSlot, SlotCount, Distinct;
    PutElsewhere(data, loc, s, chain);
    RecordsCons(data, chain);
    RecordsCons(data', chain);
    if k < n {
      PutSlotBlock(data[loc.c], loc.i, s);
      RecordsFrame(data, data', chain[1..]);
      UpdateFront(BlockRecords(data[chain[0]]), Records(data, chain[1..]), k, Decode(s));
    } else {
      LocOfFacts(data, chain[1..], k - n);
      RecordsPut(data, chain[1..], k - n, s);
      UpdateBack(BlockRecords(data[chain[0]]), Records(data, chain[1..]), k - n, Decode(s));
    }
  }

  lemma {:induction false} RecordsExtend(data: Blocks, chain: seq<nat>, c: nat)
    requires BlocksIn(data, chain) && c < |data|
    ensures Records(data, chain + [c]) == Records(data, chain) + BlockRecords(data[c])
    decreases |chain|
  {
    hide BlockRecords;
    if chain == [] {
      assert chain + [c] == [c] && [c][1..] == [];
      assert Records(data, [c]) == BlockRecords(data[c]) + Records(data, []);
    } else {
      RecordsExtend(data, chain[1..], c);
      assert (chain + [c])[1..] == chain[1..] + [c];
      assert Records(data, chain + [c]) == BlockRecords(data[chain[0]]) + Records(data, chain[1..] + [c]);
    }
  }

  // ---------------------------------------------------------------- bytes of a file

  /** The bytes of the blocks of a chain, in chain order. */
  function ChainBytes(data: Blocks, chain: seq<nat>): seq<byte>
    requires BlocksIn(data, chain)
    decreases |chain|
  {
    if chain == [] then [] else data[chain[0]] + ChainBytes(data, chain[1..])
  }

  lemma {:induction false} ChainBytesFrame(data: Blocks, data': Blocks, chain: seq<nat>)
    requires BlocksIn(data, chain) && |data| == |data'|
    requires forall c :: c in chain ==> c < |data| && data'[c] == data[c]
    ensures ChainBytes(data', chain) == ChainBytes(data, chain)
    decreases |chain|
  {
    if chain != [] {
      assert chain[0] in chain;
      ChainBytesFrame(data, data', chain[1..]);
    }
  }

  lemma {:induction false} ChainBytesConcat(data: Blocks, s: seq<nat>, t: seq<nat>)
    requires BlocksIn(data, s) && BlocksIn(data, t)
    ensures ChainBytes(data, s + t) == ChainBytes(data, s) + ChainBytes(data, t)
    decreases |s|
  {
    if s == [] {
      assert s + t == t;
    } else {
      ChainBytesConcat(data, s[1..], t);
      assert (s + t)[1..] == s[1..] + t;
    }
  }

  lemma {:induction false} ChainBytesLength(data: Blocks, chain: seq<nat>, csize: nat)
    requires BlocksIn(data, chain)
    requires forall i :: 0 <= i < |chain| ==> |data[chain[i]]| == csize
    ensures |ChainBytes(data, chain)| == Times(csize, |chain|)
    decreases |chain|
  {
    if chain != [] {
      ChainBytesLength(data, chain[1..], csize);
    }
  }

  /** A cluster holding the first bytes of `bytes`, zero padded. */
  function Chunk(bytes: seq<byte>, csize: nat): seq<byte> {
    if |bytes| >= csize then bytes[..csize] else bytes + Zeros(csize - |bytes|)
  }

  function Drop(bytes: seq<byte>, n: nat): seq<byte> {
    if |bytes| >= n then bytes[n..] else []
  }

  /** The blocks after spreading `bytes` over the clusters `t`. */
  function Fill(data: Blocks, t: seq<nat>, bytes: seq<byte>, csize: nat): Blocks
    decreases |t|
  {
    if t == [] || t[0] >= |data| then data
    else Fill(data[t[0] := Chunk(bytes, csize)], t[1..], Drop(bytes, csize), csize)
  }

  lemma {:induction false} FillFrame(data: Blocks, t: seq<nat>, bytes: seq<byte>, csize: nat)
    requires BlocksIn(data, t)
    ensures |Fill(data, t, bytes, csize)| == |data|
    ensures forall c :: 0 <= c < |data| && c !in t ==> Fill(data, t, bytes, csize)[c] == data[c]
    ensures forall c :: 0 <= c < |data| && c in t ==> |Fill(data, t, bytes, csize)[c]| == csize
    decreases |t|
  {
    if t != [] {
      FillFrame(data[t[0] := Chunk(bytes, csize)], t[1..], Drop(bytes, csize), csize);
      assert t == [t[0]] + t[1..];
    }
  }

  /** Clusters needed for `n` bytes. */
  function Clusters(n: nat, csize: nat): nat
    requires csize > 0
  {
    if n == 0 then 0 else if n <= csize then 1 else 1 + Clusters(n - csize, csize)
  }

  /** It is the quotient, rounded up. */
  lemma {:induction false} ClustersIsCeiling(n: nat, csize: nat)
    requires csize > 0
    ensures Clusters(n, csize) == Quot(n + csize - 1, csize)
  {
    if n > csize {
      ClustersIsCeiling(n - csize, csize);
    } else if n > 0 {
      assert Quot(n + csize - 1, csize) == 1 + Quot(n - 1, csize);
    }
  }

  lemma ClustersStep(n: nat, csize: nat)
    requires csize > 0
    ensures n == 0 <==> Clusters(n, csize) == 0
    ensures 0 < n <= csize ==> Clusters(n, csize) == 1
    ensures n > csize ==> Clusters(n, csize) == 1 + Clusters(n - csize, csize)
  {
  }

  lemma ChunkThenRest(bytes: seq<byte>, csize: nat, tail: seq<byte>)
    requires csize > 0 && |bytes| > 0 && |Drop(bytes, csize)| <= |tail|
    requires tail[..|Drop(bytes, csize)|] == Drop(bytes, csize)
    ensures |Chunk(bytes, csize)| == csize && |bytes| <= csize + |tail|
    ensures (Chunk(bytes, csize) + tail)[..|bytes|] == bytes
  {
    if |bytes| >= csize {
      assert bytes == bytes[..csize] + Drop(bytes, csize);
    }
  }

  /** Spread over enough distinct clusters, the bytes can be read back in order. */
  lemma {:induction false} FillReadsBack(data: Blocks, t: seq<nat>, bytes: seq<byte>, csize: nat)
    requires BlocksIn(data, t) && Distinct(t) && csize > 0
    requires |t| == Clusters(|bytes|, csize)
    ensures BlocksIn(Fill(data, t, bytes, csize), t)
    ensures |bytes| <= |ChainBytes(Fill(data, t, bytes, csize), t)|
    ensures ChainBytes(Fill(data, t, bytes, csize), t)[..|bytes|] == bytes
    decreases |t|
  {
    ClustersStep(|bytes|, csize);
    FillFrame(data, t, bytes, csize);
    if t != [] {
      var data1, rest := data[t[0] := Chunk(bytes, csize)], Drop(bytes, csize);
      ClustersStep(|rest|, csize);
      FillReadsBack(data1, t[1..], rest, csize);
      FillFrame(data1, t[1..], rest, csize);
      assert t[0] !in t[1..];
      ChunkThenRest(bytes, csize, ChainBytes(Fill(data1, t[1..], rest, csize), t[1..]));
    }
  }

  /** The bytes as they lie in whole clusters, zero padded. */
  function Spread(bytes: seq<byte>, csize: nat): seq<byte>
    requires csize > 0
    decreases |bytes|
  {
    if bytes == [] then [] else Chunk(bytes, csize) + Spread(Drop(bytes, csize), csize)
  }

  /** Filled clusters hold the bytes and the padding, nothing else. */
  lemma {:induction false} FillReadsWhole(data: Blocks, t: seq<nat>, bytes: seq<byte>, csize: nat)
    requires BlocksIn(data, t) && Distinct(t) && csize > 0
    requires |t| == Clusters(|bytes|, csize)
    ensures BlocksIn(Fill(data, t, bytes, csize), t)
    ensures ChainBytes(Fill(data, t, bytes, csize), t) == Spread(bytes, csize)
    decreases |t|
  {
    ClustersStep(|bytes|, csize);
    FillFrame(data, t, bytes, csize);
    if t != [] {
      var data1, rest := data[t[0] := Chunk(bytes, csize)], Drop(bytes, csize);
      ClustersStep(|rest|, csize);
      FillReadsWhole(data1, t[1..], rest, csize);
      FillFrame(data1, t[1..], rest, csize);
      assert t[0] !in t[1..];
    }
  }

  lemma BlocksInSame(data: Blocks, data': Blocks, chain: seq<nat>)
    requires BlocksIn(data, chain) && |data'| == |data|
    ensures BlocksIn(data', chain)
  {
  }

  /** Too few clusters hold the beginning of the bytes, and nothing else. */
  lemma {:induction false} FillReadsPart(data: Blocks, t: seq<nat>, bytes: seq<byte>, csize: nat)
    requires BlocksIn(data, t) && Distinct(t) && csize > 0
    requires |t| < Clusters(|bytes|, csize)
    ensures BlocksIn(Fill(data, t, bytes, csize), t) && Times(csize, |t|) < |bytes|
    ensures ChainBytes(Fill(data, t, bytes, csize), t) == bytes[..Times(csize, |t|)]
    decreases |t|
  {
    hide *;
    ClustersStep(|bytes|, csize);
    FillFrame(data, t, bytes, csize);
    BlocksInSame(data, Fill(data, t, bytes, csize), t);
    if t == [] {
      NothingFilled(data, bytes, csize);
    } else {
      FillStep(data, t, bytes, csize);
      var data1, rest := data[t[0] := bytes[..csize]], bytes[csize..];
      FillReadsPart(data1, t[1..], rest, csize);
      FillFrame(data1, t[1..], rest, csize);
      ChainBytesCons(Fill(data, t, bytes, csize), t);
      var n := Times(csize, |t| - 1);
      assert bytes[..csize] + rest[..n] == bytes[..csize + n];
    }
  }

  lemma NothingFilled(data: Blocks, bytes: seq<byte>, csize: nat)
    ensures Fill(data, [], bytes, csize) == data && Times(csize, 0) == 0 && BlocksIn(data, []) && ChainBytes(data, []) == []
  {
  }

  /** The first cluster takes a whole one's worth. */
  lemma FillStep(data: Blocks, t: seq<nat>, bytes: seq<byte>, csize: nat)
    requires t != [] && BlocksIn(data, t) && Distinct(t) && |bytes| > csize
    ensures var data1 := data[t[0] := bytes[..csize]];
      && Fill(data, t, bytes, csize) == Fill(data1, t[1..], bytes[csize..], csize)
      && BlocksIn(data1, t[1..]) && Distinct(t[1..]) && t[0] !in t[1..] && t[0] < |data1| && data1[t[0]] == bytes[..csize]
      && Times(csize, |t|) == csize + Times(csize, |t| - 1)
  {
  }

  lemma ChainBytesCons(data: Blocks, t: seq<nat>)
    requires t != [] && BlocksIn(data, t)
    ensures BlocksIn(data, t[1..]) && t[0] < |data| && ChainBytes(data, t) == data[t[0]] + ChainBytes(data, t[1..])
  {
  }

  lemma {:induction false} SpreadFacts(bytes: seq<byte>, csize: nat)
    requires csize > 0
    ensures |bytes| <= |Spread(bytes, csize)| && Spread(bytes, csize)[..|bytes|] == bytes
    ensures |Spread(bytes, csize)| == Times(csize, Clusters(|bytes|, csize))
    decreases |bytes|
  {
    ClustersStep(|bytes|, csize);
    if bytes != [] {
      var rest := Drop(bytes, csize);
      ClustersStep(|rest|, csize);
      SpreadFacts(rest, csize);
      ChunkThenRest(bytes, csize, Spread(rest, csize));
      SpreadLength(|rest|, |bytes|, csize);
    }
  }

  lemma SpreadLength(m: nat, n: nat, csize: nat)
    requires csize > 0 && n > 0 && m == if n >= csize then n - csize else 0
    ensures Clusters(n, csize) == 1 + Clusters(m, csize)
  {
    ClustersStep(n, csize);
    ClustersStep(m, csize);
  }
}
