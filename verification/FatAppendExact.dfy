/** The contents of a file, and exactly when an append extends them by the appended bytes. */
module FatAppendExact {
  import opened Arith
  import opened Bytes
  import opened FatTable
  import opened FatChains
  import opened FatSlots
  import opened FatStore
  import opened FatTree
  import opened FatOps
  import opened FatInvariant
  import opened FatSteps
  import opened FatFiles
  import opened FatAppend

  /** The bytes a file record stands for. */
  ghost function Contents(v: Volume, ch: Chains, rec: Record): seq<byte> {
    if rec.Entry? && rec.head in ch && BlocksIn(v.data, ch[rec.head])
    then Clip(ChainBytes(v.data, ch[rec.head]), rec.size) else []
  }

  /** The record has just the clusters its size needs. */
  ghost predicate Tight(v: Volume, ch: Chains, rec: Record) {
    && rec.Entry? && 0 < v.csize
    && if rec.head < 2 then rec.size == 0
       else rec.head in ch && |ch[rec.head]| == Clusters(rec.size, v.csize)
  }

  // ---------------------------------------------------------------- arithmetic

  lemma {:induction false} ClustersAbove(n: nat, csize: nat)
    requires csize > 0
    ensures n <= Times(csize, Clusters(n, csize)) < n + csize
  {
    if n > csize {
      ClustersAbove(n - csize, csize);
    }
  }

  lemma {:induction false} ClustersPlus(k: nat, n: nat, csize: nat)
    requires csize > 0
    ensures Clusters(Times(csize, k) + n, csize) == k + Clusters(n, csize)
  {
    if k > 0 {
      ClustersPlus(k - 1, n, csize);
    }
  }

  /** A tight file whose last cluster is part full ends inside its last cluster. */
  lemma {:induction false} TightEnd(size: nat, csize: nat, len: nat)
    requires csize > 0 && len == Clusters(size, csize) && Rem(size, csize) != 0
    ensures len > 0 && Times(csize, len - 1) + Rem(size, csize) == size
  {
    if size > csize {
      TightEnd(size - csize, csize, len - 1);
    }
  }

  lemma TightAfter(size: nat, csize: nat, n: nat, fit: nat)
    requires csize > 0 && n > 0
    requires size == 0 || Rem(size, csize) != 0
    requires fit == if n < csize - Rem(size, csize) then n else csize - Rem(size, csize)
    ensures fit <= n
    ensures size == 0 ==> Clusters(size + n, csize) == 1 + Clusters(n - fit, csize)
    ensures size != 0 ==> Clusters(size + n, csize) == Clusters(size, csize) + Clusters(n - fit, csize)
  {
    hide Times;
    var q, r := Quot(size, csize), Rem(size, csize);
    QuotRem(size, csize);
    ClustersPlus(q, r, csize);
    ClustersPlus(q, r + n, csize);
    RemZero(csize);
    hide Rem, Quot;
    ClustersStep(r, csize);
    ClustersStep(r + n, csize);
    hide Clusters;
    if r + n > csize {
      assert r + n - csize == n - fit;
    } else {
      ClustersStep(n - fit, csize);
    }
  }

  lemma RemZero(csize: nat)
    requires csize > 0
    ensures Rem(0, csize) == 0 && Quot(0, csize) == 0
  {
  }

  /** At a cluster boundary the clusters added are too few for the bytes counted. */
  lemma BoundaryShort(size: nat, csize: nat, n: nat, fit: nat)
    requires csize > 0 && n > 0 && Rem(size, csize) == 0
    requires fit == if n < csize then n else csize
    ensures Times(csize, Clusters(size, csize) + Clusters(n - fit, csize)) < size + n
  {
    var q, k := Quot(size, csize), Clusters(n - fit, csize);
    QuotRem(size, csize);
    ClustersPlus(q, 0, csize);
    ClustersStep(0, csize);
    hide Times, Rem, Quot, Clusters;
    ClustersAbove(n - fit, csize);
    ClustersStep(n - fit, csize);
    TimesAdd(csize, q, k);
    TimesNone(csize);
  }

  lemma TimesNone(csize: nat)
    ensures Times(csize, 0) == 0
  {
  }

  // ---------------------------------------------------------------- contents after an append

  lemma AppendAtEnd(v: Volume, ch: Chains, was: Record, h: nat, offset: nat, bytes: seq<byte>, v': Volume, ch': Chains, rec: Record)
    requires WroteTail(v, ch, was, h, offset, bytes, v', ch', rec) && was.head == h && rec.head == h
    requires WritePos(ch[h], offset, v.csize) == was.size && was.size + |bytes| < 0x1_0000_0000
    ensures Contents(v', ch', rec) == Contents(v, ch, was) + bytes
  {
    hide Wrap32, Times;
    Le32RoundTrip(was.size + |bytes|);
  }

  lemma ContentsLength(v: Volume, ch: Chains, rec: Record)
    requires Shape(v) && ChainsOk(v.kind, v.fat, ch) && rec.Entry? && rec.head in ch
    ensures var cap := Times(v.csize, |ch[rec.head]|);
      |Contents(v, ch, rec)| == if rec.size <= cap then rec.size else cap
  {
    ChainFacts(v, ch, rec.head);
    ChainBytesLength(v.data, ch[rec.head], v.csize);
  }

  lemma WroteLength(v: Volume, ch: Chains, was: Record, h: nat, offset: nat, bytes: seq<byte>, v': Volume, ch': Chains, rec: Record)
    requires WroteTail(v, ch, was, h, offset, bytes, v', ch', rec)
    ensures was.Entry? && rec.Entry? && h in ch && h in ch' && offset < v.csize
    ensures |ch'[h]| == |ch[h]| + Clusters(|bytes| - Fitting(bytes, offset, v.csize), v.csize)
    ensures rec.size == Wrap32(was.size + |bytes|)
  {
  }

  /** Past the chain's capacity a record counts bytes that no cluster holds. */
  lemma AppendTooShort(v: Volume, ch: Chains, was: Record, h: nat, bytes: seq<byte>, v': Volume, ch': Chains, rec: Record)
    requires Shape(v) && Shape(v') && v'.csize == v.csize && ChainsOk(v.kind, v.fat, ch) && ChainsOk(v'.kind, v'.fat, ch')
    requires WroteTail(v, ch, was, h, 0, bytes, v', ch', rec) && was.head == h && rec.head == h
    requires bytes != [] && was.size > 0 && Rem(was.size, v.csize) == 0 && |ch[h]| == Clusters(was.size, v.csize)
    ensures |Contents(v', ch', rec)| < |Contents(v, ch, was)| + |bytes|
  {
    hide *;
    WroteLength(v, ch, was, h, 0, bytes, v', ch', rec);
    FittingIs(bytes, 0, v.csize);
    ContentsLength(v, ch, was);
    ContentsLength(v', ch', rec);
    BoundaryShort(was.size, v.csize, |bytes|, Fitting(bytes, 0, v.csize));
    ClustersAbove(was.size, v.csize);
  }

  // ---------------------------------------------------------------- the whole append

  lemma AppendUnfold(v: Volume, loc: Loc, s: Slot, bytes: seq<byte>)
    requires 0 < v.csize
    ensures bytes == [] ==> Append(v, loc, s, bytes) == Outcome(v, true)
    ensures bytes != [] && Head(s) < 2 && FreeList(v.fat) == [] ==> Append(v, loc, s, bytes) == Outcome(v, false)
    ensures bytes != [] && Head(s) < 2 && FreeList(v.fat) != [] ==>
      var c := FreeList(v.fat)[0];
      var s1 := WithSize(WithHead(s, c), 0);
      Append(v, loc, s, bytes) == AppendTail(Adopt(FillIn(v, [c], []), [c], loc, s1), loc, s1, c, 0, bytes)
    ensures bytes != [] && Head(s) >= 2 && ChainOf(v.kind, v.fat, Head(s)) != [] ==>
      Append(v, loc, s, bytes) == AppendTail(v, loc, s, Last(ChainOf(v.kind, v.fat, Head(s))), Rem(Size(s), v.csize), bytes)
  {
  }

  /** The end of a tight file lies where an append writes. */
  predicate EndsInside(size: nat, csize: nat)
    requires csize > 0
  {
    size == 0 || Rem(size, csize) != 0
  }

  /** The invariant and the other files after an append. */
  ghost predicate AppendSafe(v: Volume, ch: Chains, t: Tree, r: Ref, out: Outcome, ch': Chains, t': Tree, rec: Record) {
    && Inv(out.v, ch', t') && OnlySlot(t, t', r, rec)
    && OthersSame(v, ch, out.v, ch', t, At(t, r).head)
    && out.v.csize == v.csize
  }

  /** A tight file after a successful append. */
  ghost predicate AppendExact(v: Volume, ch: Chains, was: Record, bytes: seq<byte>, v': Volume, ch': Chains, rec: Record) {
    && was.Entry? && rec.Entry? && 0 < v.csize && rec.size == was.size + |bytes|
    && (Contents(v', ch', rec) == Contents(v, ch, was) + bytes <==> bytes == [] || EndsInside(was.size, v.csize))
    && (bytes == [] || EndsInside(was.size, v.csize) ==> Tight(v', ch', rec))
  }

  /** `file` with its last `csize` bytes replaced by the first `csize` of `bytes`. */
  function TailReplaced(file: seq<byte>, bytes: seq<byte>, csize: nat): seq<byte> {
    if csize <= |file| && csize <= |bytes| then file[..|file| - csize] + bytes[..csize] else file
  }

  /**
   A tight file after an append that ran out of space: the record counts what it did, and at
   a cluster boundary the last cluster holds the beginning of the data.
   */
  ghost predicate AppendFailed(v: Volume, ch: Chains, was: Record, bytes: seq<byte>, v': Volume, ch': Chains, rec: Record) {
    && was.Entry? && rec.Entry? && 0 < v.csize
    && rec.size == was.size
    && FreeList(v'.fat) == []
    && (EndsInside(was.size, v.csize) ==> Contents(v', ch', rec) == Contents(v, ch, was))
    && (!EndsInside(was.size, v.csize) ==>
      && v.csize <= |Contents(v, ch, was)| == was.size && v.csize < |bytes|
      && Contents(v', ch', rec) == TailReplaced(Contents(v, ch, was), bytes, v.csize))
  }

  /**
   What a file of `size` bytes holds after as much of `bytes` as there is room for was written at
   `pos` of its chain: to the end of the chain, which held `before`, and `more` bytes behind it.
   */
  function Overlaid(before: seq<byte>, pos: nat, size: nat, bytes: seq<byte>, more: nat): seq<byte>
    requires pos <= |before|
  {
    Clip(before[..pos] + Clip(bytes, |before| - pos + more), size)
  }

  /** It is what the file held before: nothing of it was hit, or what was hit repeats the data. */
  predicate Unscathed(before: seq<byte>, pos: nat, size: nat, bytes: seq<byte>, more: nat)
    requires pos <= |before| && |before| - pos + more < |bytes|
  {
    || size <= pos
    || (size <= |before| && before[pos..size] == bytes[..size - pos])
    || (|before| < size && more == 0 && before[pos..] == bytes[..|before| - pos])
  }

  lemma UnscathedIff(before: seq<byte>, pos: nat, size: nat, bytes: seq<byte>, more: nat)
    requires pos <= |before| && |before| - pos + more < |bytes|
    ensures Overlaid(before, pos, size, bytes, more) == Clip(before, size) <==> Unscathed(before, pos, size, bytes, more)
  {
    var n := |before| - pos + more;
    var after := before[..pos] + bytes[..n];
    if size <= pos {
      assert after[..size] == before[..size];
    } else if size <= |before| {
      assert after[..size] == before[..pos] + bytes[..size - pos];
      assert before[..size] == before[..pos] + before[pos..size];
      assert after[..size][pos..] == bytes[..size - pos] && before[..size][pos..] == before[pos..size];
    } else if more == 0 {
      assert before == before[..pos] + before[pos..];
      assert after[pos..] == bytes[..n];
    } else {
      assert |after| > |before|;
    }
  }

  /** The clusters that are free, in bytes. */
  ghost function Spare(v: Volume): nat {
    Times(v.csize, |FreeList(v.fat)|)
  }

  /**
   Any file after an append that ran out of space.  The record stays as it was, the size included;
   a file without a cluster stays empty, and any other one holds what the data overlays.
   */
  ghost predicate AppendCut(v: Volume, ch: Chains, was: Record, bytes: seq<byte>, v': Volume, ch': Chains, rec: Record) {
    && was.Entry? && rec.Entry? && 0 < v.csize && FreeList(v'.fat) == []
    && if was.head < 2 then Contents(v', ch', rec) == [] == Contents(v, ch, was) && (rec.size == was.size || rec.size == 0)
       else
         && rec == was && was.head in ch && ch[was.head] != [] && BlocksIn(v.data, ch[was.head])
         && var before, pos := ChainBytes(v.data, ch[was.head]), WritePos(ch[was.head], Rem(was.size, v.csize), v.csize);
           && pos <= |before| && |before| - pos + Spare(v) < |bytes|
           && Contents(v, ch, was) == Clip(before, was.size)
           && Contents(v', ch', rec) == Overlaid(before, pos, was.size, bytes, Spare(v))
  }

  /** What an append that runs out of space leaves, told from the file before it. */
  ghost function CutContents(v: Volume, ch: Chains, was: Record, bytes: seq<byte>): seq<byte>
    requires was.Entry? && 0 < v.csize
  {
    if was.head < 2 || was.head !in ch || ch[was.head] == [] || !BlocksIn(v.data, ch[was.head]) then []
    else
      var before, pos := ChainBytes(v.data, ch[was.head]), WritePos(ch[was.head], Rem(was.size, v.csize), v.csize);
      if pos <= |before| then Overlaid(before, pos, was.size, bytes, Spare(v)) else []
  }

  /** Exactly when an append that ran out of space leaves the contents, told from the file before it. */
  ghost predicate CutUnscathed(v: Volume, ch: Chains, was: Record, bytes: seq<byte>)
    requires was.Entry? && 0 < v.csize
  {
    || was.head < 2
    || (was.head in ch && ch[was.head] != [] && BlocksIn(v.data, ch[was.head])
      && var before, pos := ChainBytes(v.data, ch[was.head]), WritePos(ch[was.head], Rem(was.size, v.csize), v.csize);
        pos <= |before| && |before| - pos + Spare(v) < |bytes| && Unscathed(before, pos, was.size, bytes, Spare(v)))
  }

  lemma CutIff(v: Volume, ch: Chains, was: Record, bytes: seq<byte>, v': Volume, ch': Chains, rec: Record)
    requires AppendCut(v, ch, was, bytes, v', ch', rec)
    ensures was.Entry? && rec.Entry? && 0 < v.csize && rec.size <= was.size && (was.head >= 2 ==> rec == was)
    ensures Contents(v', ch', rec) == CutContents(v, ch, was, bytes)
    ensures CutContents(v, ch, was, bytes) == Contents(v, ch, was) <==> CutUnscathed(v, ch, was, bytes)
  {
    hide ChainBytes, WritePos, Spare, Contents, Rem, Overlaid, Unscathed;
    if was.head >= 2 {
      UnscathedIff(ChainBytes(v.data, ch[was.head]), WritePos(ch[was.head], Rem(was.size, v.csize), v.csize), was.size, bytes, Spare(v));
    }
  }

  /**
   Whether `bytes` written at `pos` of a chain that holds `before` follow its first `size`
   bytes.  Behind a longer chain, the slack between must repeat the data; in front of the end,
   the overwritten tail must.
   */
  predicate Lands(before: seq<byte>, pos: nat, size: nat, bytes: seq<byte>, csize: nat)
    requires csize > 0
  {
    && pos <= |before|
    && if size <= pos then (before[size..pos] + bytes)[..|bytes|] == bytes
       else |before| < pos + |bytes| && before[pos..] + bytes == bytes[..|before| - pos] + Spread(bytes[|before| - pos..], csize)
  }

  /** Exactly when a successful append extends the contents, told from the file before it. */
  ghost predicate AppendLands(v: Volume, ch: Chains, was: Record, bytes: seq<byte>)
    requires was.Entry? && 0 < v.csize
  {
    || bytes == [] || was.head < 2
    || (was.head in ch && ch[was.head] != [] && BlocksIn(v.data, ch[was.head])
      && Lands(ChainBytes(v.data, ch[was.head]), WritePos(ch[was.head], Rem(was.size, v.csize), v.csize), was.size, bytes, v.csize))
  }

  /** What an append guarantees of the file it appends to. */
  ghost predicate AppendResult(v: Volume, ch: Chains, was: Record, bytes: seq<byte>, out: Outcome, ch': Chains, rec: Record) {
    && was.Entry? && rec.Entry? && 0 < v.csize
    && (out.ok && was.size + |bytes| < 0x1_0000_0000 ==>
      && rec.size <= was.size + |bytes|
      && (Contents(out.v, ch', rec) == Contents(v, ch, was) + bytes <==> AppendLands(v, ch, was, bytes))
      && (Tight(v, ch, was) ==> AppendExact(v, ch, was, bytes, out.v, ch', rec)))
    && (!out.ok ==> AppendCut(v, ch, was, bytes, out.v, ch', rec))
    && (!out.ok && Tight(v, ch, was) ==> AppendFailed(v, ch, was, bytes, out.v, ch', rec))
  }

  lemma ResultIntro(v: Volume, ch: Chains, was: Record, bytes: seq<byte>, out: Outcome, ch': Chains, rec: Record)
    requires was.Entry? && rec.Entry? && 0 < v.csize
    requires out.ok && was.size + |bytes| < 0x1_0000_0000 ==> rec.size <= was.size + |bytes|
    requires out.ok && was.size + |bytes| < 0x1_0000_0000 ==> (Contents(out.v, ch', rec) == Contents(v, ch, was) + bytes <==> AppendLands(v, ch, was, bytes))
    requires out.ok && was.size + |bytes| < 0x1_0000_0000 && Tight(v, ch, was) ==> AppendExact(v, ch, was, bytes, out.v, ch', rec)
    requires !out.ok ==> AppendCut(v, ch, was, bytes, out.v, ch', rec)
    requires !out.ok && Tight(v, ch, was) ==> AppendFailed(v, ch, was, bytes, out.v, ch', rec)
    ensures AppendResult(v, ch, was, bytes, out, ch', rec)
  {
  }

  /** Behind the end: slack, then the data, cut at the new size. */
  lemma LandsBehind(before: seq<byte>, pos: nat, size: nat, bytes: seq<byte>, after: seq<byte>)
    requires size <= pos <= |before| && WroteAt(before, after, pos, bytes)
    ensures Clip(after, size + |bytes|) == Clip(before, size) + bytes <==> (before[size..pos] + bytes)[..|bytes|] == bytes
  {
    var n := |bytes|;
    assert after[..size + n] == after[..pos + n][..size + n];
    assert before[..pos] == before[..size] + before[size..pos];
    assert (before[..pos] + bytes)[..size + n] == before[..size] + (before[size..pos] + bytes)[..n];
    assert (before[..size] + bytes)[size..] == bytes;
    assert (before[..size] + (before[size..pos] + bytes)[..n])[size..] == (before[size..pos] + bytes)[..n];
  }

  /** In front of the end: the whole chain counts. */
  lemma LandsInside(before: seq<byte>, pos: nat, size: nat, bytes: seq<byte>, csize: nat)
    requires 0 < csize && pos < |before| <= size && bytes != [] && |Rewritten(before, pos, bytes, csize)| <= size + |bytes|
    ensures Clip(Rewritten(before, pos, bytes, csize), size + |bytes|) == Clip(before, size) + bytes <==> Lands(before, pos, size, bytes, csize)
  {
    hide Spread;
    var after, n := Rewritten(before, pos, bytes, csize), |bytes|;
    ClipWhole(after, size + n);
    ClipWhole(before, size);
    hide Clip;
    if pos + n > |before| {
      var x := bytes[..|before| - pos] + Spread(bytes[|before| - pos..], csize);
      assert after == before[..pos] + x;
      TailsEqual(before, pos, bytes, x, after);
    } else {
      assert |after| == |before|;
    }
  }

  lemma ClipWhole(bytes: seq<byte>, n: nat)
    requires |bytes| <= n
    ensures Clip(bytes, n) == bytes
  {
  }

  lemma TailsEqual(before: seq<byte>, pos: nat, bytes: seq<byte>, x: seq<byte>, after: seq<byte>)
    requires pos <= |before| && after == before[..pos] + x
    ensures after == before + bytes <==> before[pos..] + bytes == x
  {
    assert before + bytes == before[..pos] + (before[pos..] + bytes);
    assert after[pos..] == x && (before + bytes)[pos..] == before[pos..] + bytes;
  }

  lemma RewrittenLength(before: seq<byte>, pos: nat, bytes: seq<byte>, csize: nat, offset: nat)
    requires 0 < csize && offset < csize && pos <= |before| == pos + csize - offset
    ensures |Rewritten(before, pos, bytes, csize)| <= |before| + offset + |bytes|
  {
    hide Spread, Times, Clusters;
    if pos + |bytes| > |before| {
      var rest := bytes[|before| - pos..];
      SpreadFacts(rest, csize);
      ClustersAbove(|rest|, csize);
    }
  }

  /** A write position before the end of the file lies whole clusters before it. */
  lemma PosFar(size: nat, csize: nat, len: nat)
    requires csize > 0 && len > 0 && Times(csize, len - 1) + Rem(size, csize) < size
    ensures Times(csize, len) + Rem(size, csize) <= size
  {
    hide *;
    QuotRem(size, csize);
    var q := Quot(size, csize);
    var m := if q < len then len - 1 else q;
    TimesMono(csize, q, m);
    TimesMono(csize, len, if q < len then len else q);
  }

  lemma LandedContents(v: Volume, ch: Chains, was: Record, h: nat, offset: nat, bytes: seq<byte>, v': Volume, ch': Chains, rec: Record)
    requires WroteTail(v, ch, was, h, offset, bytes, v', ch', rec) && was.head == h && rec.head == h
    requires was.size + |bytes| < 0x1_0000_0000
    ensures rec.size == was.size + |bytes| && h in ch && ch[h] != [] && BlocksIn(v.data, ch[h]) && offset < v.csize
    ensures var before, pos := ChainBytes(v.data, ch[h]), WritePos(ch[h], offset, v.csize);
      && |before| == pos + v.csize - offset
      && WroteAt(before, Rewritten(before, pos, bytes, v.csize), pos, bytes)
      && Contents(v, ch, was) == Clip(before, was.size)
      && Contents(v', ch', rec) == Clip(Rewritten(before, pos, bytes, v.csize), was.size + |bytes|)
  {
    hide Wrap32, Times, Rewritten, WritePos, ChainBytes, WroteAt;
    Le32RoundTrip(was.size + |bytes|);
  }

  lemma LandsIs(v: Volume, ch: Chains, was: Record, bytes: seq<byte>)
    requires was.Entry? && 0 < v.csize && was.head >= 2 && was.head in ch && ch[was.head] != [] && BlocksIn(v.data, ch[was.head]) && bytes != []
    ensures var before, pos := ChainBytes(v.data, ch[was.head]), WritePos(ch[was.head], Rem(was.size, v.csize), v.csize);
      && (AppendLands(v, ch, was, bytes) <==> Lands(before, pos, was.size, bytes, v.csize))
      && (was.size <= pos <= |before| ==> (AppendLands(v, ch, was, bytes) <==> (before[was.size..pos] + bytes)[..|bytes|] == bytes))
  {
    hide ChainBytes, WritePos, Spread;
  }

  lemma LandsEasily(v: Volume, ch: Chains, was: Record, bytes: seq<byte>)
    requires was.Entry? && 0 < v.csize && (bytes == [] || was.head < 2)
    ensures AppendLands(v, ch, was, bytes)
  {
  }

  /** A successful append to a file with a chain. */
  lemma LandsWhenOwned(v: Volume, ch: Chains, was: Record, h: nat, bytes: seq<byte>, v': Volume, ch': Chains, rec: Record)
    requires 0 < v.csize && was.Entry? && rec.Entry? && was.head == h && rec.head == h >= 2
    requires WroteTail(v, ch, was, h, Rem(was.size, v.csize), bytes, v', ch', rec)
    requires bytes != [] && was.size + |bytes| < 0x1_0000_0000
    ensures rec.size == was.size + |bytes|
    ensures Contents(v', ch', rec) == Contents(v, ch, was) + bytes <==> AppendLands(v, ch, was, bytes)
  {
    hide *;
    var offset := Rem(was.size, v.csize);
    LandedContents(v, ch, was, h, offset, bytes, v', ch', rec);
    var before, pos := ChainBytes(v.data, ch[h]), WritePos(ch[h], offset, v.csize);
    LandsIs(v, ch, was, bytes);
    if was.size <= pos {
      LandsBehind(before, pos, was.size, bytes, Rewritten(before, pos, bytes, v.csize));
    } else {
      WritePosIs(ch[h], offset, v.csize);
      PosFar(was.size, v.csize, |ch[h]|);
      TimesAdd(v.csize, |ch[h]| - 1, 1);
      TimesOnce(v.csize);
      RewrittenLength(before, pos, bytes, v.csize, offset);
      LandsInside(before, pos, was.size, bytes, v.csize);
    }
  }

  /** Writing at the end of the file is enough. */
  lemma LandsAtEnd(v: Volume, ch: Chains, was: Record, bytes: seq<byte>)
    requires was.Entry? && 0 < v.csize && was.head in ch && ch[was.head] != [] && BlocksIn(v.data, ch[was.head])
    requires WritePos(ch[was.head], Rem(was.size, v.csize), v.csize) == was.size <= |ChainBytes(v.data, ch[was.head])|
    ensures AppendLands(v, ch, was, bytes)
  {
    hide ChainBytes, WritePos, Spread;
    assert ([] + bytes)[..|bytes|] == bytes;
  }

  lemma ExactIntro(v: Volume, ch: Chains, was: Record, bytes: seq<byte>, v': Volume, ch': Chains, rec: Record)
    requires was.Entry? && rec.Entry? && 0 < v.csize && rec.size == was.size + |bytes|
    requires Contents(v', ch', rec) == Contents(v, ch, was) + bytes <==> bytes == [] || EndsInside(was.size, v.csize)
    requires bytes == [] || EndsInside(was.size, v.csize) ==> Tight(v', ch', rec)
    ensures AppendExact(v, ch, was, bytes, v', ch', rec)
  {
  }

  lemma TightIs(v: Volume, ch: Chains, rec: Record)
    requires rec.Entry? && 0 < v.csize
    ensures Tight(v, ch, rec) <==>
      if rec.head < 2 then rec.size == 0
      else rec.head in ch && |ch[rec.head]| == Clusters(rec.size, v.csize)
  {
  }

  lemma EndsInsideIs(size: nat, csize: nat)
    requires csize > 0
    ensures EndsInside(size, csize) <==> size == 0 || Rem(size, csize) != 0
  {
  }

  lemma ContentsEmpty(v: Volume, ch: Chains, rec: Record)
    requires rec.Entry? && (rec.size == 0 || rec.head !in ch)
    ensures Contents(v, ch, rec) == []
  {
  }

  lemma WritePosIs(chain: seq<nat>, offset: nat, csize: nat)
    requires chain != []
    ensures WritePos(chain, offset, csize) == Times(csize, |chain| - 1) + offset
  {
  }

  /** Successful append to a tight, nonempty file. */
  lemma ExactWhenOwned(v: Volume, ch: Chains, was: Record, h: nat, bytes: seq<byte>, v': Volume, ch': Chains, rec: Record)
    requires Shape(v) && Shape(v') && v'.csize == v.csize && ChainsOk(v.kind, v.fat, ch) && ChainsOk(v'.kind, v'.fat, ch')
    requires 0 < v.csize && was.Entry? && Tight(v, ch, was) && was.head == h && rec.Entry? && rec.head == h && h >= 2
    requires WroteTail(v, ch, was, h, Rem(was.size, v.csize), bytes, v', ch', rec)
    requires bytes != [] && was.size + |bytes| < 0x1_0000_0000
    ensures AppendExact(v, ch, was, bytes, v', ch', rec)
  {
    hide *;
    var n, cs, off := |bytes|, v.csize, Rem(was.size, v.csize);
    WroteLength(v, ch, was, h, off, bytes, v', ch', rec);
    Le32RoundTrip(was.size + |bytes|);
    TightIs(v, ch, was);
    TightIs(v', ch', rec);
    EndsInsideIs(was.size, cs);
    ChainFacts(v, ch, h);
    FittingIs(bytes, off, cs);
    ClustersStep(was.size, cs);
    if off != 0 {
      TightEnd(was.size, cs, |ch[h]|);
      WritePosIs(ch[h], off, cs);
      AppendAtEnd(v, ch, was, h, off, bytes, v', ch', rec);
      TightAfter(was.size, cs, n, Fitting(bytes, off, cs));
    } else {
      AppendTooShort(v, ch, was, h, bytes, v', ch', rec);
    }
    ExactIntro(v, ch, was, bytes, v', ch', rec);
  }

  /** Successful append to an empty file that has just been given its first cluster. */
  lemma ExactWhenFresh(v: Volume, ch: Chains, was: Record, v1: Volume, ch1: Chains, first: Record, c: nat, bytes: seq<byte>, v': Volume, ch': Chains, rec: Record)
    requires 0 < v.csize == v1.csize == v'.csize && was.Entry? && was.size == 0 && was.head < 2
    requires c in ch1 && ch1[c] == [c] && first.Entry? && first.head == c && first.size == 0 && c >= 2
    requires WroteTail(v1, ch1, first, c, 0, bytes, v', ch', rec) && rec.Entry? && rec.head == c
    requires bytes != [] && |bytes| < 0x1_0000_0000
    ensures AppendExact(v, ch, was, bytes, v', ch', rec)
  {
    hide *;
    WroteLength(v1, ch1, first, c, 0, bytes, v', ch', rec);
    Le32RoundTrip(|bytes|);
    TimesNone(v.csize);
    ContentsEmpty(v, ch, was);
    ContentsEmpty(v1, ch1, first);
    WritePosIs(ch1[c], 0, v.csize);
    AppendAtEnd(v1, ch1, first, c, 0, bytes, v', ch', rec);
    EndsInsideIs(0, v.csize);
    FittingIs(bytes, 0, v.csize);
    RemZero(v.csize);
    TightAfter(0, v.csize, |bytes|, Fitting(bytes, 0, v.csize));
    TightIs(v', ch', rec);
    ExactIntro(v, ch, was, bytes, v', ch', rec);
  }

  /** Without a chain there were no contents, whatever the size said. */
  lemma LandsWhenFresh(v: Volume, ch: Chains, was: Record, v1: Volume, ch1: Chains, first: Record, c: nat, bytes: seq<byte>, v': Volume, ch': Chains, rec: Record)
    requires 0 < v.csize == v1.csize && was.Entry? && was.head !in ch
    requires c in ch1 && ch1[c] == [c] && first.Entry? && first.head == c && first.size == 0
    requires WroteTail(v1, ch1, first, c, 0, bytes, v', ch', rec) && rec.Entry? && rec.head == c
    requires bytes != [] && |bytes| < 0x1_0000_0000
    ensures rec.size == |bytes| && Contents(v', ch', rec) == Contents(v, ch, was) + bytes
  {
    hide *;
    WroteLength(v1, ch1, first, c, 0, bytes, v', ch', rec);
    Le32RoundTrip(|bytes|);
    TimesNone(v.csize);
    ContentsEmpty(v, ch, was);
    ContentsEmpty(v1, ch1, first);
    WritePosIs(ch1[c], 0, v.csize);
    AppendAtEnd(v1, ch1, first, c, 0, bytes, v', ch', rec);
  }

  /** Written as far as space allowed, with the record left alone. */
  lemma CutWhenOwned(v: Volume, ch: Chains, was: Record, h: nat, bytes: seq<byte>, v': Volume, ch': Chains)
    requires 0 < v.csize && was.Entry? && was.head == h >= 2 && FreeList(v'.fat) == []
    requires WroteSome(v, ch, h, Rem(was.size, v.csize), bytes, v', ch')
    ensures AppendCut(v, ch, was, bytes, v', ch', was)
  {
    hide ChainBytes, WritePos, Times, FreeList, Rem;
  }

  lemma CutParts(v: Volume, ch: Chains, was: Record, bytes: seq<byte>, v': Volume, ch': Chains, rec: Record)
    requires AppendCut(v, ch, was, bytes, v', ch', rec) && was.head >= 2
    ensures was.head in ch && ch[was.head] != [] && BlocksIn(v.data, ch[was.head]) && rec == was && FreeList(v'.fat) == []
    ensures var before, pos := ChainBytes(v.data, ch[was.head]), WritePos(ch[was.head], Rem(was.size, v.csize), v.csize);
      && pos <= |before| && |before| - pos + Spare(v) < |bytes|
      && Contents(v, ch, was) == Clip(before, was.size)
      && Contents(v', ch', rec) == Overlaid(before, pos, was.size, bytes, Spare(v))
  {
    hide ChainBytes, WritePos, Spare, Contents, Rem, Overlaid;
  }

  /** A tight file that ends on a cluster boundary fills its clusters. */
  lemma {:induction false} TightFull(size: nat, csize: nat, len: nat)
    requires csize > 0 && size > 0 && len == Clusters(size, csize) && Rem(size, csize) == 0
    ensures len > 0 && csize <= size && Times(csize, len) == size
  {
    if size > csize {
      TightFull(size - csize, csize, len - 1);
    }
  }

  lemma TailOverwritten(before: seq<byte>, pos: nat, bytes: seq<byte>, more: nat)
    requires pos <= |before| && |before| - pos + more < |bytes|
    ensures Overlaid(before, pos, |before|, bytes, more) == before[..pos] + bytes[..|before| - pos]
    ensures Overlaid(before, pos, pos, bytes, more) == before[..pos]
  {
  }

  lemma FailedIntro(v: Volume, ch: Chains, was: Record, bytes: seq<byte>, v': Volume, ch': Chains)
    requires was.Entry? && 0 < v.csize && FreeList(v'.fat) == []
    requires EndsInside(was.size, v.csize) ==> Contents(v', ch', was) == Contents(v, ch, was)
    requires !EndsInside(was.size, v.csize) ==> v.csize <= |Contents(v, ch, was)| == was.size && v.csize < |bytes|
    requires !EndsInside(was.size, v.csize) ==> Contents(v', ch', was) == Contents(v, ch, was)[..was.size - v.csize] + bytes[..v.csize]
    ensures AppendFailed(v, ch, was, bytes, v', ch', was)
  {
  }

  lemma FailedWhenOwned(v: Volume, ch: Chains, was: Record, h: nat, bytes: seq<byte>, v': Volume, ch': Chains)
    requires Shape(v) && ChainsOk(v.kind, v.fat, ch)
    requires 0 < v.csize && was.Entry? && Tight(v, ch, was) && was.head == h && h >= 2
    requires AppendCut(v, ch, was, bytes, v', ch', was)
    ensures AppendFailed(v, ch, was, bytes, v', ch', was)
  {
    hide *;
    var cs, off := v.csize, Rem(was.size, v.csize);
    CutParts(v, ch, was, bytes, v', ch', was);
    var before, pos := ChainBytes(v.data, ch[h]), WritePos(ch[h], off, cs);
    TightIs(v, ch, was);
    EndsInsideIs(was.size, cs);
    ClustersStep(was.size, cs);
    ChainFacts(v, ch, h);
    ChainBytesLength(v.data, ch[h], cs);
    WritePosIs(ch[h], off, cs);
    TailOverwritten(before, pos, bytes, Spare(v));
    if was.size == 0 {
      ContentsEmpty(v, ch, was);
      ContentsEmpty(v', ch', was);
    } else if off != 0 {
      TightEnd(was.size, cs, |ch[h]|);
      ClipIs(before, was.size);
    } else {
      TightFull(was.size, cs, |ch[h]|);
      TimesAdd(cs, |ch[h]| - 1, 1);
      TimesOnce(cs);
      ClipIs(before, was.size);
      assert before[..|before|] == before;
    }
    FailedIntro(v, ch, was, bytes, v', ch');
  }

  lemma ClipIs(bytes: seq<byte>, n: nat)
    requires n <= |bytes|
    ensures Clip(bytes, n) == bytes[..n]
  {
  }

  lemma TimesOnce(csize: nat)
    ensures Times(csize, 1) == csize
  {
  }

  lemma SafeIntro(v: Volume, ch: Chains, t: Tree, r: Ref, out: Outcome, ch': Chains, t': Tree, rec: Record)
    requires Inv(out.v, ch', t') && OnlySlot(t, t', r, rec)
    requires IsRef(t, r) && At(t, r).Entry? && OthersSame(v, ch, out.v, ch', t, At(t, r).head)
    requires out.v.csize == v.csize
    ensures AppendSafe(v, ch, t, r, out, ch', t', rec)
  {
  }

  lemma OthersSameRefl(v: Volume, ch: Chains, t: Tree, h: nat)
    ensures OthersSame(v, ch, v, ch, t, h)
  {
  }

  lemma TailCsize(v: Volume, loc: Loc, s: Slot, last: nat, offset: nat, bytes: seq<byte>)
    requires offset < v.csize
    ensures AppendTail(v, loc, s, last, offset, bytes).v.csize == v.csize
    ensures forall ts, b :: FillIn(v, ts, b).csize == v.csize
    ensures forall ts, l, z :: Adopt(v, ts, l, z).csize == v.csize
  {
  }

  lemma OthersWeaken(v: Volume, ch: Chains, v': Volume, ch': Chains, t: Tree, h: nat, h': nat)
    requires OthersSame(v, ch, v', ch', t, h) && h !in ch
    ensures OthersSame(v, ch, v', ch', t, h')
  {
  }

  /** Append to a file that owns a chain. */
  lemma AppendOwned(v: Volume, ch: Chains, t: Tree, r: Ref, loc: Loc, s: Slot, bytes: seq<byte>) returns (ch': Chains, t': Tree, rec: Record)
    requires Inv(v, ch, t) && StoredAt(v.data, ch, t, r, loc) && Decode(s) == At(t, r)
    requires At(t, r).Entry? && !At(t, r).dot && !At(t, r).directory && At(t, r).head >= 2
    requires bytes != []
    ensures 0 < v.csize
    ensures var out := Append(v, loc, s, bytes);
      && AppendSafe(v, ch, t, r, out, ch', t', rec)
      && AppendResult(v, ch, At(t, r), bytes, out, ch', rec)
  {
    hide *;
    StoredAtParts(v.data, ch, t, r, loc);
    InvParts(v, ch, t);
    CsizePositive(v);
    DecodeFields(s);
    var h := At(t, r).head;
    OwnsHead(At(t, r));
    OwnerHead(v, ch, t, r);
    ChainFacts(v, ch, h);
    WalkIs(v, ch, h);
    AppendUnfold(v, loc, s, bytes);
    var offset := Rem(Size(s), v.csize);
    ch', t', rec := AppendTailStep(v, ch, t, r, loc, s, h, offset, bytes);
    var out := Append(v, loc, s, bytes);
    AppendedParts(v, ch, t, r, h, out.v, ch', t', rec);
    InvParts(out.v, ch', t');
    TailCsize(v, loc, s, Last(ch[h]), offset, bytes);
    OnlySlotFacts(t, t', r, rec);
    OnlySlotEntry(t, t', r, rec);
    SafeIntro(v, ch, t, r, out, ch', t', rec);
    if out.ok && At(t, r).size + |bytes| < 0x1_0000_0000 {
      LandsWhenOwned(v, ch, At(t, r), h, bytes, out.v, ch', rec);
    }
    if !out.ok {
      CutWhenOwned(v, ch, At(t, r), h, bytes, out.v, ch');
    }
    if Tight(v, ch, At(t, r)) {
      if out.ok {
        if At(t, r).size + |bytes| < 0x1_0000_0000 {
          ExactWhenOwned(v, ch, At(t, r), h, bytes, out.v, ch', rec);
        }
      } else {
        FailedWhenOwned(v, ch, At(t, r), h, bytes, out.v, ch');
      }
    }
    ResultIntro(v, ch, At(t, r), bytes, out, ch', rec);
  }

  lemma OnlySlotEntry(t: Tree, t': Tree, r: Ref, rec: Record)
    requires OnlySlot(t, t', r, rec)
    ensures rec.Entry?
  {
  }

  lemma WalkIs(v: Volume, ch: Chains, h: nat)
    requires Shape(v) && ChainsOk(v.kind, v.fat, ch) && h in ch
    ensures ChainOf(v.kind, v.fat, h) == ch[h]
  {
    ChainOfChain(v.kind, v.fat, ch[h]);
  }

  lemma FirstFree(v: Volume)
    requires Shape(v) && FreeList(v.fat) != []
    ensures var c := FreeList(v.fat)[0]; 2 <= c < |v.fat| < 0x1_0000_0000 && v.fat[c] == 0
  {
    TakeFirst(v.fat, 1);
  }

  /** Append to a file without a chain: its first cluster is allocated first. */
  lemma AppendFirst(v: Volume, ch: Chains, t: Tree, r: Ref, loc: Loc, s: Slot, bytes: seq<byte>) returns (ch': Chains, t': Tree, rec: Record)
    requires Inv(v, ch, t) && StoredAt(v.data, ch, t, r, loc) && Decode(s) == At(t, r)
    requires At(t, r).Entry? && !At(t, r).dot && !At(t, r).directory && At(t, r).head < 2
    requires bytes != [] && FreeList(v.fat) != []
    ensures 0 < v.csize
    ensures var out := Append(v, loc, s, bytes);
      && AppendSafe(v, ch, t, r, out, ch', t', rec)
      && AppendResult(v, ch, At(t, r), bytes, out, ch', rec)
  {
    hide *;
    StoredAtParts(v.data, ch, t, r, loc);
    InvParts(v, ch, t);
    CsizePositive(v);
    DecodeFields(s);
    AppendUnfold(v, loc, s, bytes);
    FirstFree(v);
    var was := At(t, r);
    var c := FreeList(v.fat)[0];
    var s1 := WithSize(WithHead(s, c), 0);
    var first := was.(head := c, size := 0);
    FilledRecord(s, c, 0);
    Le32RoundTrip(0);
    OneFree(v.fat, c);
    FillFree(v, ch, t, [c], []);
    FillSame(v, ch, t, [c], [], c);
    var v0 := FillIn(v, [c], []);
    FillAttach(v, c, [c], []);
    InvParts(v0, ch, t);
    StoredAtFilled(v.data, ch, t, r, loc, v0.data);
    Refit(v0, ch, t, r, first);
    OwnsHead(was);
    OwnsHead(first);
    AdoptFile(v0, ch, t, r, loc, s1, [c]);
    var v1, ch1 := Adopt(v0, [c], loc, s1), ch[c := [c]];
    var t1 := SetAt(t, r, first).(own := t.own[c := r]);
    OnlySlotIntro(t, t1, r, first);
    OnlySlotFacts(t, t1, r, first);
    AdoptIs(v0, [c], loc, s1);
    PutSame(v0, ch, t, r, loc, s1, Link(v0.kind, v0.fat, [c]), ch1, c);
    OthersSameChain(v, ch, v0, ch, v1, ch1, t, t, c, c);
    TailCsize(v0, loc, s1, c, 0, bytes);
    TailCsize(v1, loc, s1, c, 0, bytes);
    ch', t', rec := AppendTailStep(v1, ch1, t1, r, loc, s1, c, 0, bytes);
    var out := Append(v, loc, s, bytes);
    LastOne(c);
    AppendedParts(v1, ch1, t1, r, c, out.v, ch', t', rec);
    OthersSameChain(v, ch, v1, ch1, out.v, ch', t, t1, c, c);
    OthersWeaken(v, ch, out.v, ch', t, c, was.head);
    OnlySlotTwice(t, t1, t', r, first, rec);
    OnlySlotEntry(t, t', r, rec);
    SafeIntro(v, ch, t, r, out, ch', t', rec);
    if out.ok && was.size + |bytes| < 0x1_0000_0000 {
      LandsEasily(v, ch, was, bytes);
      LowHeadOwnsNothing(v, ch, was);
      LandsWhenFresh(v, ch, was, v1, ch1, first, c, bytes, out.v, ch', rec);
    }
    if !out.ok {
      LowHeadOwnsNothing(v, ch, was);
      CutFresh(v, ch, was, bytes, out.v, ch', rec);
    }
    if Tight(v, ch, was) {
      TightIs(v, ch, was);
      if out.ok {
        if |bytes| < 0x1_0000_0000 {
          ExactWhenFresh(v, ch, was, v1, ch1, first, c, bytes, out.v, ch', rec);
        }
      } else {
        FailedFresh(v, ch, was, bytes, out.v, ch', rec);
      }
    }
    ResultIntro(v, ch, was, bytes, out, ch', rec);
  }

  lemma LowHeadOwnsNothing(v: Volume, ch: Chains, rec: Record)
    requires ChainsOk(v.kind, v.fat, ch) && rec.Entry? && rec.head < 2
    ensures rec.head !in ch
  {
    if rec.head in ch {
      HeadsInRange(v, ch, rec.head);
    }
  }

  lemma LastOne(c: nat)
    ensures Last([c]) == c
  {
  }

  lemma FailedFresh(v: Volume, ch: Chains, was: Record, bytes: seq<byte>, v': Volume, ch': Chains, rec: Record)
    requires 0 < v.csize && was.Entry? && was.size == 0 && rec.Entry? && rec.size == 0 && FreeList(v'.fat) == []
    ensures AppendFailed(v, ch, was, bytes, v', ch', rec)
  {
  }

  lemma CutFresh(v: Volume, ch: Chains, was: Record, bytes: seq<byte>, v': Volume, ch': Chains, rec: Record)
    requires 0 < v.csize && was.Entry? && was.head < 2 && was.head !in ch && rec.Entry? && FreeList(v'.fat) == []
    requires rec.size == 0 || (rec == was && ch' == ch)
    ensures AppendCut(v, ch, was, bytes, v', ch', rec)
  {
  }
}
