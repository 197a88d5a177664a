/** Append: the invariant on every path, where the bytes go, and exactly when that is right. */
module FatAppend {
  import opened Common
  import opened Arith
  import opened Bytes
  import opened FatTable
  import opened FatChains
  import opened FatSlots
  import opened FatStore
  import opened FatTree
  import opened FatOps
  import opened FatInvariant
  import opened FatSteps
  import opened FatFiles

  /** The byte position in a chain at which an append writes. */
  function WritePos(chain: seq<nat>, offset: nat, csize: nat): nat
    requires chain != []
  {
    Times(csize, |chain| - 1) + offset
  }

  /** `after` is `before` up to position `pos`, followed by `bytes`. */
  ghost predicate WroteAt(before: seq<byte>, after: seq<byte>, pos: nat, bytes: seq<byte>) {
    pos <= |before| && pos + |bytes| <= |after| && after[..pos + |bytes|] == before[..pos] + bytes
  }

  /** The bytes of a chain after writing `bytes` at `pos` in its last cluster and behind it. */
  function Rewritten(before: seq<byte>, pos: nat, bytes: seq<byte>, csize: nat): seq<byte>
    requires pos <= |before| && csize > 0
  {
    if pos + |bytes| <= |before| then before[..pos] + bytes + before[pos + |bytes|..]
    else before[..pos] + bytes[..|before| - pos] + Spread(bytes[|before| - pos..], csize)
  }

  lemma TakeFront(a: seq<byte>, x: seq<byte>, n: nat)
    requires n <= |x|
    ensures (a + x)[..|a| + n] == a + x[..n]
  {
  }

  lemma PatchBytes(before: seq<byte>, block: seq<byte>, offset: nat, bytes: seq<byte>, tail: seq<byte>, rest: seq<byte>)
    requires offset + |bytes| <= |block|
    requires |rest| <= |tail| && tail[..|rest|] == rest
    requires rest != [] ==> offset + |bytes| == |block|
    ensures WroteAt(before + block, before + Overwrite(block, offset, bytes) + tail, |before| + offset, bytes + rest)
    ensures var all, pos := before + block, |before| + offset;
      before + Overwrite(block, offset, bytes) + tail == all[..pos] + bytes + all[pos + |bytes|..] + tail
  {
    var front := before + block[..offset] + bytes;
    var x := block[offset + |bytes|..] + tail;
    assert before + Overwrite(block, offset, bytes) + tail == front + x;
    TakeFront(front, x, |rest|);
    assert x[..|rest|] == rest;
    TakeFront(before, block, offset);
    assert front + rest == before + block[..offset] + (bytes + rest);
    assert (before + block)[|before| + offset + |bytes|..] == block[offset + |bytes|..];
  }

  lemma SplitLast(data: Blocks, s: seq<nat>)
    requires s != [] && BlocksIn(data, s) && Distinct(s)
    ensures var init := s[..|s| - 1];
      && s == init + [Last(s)] && BlocksIn(data, init) && BlocksIn(data, [Last(s)]) && Last(s) < |data|
      && (forall c :: c in init ==> c in s && c != Last(s))
  {
  }

  lemma JoinBlocks(data: Blocks, s: seq<nat>, ts: seq<nat>)
    requires BlocksIn(data, s) && BlocksIn(data, ts)
    ensures BlocksIn(data, s + ts)
  {
  }

  lemma InitLength(data: Blocks, s: seq<nat>, csize: nat)
    requires s != [] && BlocksIn(data, s) && forall c :: c in s ==> c < |data| && |data[c]| == csize
    ensures BlocksIn(data, s[..|s| - 1]) && |ChainBytes(data, s[..|s| - 1])| == Times(csize, |s| - 1)
  {
    var init := s[..|s| - 1];
    assert forall i :: 0 <= i < |init| ==> init[i] in s;
    ChainBytesLength(data, init, csize);
  }

  /** The chain's bytes after patching its last cluster and filling the clusters added behind it. */
  lemma AppendedBytes(data: Blocks, data': Blocks, s: seq<nat>, ts: seq<nat>, offset: nat, bytes: seq<byte>, rest: seq<byte>, csize: nat)
    requires s != [] && BlocksIn(data, s) && BlocksIn(data, ts) && Distinct(s) && Disjoint(s, ts) && |data| == |data'|
    requires forall c :: c in s ==> c < |data| && |data[c]| == csize
    requires offset + |bytes| <= csize && (rest != [] ==> offset + |bytes| == csize)
    requires forall c :: c in s && c != Last(s) ==> data'[c] == data[c]
    requires data'[Last(s)] == Overwrite(data[Last(s)], offset, bytes)
    requires |rest| <= |ChainBytes(data', ts)| && ChainBytes(data', ts)[..|rest|] == rest
    ensures BlocksIn(data', s + ts)
    ensures WroteAt(ChainBytes(data, s), ChainBytes(data', s + ts), WritePos(s, offset, csize), bytes + rest)
    ensures var before, pos := ChainBytes(data, s), WritePos(s, offset, csize);
      && |before| == pos + csize - offset && BlocksIn(data', ts)
      && ChainBytes(data', s + ts) == before[..pos] + bytes + before[pos + |bytes|..] + ChainBytes(data', ts)
  {
    hide *;
    var init, last := s[..|s| - 1], Last(s);
    BlocksInSame(data, data', s);
    BlocksInSame(data, data', ts);
    SplitLast(data, s);
    SplitLast(data', s);
    JoinBlocks(data', s, ts);
    ChainBytesConcat(data, init, [last]);
    ChainBytesConcat(data', init, [last]);
    ChainBytesConcat(data', s, ts);
    ChainBytesFrame(data, data', init);
    InitLength(data, s, csize);
    SingleBytes(data, last);
    SingleBytes(data', last);
    WritePosLast(s, offset, csize);
    assert last in s;
    PatchBytes(ChainBytes(data, init), data[last], offset, bytes, ChainBytes(data', ts), rest);
  }

  lemma WritePosLast(s: seq<nat>, offset: nat, csize: nat)
    requires s != []
    ensures WritePos(s, offset, csize) == Times(csize, |s| - 1) + offset && Last(s) in s
  {
  }

  lemma SingleBytes(data: Blocks, c: nat)
    requires c < |data|
    ensures ChainBytes(data, [c]) == data[c]
  {
    assert ChainBytes(data, [c]) == data[c] + ChainBytes(data, [c][1..]);
  }

  // ---------------------------------------------------------------- growing the chain

  lemma PatchSame(v: Volume, ch: Chains, t: Tree, h: nat, c: nat, offset: nat, bytes: seq<byte>)
    requires Apart(ch) && h in ch && c in ch[h]
    ensures OthersSame(v, ch, PatchBlock(v, c, offset, bytes), ch, t, h)
  {
    hide Overwrite;
    forall g | g in ch && g !in t.view && g != h
      ensures SameFile(v, ch, PatchBlock(v, c, offset, bytes), ch, g)
    {
      assert Disjoint(ch[g], ch[h]);
    }
  }

  lemma AttachSame(v: Volume, ch: Chains, t: Tree, h: nat, last: nat, ts: seq<nat>, s: seq<nat>)
    ensures OthersSame(v, ch, AttachTo(v, last, ts), ch[h := s], t, h)
  {
  }

  lemma FillAttach(v: Volume, last: nat, ts: seq<nat>, bytes: seq<byte>)
    ensures FillIn(AttachTo(v, last, ts), ts, bytes) == AttachTo(FillIn(v, ts, bytes), last, ts)
    ensures AttachTo(v, last, ts).data == v.data
    ensures FillIn(v, ts, bytes).fat == v.fat && FillIn(v, ts, bytes).csize == v.csize && FillIn(v, ts, bytes).kind == v.kind
  {
  }

  lemma AppendRestUnfold(v: Volume, loc: Loc, s: Slot, last: nat, rest: seq<byte>)
    requires 0 < v.csize
    ensures var need, free := Clusters(|rest|, v.csize), FreeList(v.fat);
      var ts := Prefix(free, need);
      var v1 := AttachTo(FillIn(v, ts, rest), last, ts);
      && AllFree(v.fat, ts) && Distinct(ts)
      && (need > |free| ==> AppendRest(v, loc, s, last, rest) == Outcome(v1, false))
      && (need <= |free| ==> |ts| == need && AppendRest(v, loc, s, last, rest) == Outcome(PutAt(v1, loc, s), true))
  {
    FreeTake(v.fat, Clusters(|rest|, v.csize));
    FillAttach(v, last, Prefix(FreeList(v.fat), Clusters(|rest|, v.csize)), rest);
  }

  /** What an append leaves behind: the file's chain may have grown, its record may say more. */
  ghost predicate Appended(v: Volume, ch: Chains, t: Tree, r: Ref, h: nat, v': Volume, ch': Chains, t': Tree, rec: Record) {
    && Inv(v', ch', t') && OnlySlot(t, t', r, rec) && h in ch && h in ch'
    && OthersSame(v, ch, v', ch', t, h)
    && ch[h] <= ch'[h] && rec.head == h
  }

  lemma AppendedIntro(v: Volume, ch: Chains, t: Tree, r: Ref, h: nat, v': Volume, ch': Chains, t': Tree, rec: Record)
    requires Inv(v', ch', t') && OnlySlot(t, t', r, rec) && h in ch && h in ch'
    requires OthersSame(v, ch, v', ch', t, h)
    requires ch[h] <= ch'[h] && rec.head == h
    ensures Appended(v, ch, t, r, h, v', ch', t', rec)
  {
  }

  lemma SameSlot(t: Tree, r: Ref)
    requires IsRef(t, r) && At(t, r).Entry?
    ensures OnlySlot(t, t, r, At(t, r))
  {
    assert t.view[r.d][r.k := t.view[r.d][r.k]] == t.view[r.d];
    assert SetAt(t, r, At(t, r)).view == t.view;
  }

  lemma ResizedRecord(s: Slot, size: nat)
    requires Decode(s).Entry?
    ensures Decode(WithSize(s, size)) == Decode(s).(size := Wrap32(size))
  {
    DecodeWithSize(s, size);
  }

  /** Storing a new size in the record of an owned file. */
  lemma ResizeStep(v: Volume, ch: Chains, t: Tree, r: Ref, loc: Loc, s: Slot, size: nat, h: nat)
    requires Inv(v, ch, t) && StoredAt(v.data, ch, t, r, loc) && Decode(s) == At(t, r)
    requires At(t, r).Entry? && !At(t, r).dot && !At(t, r).directory && At(t, r).head == h && h >= 2
    ensures h in ch && h !in t.view
    ensures Appended(v, ch, t, r, h, PutAt(v, loc, WithSize(s, size)), ch,
                     SetAt(t, r, At(t, r).(size := Wrap32(size))), At(t, r).(size := Wrap32(size)))
  {
    hide *;
    StoredAtParts(v.data, ch, t, r, loc);
    InvParts(v, ch, t);
    var rec := At(t, r).(size := Wrap32(size));
    ResizedRecord(s, size);
    Refit(v, ch, t, r, rec);
    OwnsHead(At(t, r));
    OwnsHead(rec);
    OwnerHead(v, ch, t, r);
    KeepSlot(v, ch, t, r, loc, WithSize(s, size));
    PutSame(v, ch, t, r, loc, WithSize(s, size), v.fat, ch, h);
    var t' := SetAt(t, r, rec);
    OnlySlotIntro(t, t', r, rec);
    AppendedIntro(v, ch, t, r, h, PutAt(v, loc, WithSize(s, size)), ch, t', rec);
  }

  lemma StoredAtGrown(data: Blocks, ch: Chains, t: Tree, r: Ref, loc: Loc, h: nat, s: seq<nat>)
    requires StoredAt(data, ch, t, r, loc) && h !in t.view && h != 0
    ensures StoredAt(data, ch[h := s], t, r, loc)
  {
  }

  lemma PutAtOthers(v: Volume, loc: Loc, s: Slot, chain: seq<nat>)
    requires BlocksIn(v.data, chain) && loc.c !in chain
    ensures BlocksIn(PutAt(v, loc, s).data, chain) && |PutAt(v, loc, s).data| == |v.data|
    ensures forall c :: c in chain ==> c < |v.data| && PutAt(v, loc, s).data[c] == v.data[c]
  {
  }

  /** Storing a record leaves the bytes of every file alone. */
  lemma PutKeepsBytes(v: Volume, ch: Chains, t: Tree, r: Ref, loc: Loc, s: Slot, h: nat)
    requires ChainsOk(v.kind, v.fat, ch) && StoredAt(v.data, ch, t, r, loc) && h in ch && h !in t.view
    requires BlocksIn(v.data, ch[h])
    ensures BlocksIn(PutAt(v, loc, s).data, ch[h])
    ensures ChainBytes(PutAt(v, loc, s).data, ch[h]) == ChainBytes(v.data, ch[h])
  {
    hide *;
    StoredAtFacts(v.data, ch, t, r, loc);
    if loc.c in ch[h] {
      FileIsNoDirBlock(v, ch, t, h, loc.c);
    }
    PutAtOthers(v, loc, s, ch[h]);
    ChainBytesFrame(v.data, PutAt(v, loc, s).data, ch[h]);
  }

  lemma ChainFacts(v: Volume, ch: Chains, h: nat)
    requires Shape(v) && ChainsOk(v.kind, v.fat, ch) && h in ch
    ensures 2 <= h && ch[h] != [] && BlocksIn(v.data, ch[h]) && Distinct(ch[h]) && Last(ch[h]) in ch[h]
    ensures forall c :: c in ch[h] ==> c < |v.data| && |v.data[c]| == v.csize
  {
  }

  lemma PatchIs(v: Volume, c: nat, offset: nat, bytes: seq<byte>)
    requires c < |v.data|
    ensures PatchBlock(v, c, offset, bytes) == v.(data := v.data[c := Overwrite(v.data[c], offset, bytes)])
  {
  }

  lemma TailUnfold(v: Volume, loc: Loc, s: Slot, last: nat, offset: nat, bytes: seq<byte>)
    requires offset < v.csize
    ensures var n := if |bytes| < v.csize - offset then |bytes| else v.csize - offset;
      var v1 := PatchBlock(v, last, offset, bytes[..n]);
      && v1.csize == v.csize && v1.fat == v.fat && v1.kind == v.kind
      && bytes == bytes[..n] + bytes[n..]
      && (offset + n < v.csize ==> bytes[n..] == [] && n == |bytes|)
      && (offset + n < v.csize ==>
        AppendTail(v, loc, s, last, offset, bytes) == Outcome(PutAt(v1, loc, WithSize(s, Size(s) + |bytes|)), true))
      && (offset + n >= v.csize ==> offset + n == v.csize)
      && (offset + n >= v.csize ==>
        AppendTail(v, loc, s, last, offset, bytes) == AppendRest(v1, loc, WithSize(s, Size(s) + |bytes|), last, bytes[n..]))
  {
  }

  /** How many bytes of an append fit into the tail cluster. */
  function Fitting(bytes: seq<byte>, offset: nat, csize: nat): nat
    requires offset < csize
  {
    if |bytes| < csize - offset then |bytes| else csize - offset
  }

  /** Patched tail and filled new clusters, before the record is updated. */
  lemma GrownBytes(v: Volume, ch: Chains, h: nat, ts: seq<nat>, offset: nat, bytes: seq<byte>, rest: seq<byte>)
    requires Shape(v) && ChainsOk(v.kind, v.fat, ch) && h in ch && AllFree(v.fat, ts) && Distinct(ts)
    requires offset + |bytes| <= v.csize && (rest != [] ==> offset + |bytes| == v.csize)
    requires |ts| == Clusters(|rest|, v.csize)
    ensures ch[h] != [] && BlocksIn(v.data, ch[h])
    ensures BlocksIn(FillIn(PatchBlock(v, Last(ch[h]), offset, bytes), ts, rest).data, ch[h] + ts)
    ensures WroteAt(ChainBytes(v.data, ch[h]),
                    ChainBytes(FillIn(PatchBlock(v, Last(ch[h]), offset, bytes), ts, rest).data, ch[h] + ts),
                    WritePos(ch[h], offset, v.csize), bytes + rest)
    ensures var before, pos := ChainBytes(v.data, ch[h]), WritePos(ch[h], offset, v.csize);
      && |before| == pos + v.csize - offset && 0 < v.csize
      && ChainBytes(FillIn(PatchBlock(v, Last(ch[h]), offset, bytes), ts, rest).data, ch[h] + ts) == Rewritten(before, pos, bytes + rest, v.csize)
  {
    hide IsEoc, Overwrite, Fill, ChainBytes, Spread, Clusters, Times;
    ChainFacts(v, ch, h);
    FreeIsUnowned(v.kind, v.fat, ch, h, ts);
    hide ChainsOk;
    var v1 := PatchBlock(v, Last(ch[h]), offset, bytes);
    PatchIs(v, Last(ch[h]), offset, bytes);
    FillReadsBack(v1.data, ts, rest, v.csize);
    FillReadsWhole(v1.data, ts, rest, v.csize);
    FillFrame(v1.data, ts, rest, v.csize);
    AppendedBytes(v.data, FillIn(v1, ts, rest).data, ch[h], ts, offset, bytes, rest, v.csize);
    RewrittenParts(ChainBytes(v.data, ch[h]), WritePos(ch[h], offset, v.csize), bytes, rest, v.csize);
  }

  lemma RewrittenParts(before: seq<byte>, pos: nat, bytes: seq<byte>, rest: seq<byte>, csize: nat)
    requires csize > 0 && pos + |bytes| <= |before| && (rest != [] ==> pos + |bytes| == |before|)
    ensures Rewritten(before, pos, bytes + rest, csize) == before[..pos] + bytes + before[pos + |bytes|..] + Spread(rest, csize)
  {
    hide Spread;
    if rest == [] {
      assert bytes + rest == bytes;
      NothingSpread(csize);
    } else {
      assert (bytes + rest)[..|bytes|] == bytes && (bytes + rest)[|bytes|..] == rest;
    }
  }

  lemma NothingSpread(csize: nat)
    requires csize > 0
    ensures Spread([], csize) == []
  {
  }

  lemma AppendedParts(v: Volume, ch: Chains, t: Tree, r: Ref, h: nat, v': Volume, ch': Chains, t': Tree, rec: Record)
    requires Appended(v, ch, t, r, h, v', ch', t', rec)
    ensures Inv(v', ch', t') && OnlySlot(t, t', r, rec) && h in ch && h in ch'
    ensures OthersSame(v, ch, v', ch', t, h) && ch[h] <= ch'[h] && rec.head == h
  {
  }

  /** `bytes` were written at the end position of chain `h`, which grew as needed. */
  ghost predicate WroteBytes(v: Volume, ch: Chains, h: nat, offset: nat, bytes: seq<byte>, v': Volume, ch': Chains) {
    && offset < v.csize
    && h in ch && h in ch' && ch[h] != [] && BlocksIn(v.data, ch[h]) && BlocksIn(v'.data, ch'[h])
    && |ch'[h]| == |ch[h]| + Clusters(|bytes| - Fitting(bytes, offset, v.csize), v.csize)
    && var before, pos := ChainBytes(v.data, ch[h]), WritePos(ch[h], offset, v.csize);
      && WroteAt(before, ChainBytes(v'.data, ch'[h]), pos, bytes)
      && |before| == pos + v.csize - offset
      && ChainBytes(v'.data, ch'[h]) == Rewritten(before, pos, bytes, v.csize)
  }

  /** A successful append wrote `bytes` and counted them. */
  ghost predicate WroteTail(v: Volume, ch: Chains, was: Record, h: nat, offset: nat, bytes: seq<byte>, v': Volume, ch': Chains, rec: Record) {
    && was.Entry? && rec.Entry?
    && rec.size == Wrap32(was.size + |bytes|)
    && WroteBytes(v, ch, h, offset, bytes, v', ch')
  }

  lemma WroteTailIntro(v: Volume, ch: Chains, was: Record, h: nat, offset: nat, bytes: seq<byte>, v3: Volume, v': Volume, ch': Chains, rec: Record)
    requires was.Entry? && rec.Entry?
    requires rec.size == Wrap32(was.size + |bytes|)
    requires WroteBytes(v, ch, h, offset, bytes, v3, ch')
    requires BlocksIn(v'.data, ch'[h]) && ChainBytes(v'.data, ch'[h]) == ChainBytes(v3.data, ch'[h])
    ensures WroteTail(v, ch, was, h, offset, bytes, v', ch', rec)
  {
  }

  lemma GrownOthers(v: Volume, v1: Volume, v2: Volume, v3: Volume, ch: Chains, ch3: Chains, t: Tree, h: nat)
    requires OthersSame(v, ch, v1, ch, t, h) && OthersSame(v1, ch, v2, ch, t, h) && OthersSame(v2, ch, v3, ch3, t, h)
    ensures OthersSame(v, ch, v3, ch3, t, h)
  {
    OthersSameChain(v, ch, v1, ch, v2, ch, t, t, h, h);
    OthersSameChain(v, ch, v2, ch, v3, ch3, t, t, h, h);
  }

  lemma PrefixOf(s: seq<nat>, ts: seq<nat>)
    ensures s <= s + ts
  {
  }

  lemma WroteBytesIntro(v: Volume, ch: Chains, h: nat, offset: nat, bytes: seq<byte>, v': Volume, ch': Chains, ts: seq<nat>)
    requires offset < v.csize && h in ch && ch[h] != [] && ch' == ch[h := ch[h] + ts]
    requires BlocksIn(v.data, ch[h]) && BlocksIn(v'.data, ch[h] + ts)
    requires |ts| == Clusters(|bytes| - Fitting(bytes, offset, v.csize), v.csize)
    requires var before, pos := ChainBytes(v.data, ch[h]), WritePos(ch[h], offset, v.csize);
      && WroteAt(before, ChainBytes(v'.data, ch[h] + ts), pos, bytes)
      && |before| == pos + v.csize - offset
      && ChainBytes(v'.data, ch[h] + ts) == Rewritten(before, pos, bytes, v.csize)
    ensures WroteBytes(v, ch, h, offset, bytes, v', ch')
  {
  }

  /** Grows the chain of file `h`: patch its tail, fill new clusters, link them. */
  lemma GrowStep(v: Volume, ch: Chains, t: Tree, r: Ref, loc: Loc, h: nat, ts: seq<nat>, offset: nat, bytes: seq<byte>, rest: seq<byte>)
    requires Inv(v, ch, t) && StoredAt(v.data, ch, t, r, loc) && h in ch && h !in t.view
    requires AllFree(v.fat, ts) && Distinct(ts)
    ensures ch[h] != []
    ensures var v3 := AttachTo(FillIn(PatchBlock(v, Last(ch[h]), offset, bytes), ts, rest), Last(ch[h]), ts);
      var ch3 := ch[h := ch[h] + ts];
      && Inv(v3, ch3, t) && StoredAt(v3.data, ch3, t, r, loc)
      && OthersSame(v, ch, v3, ch3, t, h)
      && v3.data == FillIn(PatchBlock(v, Last(ch[h]), offset, bytes), ts, rest).data
  {
    hide *;
    InvParts(v, ch, t);
    ChainFacts(v, ch, h);
    CsizePositive(v);
    ChainsApart(v, ch);
    var last := Last(ch[h]);
    var v1 := PatchBlock(v, last, offset, bytes);
    PatchIs(v, last, offset, bytes);
    PatchFile(v, ch, t, h, last, offset, bytes);
    PatchSame(v, ch, t, h, last, offset, bytes);
    InvParts(v1, ch, t);
    StoredAtFilled(v.data, ch, t, r, loc, v1.data);
    CsizePositive(v1);
    var v2 := FillIn(v1, ts, rest);
    FillFree(v1, ch, t, ts, rest);
    FillSame(v1, ch, t, ts, rest, h);
    FillAttach(v1, last, ts, rest);
    InvParts(v2, ch, t);
    StoredAtFilled(v1.data, ch, t, r, loc, v2.data);
    GrowFile(v2, ch, t, h, ts);
    var v3, ch3 := AttachTo(v2, last, ts), ch[h := ch[h] + ts];
    FillAttach(v2, last, ts, rest);
    AttachSame(v2, ch, t, h, last, ts, ch[h] + ts);
    GrownOthers(v, v1, v2, v3, ch, ch3, t, h);
    StoredAtGrown(v2.data, ch, t, r, loc, h, ch[h] + ts);
  }

  lemma ChainsApart(v: Volume, ch: Chains)
    requires ChainsOk(v.kind, v.fat, ch)
    ensures Apart(ch)
  {
  }

  /** The last part of an append: the record learns the new size. */
  lemma FinishStep(v: Volume, ch: Chains, t: Tree, r: Ref, h: nat, v3: Volume, ch3: Chains, loc: Loc, s: Slot, offset: nat, bytes: seq<byte>)
      returns (t': Tree, rec: Record)
    requires Inv(v3, ch3, t) && StoredAt(v3.data, ch3, t, r, loc) && Decode(s) == At(t, r)
    requires At(t, r).Entry? && !At(t, r).dot && !At(t, r).directory && At(t, r).head == h && h >= 2
    requires h in ch && h in ch3 && ch[h] != [] && ch[h] <= ch3[h] && OthersSame(v, ch, v3, ch3, t, h)
    requires WroteBytes(v, ch, h, offset, bytes, v3, ch3)
    ensures var v' := PutAt(v3, loc, WithSize(s, Size(s) + |bytes|));
      Appended(v, ch, t, r, h, v', ch3, t', rec) && WroteTail(v, ch, At(t, r), h, offset, bytes, v', ch3, rec)
  {
    hide *;
    StoredAtParts(v3.data, ch3, t, r, loc);
    InvParts(v3, ch3, t);
    DecodeFields(s);
    var size := Size(s) + |bytes|;
    var v' := PutAt(v3, loc, WithSize(s, size));
    ResizeStep(v3, ch3, t, r, loc, s, size, h);
    rec := At(t, r).(size := Wrap32(size));
    t' := SetAt(t, r, rec);
    AppendedParts(v3, ch3, t, r, h, v', ch3, t', rec);
    OthersSameChain(v, ch, v3, ch3, v', ch3, t, t, h, h);
    AppendedIntro(v, ch, t, r, h, v', ch3, t', rec);
    ChainFacts(v3, ch3, h);
    PutKeepsBytes(v3, ch3, t, r, loc, WithSize(s, size), h);
    WroteTailIntro(v, ch, At(t, r), h, offset, bytes, v3, v', ch3, rec);
  }

  lemma NoClusters(v: Volume, last: nat)
    requires 0 < v.csize
    ensures Clusters(0, v.csize) == 0
    ensures AllFree(v.fat, []) && Distinct([])
    ensures AttachTo(FillIn(v, [], []), last, []) == v
  {
    ClustersStep(0, v.csize);
  }

  /** At the end position of chain `h`, as much of `bytes` was written as its last cluster and all free clusters take. */
  ghost predicate WroteSome(v: Volume, ch: Chains, h: nat, offset: nat, bytes: seq<byte>, v': Volume, ch': Chains) {
    && offset < v.csize
    && h in ch && h in ch' && ch[h] != [] && BlocksIn(v.data, ch[h]) && BlocksIn(v'.data, ch'[h])
    && var before, pos := ChainBytes(v.data, ch[h]), WritePos(ch[h], offset, v.csize);
      var room := v.csize - offset + Times(v.csize, |FreeList(v.fat)|);
      && |before| == pos + v.csize - offset && room < |bytes|
      && ChainBytes(v'.data, ch'[h]) == before[..pos] + bytes[..room]
  }

  lemma PrefixAll(s: seq<nat>, n: nat)
    requires n > |s|
    ensures Prefix(s, n) == s
  {
  }

  lemma GrownSome(v: Volume, ch: Chains, h: nat, offset: nat, bytes: seq<byte>, rest: seq<byte>, v3: Volume, ch3: Chains)
    requires Shape(v) && ChainsOk(v.kind, v.fat, ch) && h in ch && AllFree(v.fat, FreeList(v.fat)) && Distinct(FreeList(v.fat))
    requires offset + |bytes| == v.csize && offset < v.csize && ch[h] != [] && |FreeList(v.fat)| < Clusters(|rest|, v.csize)
    requires v3.data == FillIn(PatchBlock(v, Last(ch[h]), offset, bytes), FreeList(v.fat), rest).data && ch3 == ch[h := ch[h] + FreeList(v.fat)]
    ensures WroteSome(v, ch, h, offset, bytes + rest, v3, ch3)
  {
    hide IsEoc, Overwrite, Fill, FreeList, Clusters, ChainBytes, Times;
    var ts := FreeList(v.fat);
    ChainFacts(v, ch, h);
    FreeIsUnowned(v.kind, v.fat, ch, h, ts);
    hide ChainsOk;
    var v1 := PatchBlock(v, Last(ch[h]), offset, bytes);
    PatchIs(v, Last(ch[h]), offset, bytes);
    FillFrame(v1.data, ts, rest, v.csize);
    FillReadsPart(v1.data, ts, rest, v.csize);
    AppendedBytes(v.data, v3.data, ch[h], ts, offset, bytes, [], v.csize);
    hide WritePos;
    var before, pos, m := ChainBytes(v.data, ch[h]), WritePos(ch[h], offset, v.csize), Times(v.csize, |ts|);
    PartWritten(before, pos, bytes, rest, m);
  }

  lemma PartWritten(before: seq<byte>, pos: nat, bytes: seq<byte>, rest: seq<byte>, m: nat)
    requires |before| == pos + |bytes| && m <= |rest|
    ensures before[..pos] + bytes + before[pos + |bytes|..] + rest[..m] == before[..pos] + (bytes + rest)[..|bytes| + m]
  {
    assert (bytes + rest)[..|bytes| + m] == bytes + rest[..m];
  }

  lemma {:induction false} NoneFreeFrom(fat: Table, c: nat)
    requires c <= |fat| && forall x :: c <= x < |fat| ==> fat[x] != 0
    ensures FreeFrom(fat, c) == []
    decreases |fat| - c
  {
    if c < |fat| {
      NoneFreeFrom(fat, c + 1);
    }
  }

  lemma NoneFree(fat: Table)
    requires forall x :: 2 <= x < |fat| ==> fat[x] != 0
    ensures FreeList(fat) == []
  {
    if 2 <= |fat| {
      NoneFreeFrom(fat, 2);
    }
  }

  lemma AllTaken(v: Volume, ch: Chains, h: nat, v3: Volume, ch3: Chains)
    requires Shape(v) && ChainsOk(v.kind, v.fat, ch) && h in ch && ch[h] != [] && h in ch3
    requires ChainsOk(v3.kind, v3.fat, ch3) && ch3[h] == ch[h] + FreeList(v.fat)
    requires v3.fat == Attach(v.kind, v.fat, Last(ch[h]), FreeList(v.fat))
    ensures FreeList(v3.fat) == []
  {
    hide *;
    var free := FreeList(v.fat);
    FreeListFacts(v.fat);
    FreeTake(v.fat, |free|);
    PrefixIs(free);
    FreeIsUnowned(v.kind, v.fat, ch, h, free);
    ChainIsWired(v, ch, h);
    ChainIsWired(v3, ch3, h);
    AttachExtends(v.kind, v.fat, ch[h], free);
    ChainIsNonzero(v3.kind, v3.fat, ch3[h]);
    ChainFacts(v, ch, h);
    NoneFree(v3.fat);
  }

  lemma PrefixIs(s: seq<nat>)
    ensures Prefix(s, |s|) == s
  {
  }

  lemma ChainIsWired(v: Volume, ch: Chains, h: nat)
    requires ChainsOk(v.kind, v.fat, ch) && h in ch
    ensures IsChain(v.kind, v.fat, ch[h])
  {
  }

  /** Appending at the tail of an owned file, on success and when space runs out. */
  lemma AppendTailStep(v: Volume, ch: Chains, t: Tree, r: Ref, loc: Loc, s: Slot, h: nat, offset: nat, bytes: seq<byte>)
      returns (ch': Chains, t': Tree, rec: Record)
    requires Inv(v, ch, t) && StoredAt(v.data, ch, t, r, loc) && Decode(s) == At(t, r)
    requires At(t, r).Entry? && !At(t, r).dot && !At(t, r).directory && At(t, r).head == h && h >= 2
    requires offset < v.csize
    ensures h in ch && ch[h] != []
    ensures var out := AppendTail(v, loc, s, Last(ch[h]), offset, bytes);
      && Appended(v, ch, t, r, h, out.v, ch', t', rec)
      && (out.ok ==> WroteTail(v, ch, At(t, r), h, offset, bytes, out.v, ch', rec))
      && (!out.ok ==> rec == At(t, r) && FreeList(out.v.fat) == [])
      && (!out.ok ==> v.csize - offset < |bytes| && WroteSome(v, ch, h, offset, bytes, out.v, ch'))
  {
    hide *;
    StoredAtParts(v.data, ch, t, r, loc);
    InvParts(v, ch, t);
    CsizePositive(v);
    OwnsHead(At(t, r));
    OwnerHead(v, ch, t, r);
    ChainFacts(v, ch, h);
    var last := Last(ch[h]);
    TailUnfold(v, loc, s, last, offset, bytes);
    var n := Fitting(bytes, offset, v.csize);
    FittingIs(bytes, offset, v.csize);
    var v1, rest := PatchBlock(v, last, offset, bytes[..n]), bytes[n..];
    var s1 := WithSize(s, Size(s) + |bytes|);
    AppendRestUnfold(v1, loc, s1, last, rest);
    NoClusters(v1, last);
    var ts := if offset + n < v.csize then [] else Prefix(FreeList(v.fat), Clusters(|rest|, v.csize));
    GrowStep(v, ch, t, r, loc, h, ts, offset, bytes[..n], rest);
    var v3, ch3 := AttachTo(FillIn(v1, ts, rest), last, ts), ch[h := ch[h] + ts];
    AttachToIs(FillIn(v1, ts, rest), last, ts);
    FillAttach(v1, last, ts, rest);
    InvParts(v3, ch3, t);
    PrefixOf(ch[h], ts);
    if offset + n >= v.csize && Clusters(|rest|, v.csize) > |FreeList(v.fat)| {
      SameSlot(t, r);
      ch', t', rec := ch3, t, At(t, r);
      AppendedIntro(v, ch, t, r, h, v3, ch3, t, rec);
      PrefixAll(FreeList(v.fat), Clusters(|rest|, v.csize));
      FreeListFacts(v.fat);
      assert bytes[..n] + rest == bytes;
      GrownSome(v, ch, h, offset, bytes[..n], rest, v3, ch3);
      AllTaken(v, ch, h, v3, ch3);
    } else {
      GrownBytes(v, ch, h, ts, offset, bytes[..n], rest);
      ch' := ch3;
      WroteBytesIntro(v, ch, h, offset, bytes, v3, ch3, ts);
      t', rec := FinishStep(v, ch, t, r, h, v3, ch3, loc, s, offset, bytes);
    }
  }

  lemma FittingIs(bytes: seq<byte>, offset: nat, csize: nat)
    requires offset < csize
    ensures Fitting(bytes, offset, csize) == if |bytes| < csize - offset then |bytes| else csize - offset
  {
  }
}
