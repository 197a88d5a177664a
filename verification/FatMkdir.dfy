/** Mkdir under the invariant. */
module FatMkdir {
  import opened Common
  import opened Bytes
  import opened FatTable
  import opened FatChains
  import opened FatSlots
  import opened FatStore
  import opened FatTree
  import opened FatOps
  import opened FatInvariant
  import opened FatSteps
  import opened FatFiles
  import opened FatAppend
  import opened FatAppendExact
  import opened FatDirs
  import opened FatWrites

  lemma DecodeDotName(name: ShortName)
    requires name == DOT || name == DOTDOT
    ensures Decode(Fresh(name, ATTR_DIRECTORY)) == Entry(name, true, true, 0, 0)
  {
    var s := Fresh(name, ATTR_DIRECTORY);
    FreshBytes(name, ATTR_DIRECTORY);
    hide Fresh;
    assert Name(s) == name;
    assert name[0] == 46;
  }

  lemma DecodeDot(name: ShortName, head: nat)
    requires name == DOT || name == DOTDOT
    requires head < 0x1_0000_0000
    ensures Decode(WithHead(Fresh(name, ATTR_DIRECTORY), head)) == Entry(name, true, true, head, 0)
  {
    hide Decode, WithHead, Fresh;
    DecodeDotName(name);
    DecodeWithHead(Fresh(name, ATTR_DIRECTORY), head);
  }

  lemma DotBlockSlots(csize: nat, self: nat, parent: nat, k: nat)
    requires 64 <= csize && k < SlotCount(DotBlock(csize, self, parent))
    ensures |DotBlock(csize, self, parent)| == csize && 2 <= SlotCount(DotBlock(csize, self, parent))
    ensures k == 0 ==> SlotAt(DotBlock(csize, self, parent), k) == WithHead(Fresh(DOT, ATTR_DIRECTORY), self)
    ensures k == 1 ==> SlotAt(DotBlock(csize, self, parent), k) == WithHead(Fresh(DOTDOT, ATTR_DIRECTORY), parent)
    ensures k >= 2 ==> Decode(SlotAt(DotBlock(csize, self, parent), k)) == End
  {
    hide WithHead, Fresh;
    var block := DotBlock(csize, self, parent);
    if k >= 2 {
      assert SlotAt(block, k)[0] == 0;
    }
  }

  /** The first cluster of a new directory: two dot records, then END. */
  lemma DotBlockDir(csize: nat, self: nat, parent: nat)
    requires 64 <= csize && self < 0x1_0000_0000 && parent < 0x1_0000_0000
    ensures var dir := BlockRecords(DotBlock(csize, self, parent));
      DirOk(dir) && forall k :: 0 <= k < |dir| ==> !(dir[k].Entry? && !dir[k].dot) && !Owns(dir[k])
  {
    var block := DotBlock(csize, self, parent);
    var dir := BlockRecords(block);
    forall k | 0 <= k < |dir|
      ensures k == 0 ==> dir[k] == Entry(DOT, true, true, self, 0)
      ensures k == 1 ==> dir[k] == Entry(DOTDOT, true, true, parent, 0)
      ensures k >= 2 ==> dir[k] == End
    {
      hide Decode, DotBlock, SlotAt, WithHead, Fresh;
      DotBlockSlots(csize, self, parent, k);
      DecodeDot(DOT, self);
      DecodeDot(DOTDOT, parent);
    }
    hide Decode, DotBlock, SlotAt, WithHead, Fresh, BlockRecords;
    assert DOT[1] != DOTDOT[1];
  }

  lemma MkdirUnfold(v: Volume, d: nat, name: ShortName)
    requires Shape(v)
    ensures 64 <= v.csize
    ensures var made := Create(v, d, Fresh(name, ATTR_DIRECTORY));
      && (Find(DirOf(v, d), name).Some? ==> Mkdir(v, d, name) == Outcome(v, false))
      && (Find(DirOf(v, d), name).None? && (made.loc.None? || FreeList(made.v.fat) == []) ==> Mkdir(v, d, name) == Outcome(made.v, false))
      && (Find(DirOf(v, d), name).None? && made.loc.Some? && FreeList(made.v.fat) != [] ==>
        var c := FreeList(made.v.fat)[0];
        var block := DotBlock(v.csize, c, if d < 2 && v.kind.Fat16? then 0 else d);
        Mkdir(v, d, name) == Outcome(Adopt(FillIn(made.v, [c], block), [c], made.loc.value, WithHead(Fresh(name, ATTR_DIRECTORY), c)), true))
  {
  }

  lemma FilledBlock(v: Volume, c: nat, block: seq<byte>)
    requires c < |v.data| && |block| == v.csize
    ensures c < |FillIn(v, [c], block).data| && FillIn(v, [c], block).data[c] == block
    ensures FillIn(v, [c], block).fat == v.fat
  {
    assert block[..v.csize] == block;
    assert [c][1..] == [];
    assert Fill(v.data, [c], block, v.csize) == v.data[c := block];
  }

  lemma HeadedRecord(s: Slot, head: nat)
    requires Decode(s).Entry? && head < 0x1_0000_0000
    ensures Decode(WithHead(s, head)) == Decode(s).(head := head)
  {
    DecodeWithHead(s, head);
  }

  lemma DirNumber(v: Volume, ch: Chains, t: Tree, d: nat)
    requires Inv(v, ch, t) && d in t.view
    ensures d < 0x1_0000_0000
  {
    DirIsStored(v, ch, t, d);
    if d != 0 {
      HeadsInRange(v, ch, d);
    }
  }

  lemma AddDirView(t: Tree, r: Ref, rec: Record, dir: Dir)
    requires IsRef(t, r) && r.d in t.rank && rec.Entry? && rec.head !in t.view
    ensures var t' := AddDir(t, r, rec, dir);
      && t'.view.Keys == t.view.Keys + {rec.head} && t'.view[rec.head] == dir
      && t'.view[r.d] == t.view[r.d][r.k := rec]
      && forall e :: e in t.view && e != r.d ==> t'.view[e] == t.view[e]
  {
  }

  lemma AddDirLookup(t: Tree, r: Ref, rec: Record, t': Tree, e: nat, n: ShortName)
    requires IsRef(t, r) && rec.Entry? && At(t, r).Entry? && At(t, r).name == rec.name
    requires e in t.view && e in t'.view && DirOk(t.view[e]) && DirOk(t'.view[e]) && (e != r.d || n != rec.name)
    requires t'.view[e] == if e == r.d then t.view[e][r.k := rec] else t.view[e]
    ensures Lookup(t', e, n) == Lookup(t, e, n)
  {
    hide DirOk;
    LookupSame(t, t', e, n);
  }

  /** A new directory: what else there was stays, and the new one is below `d`. */
  lemma AddDirNames(t: Tree, heads: set<nat>, heads': set<nat>, r: Ref, rec: Record, dir: Dir)
    requires TreeOk(t, heads) && IsRef(t, r) && r.d in t.rank && rec.Entry? && rec.head !in t.view
    requires At(t, r).Entry? && At(t, r).name == rec.name
    requires TreeOk(AddDir(t, r, rec, dir), heads')
    ensures var t' := AddDir(t, r, rec, dir);
      && t'.view.Keys == t.view.Keys + {rec.head} && t'.view[rec.head] == dir
      && Lookup(t', r.d, rec.name) == Some(rec) && NamesKept(t, t', r.d, rec.name)
  {
    var t' := AddDir(t, r, rec, dir);
    AddDirView(t, r, rec, dir);
    DirsOkOf(t, heads);
    DirsOkOf(t', heads');
    hide TreeOk, AddDir, DirOk, Lookup;
    assert t'.view[r.d][r.k] == rec;
    LookupSlot(t', r.d, rec.name, r.k);
    forall e, n | e in t.view && (e != r.d || n != rec.name)
      ensures Lookup(t', e, n) == Lookup(t, e, n)
    {
      AddDirLookup(t, r, rec, t', e, n);
    }
  }

  // ---------------------------------------------------------------- when a mkdir succeeds, and what a failed one leaves

  /** The directory has a reusable or an END slot. */
  ghost predicate HasRoom(t: Tree, d: nat)
    requires d in t.view
  {
    Room(t.view[d]) < |t.view[d]|
  }

  /** There is a cluster for the new directory, and one more if its parent has to grow. */
  ghost predicate Makes(v: Volume, t: Tree, d: nat, name: ShortName) {
    && d in t.view && Lookup(t, d, name).None?
    && if HasRoom(t, d) then |FreeList(v.fat)| >= 1 else d != 0 && |FreeList(v.fat)| >= 2
  }

  /** There is a slot for the record, but no cluster is left for the directory. */
  ghost predicate Strands(v: Volume, t: Tree, d: nat, name: ShortName) {
    && d in t.view && Lookup(t, d, name).None?
    && if HasRoom(t, d) then |FreeList(v.fat)| == 0 else d != 0 && |FreeList(v.fat)| == 1
  }

  /** The record a mkdir starts with: a directory without a cluster. */
  function Stranded(name: ShortName): Record {
    Entry(name, false, true, 0, 0)
  }

  lemma TakenLast(kind: Kind, fat: Table, last: nat, c: nat)
    requires Bounded(kind, fat) && FreeList(fat) != [] && c == FreeList(fat)[0] && last < |fat| && fat[last] != 0
    ensures FreeList(Attach(kind, fat, last, [c])) == FreeList(fat)[1..]
  {
    TakeFirst(fat, Eoc(kind));
    var fat1 := fat[c := Eoc(kind)];
    assert [c][1..] == [];
    assert Attach(kind, fat, last, [c]) == fat1[last := c];
    FreeListSame(fat1, fat1[last := c]);
  }

  /** Exactly when there is a slot for a new record, and the clusters left then. */
  lemma CreateFree(v: Volume, ch: Chains, t: Tree, d: nat, s: Slot)
    requires Inv(v, ch, t) && d in t.view
    ensures Shape(v)
    ensures var made := Create(v, d, s);
      && (made.loc.Some? <==> HasRoom(t, d) || (d != 0 && FreeList(v.fat) != []))
      && (made.loc.Some? ==> FreeList(made.v.fat) == if HasRoom(t, d) then FreeList(v.fat) else FreeList(v.fat)[1..])
  {
    hide *;
    InvParts(v, ch, t);
    TakeUnfold(v, ch, t, d, s);
    HasRoomIs(t, d);
    if HasRoom(t, d) {
      PutAtFat(v, v.fat, LocOf(v.data, ChainAt(ch, d), Room(t.view[d])), s);
    } else if d != 0 && FreeList(v.fat) != [] {
      var c := FreeList(v.fat)[0];
      ChainFacts(v, ch, d);
      LastInUse(v, ch, d);
      TakenLast(v.kind, v.fat, Last(ch[d]), c);
      GrowByIs(v, Last(ch[d]), c);
      PutAtFat(GrowBy(v, Last(ch[d]), c), v.fat, Loc(c, 0), s);
    }
  }

  lemma HasRoomIs(t: Tree, d: nat)
    requires d in t.view
    ensures HasRoom(t, d) <==> Room(t.view[d]) < |t.view[d]|
  {
  }

  lemma LastInUse(v: Volume, ch: Chains, d: nat)
    requires Shape(v) && ChainsOk(v.kind, v.fat, ch) && d in ch && ch[d] != []
    ensures Bounded(v.kind, v.fat) && Last(ch[d]) < |v.fat| && v.fat[Last(ch[d])] != 0
  {
    ChainIsNonzero(v.kind, v.fat, ch[d]);
    assert Last(ch[d]) in ch[d];
  }

  /** Mkdir by cases, told from the tree and the free list before it. */
  lemma MkdirCases(v: Volume, ch: Chains, t: Tree, d: nat, name: ShortName)
    requires Inv(v, ch, t) && d in t.view
    ensures Shape(v)
    ensures Mkdir(v, d, name).ok <==> Makes(v, t, d, name)
    ensures var made := Create(v, d, Fresh(name, ATTR_DIRECTORY));
      && (Strands(v, t, d, name) ==> made.loc.Some? && FreeList(made.v.fat) == [] && Mkdir(v, d, name) == Outcome(made.v, false))
      && (Makes(v, t, d, name) ==> made.loc.Some? && FreeList(made.v.fat) != [])
    ensures !Makes(v, t, d, name) && !Strands(v, t, d, name) ==> Mkdir(v, d, name) == Outcome(v, false)
  {
    hide *;
    InvParts(v, ch, t);
    var r0 := LocateStep(v, ch, t, d, name);
    MkdirUnfold(v, d, name);
    CreateFree(v, ch, t, d, Fresh(name, ATTR_DIRECTORY));
    CaseConditions(v, t, d, name);
    TakeUnfold(v, ch, t, d, Fresh(name, ATTR_DIRECTORY));
    HasRoomIs(t, d);
  }

  lemma CaseConditions(v: Volume, t: Tree, d: nat, name: ShortName)
    requires d in t.view
    ensures Makes(v, t, d, name) <==> Lookup(t, d, name).None? && if HasRoom(t, d) then |FreeList(v.fat)| >= 1 else d != 0 && |FreeList(v.fat)| >= 2
    ensures Strands(v, t, d, name) <==> Lookup(t, d, name).None? && if HasRoom(t, d) then |FreeList(v.fat)| == 0 else d != 0 && |FreeList(v.fat)| == 1
  {
  }

  /** What mkdir guarantees. */
  ghost predicate MkdirDone(v: Volume, ch: Chains, t: Tree, d: nat, name: ShortName, out: Outcome, ch': Chains, t': Tree) {
    && Inv(out.v, ch', t')
    && t.view.Keys <= t'.view.Keys
    && NamesKept(t, t', d, name)
    && OthersSame(v, ch, out.v, ch', t, 0)
    && (out.ok <==> Makes(v, t, d, name))
    && (out.ok ==>
      && Lookup(t', d, name).Some?
      && var rec := Lookup(t', d, name).value;
         && rec.Entry? && rec.directory && rec.head !in t.view && t'.view.Keys == t.view.Keys + {rec.head}
         && OnlyDots(t', rec.head))
    && (Strands(v, t, d, name) ==> Lookup(t', d, name) == Some(Stranded(name)) && t'.view.Keys == t.view.Keys)
    && (!out.ok && !Strands(v, t, d, name) ==> out.v == v && ch' == ch && t' == t)
  }

  lemma MkdirDoneIntro(v: Volume, ch: Chains, t: Tree, d: nat, name: ShortName, out: Outcome, ch': Chains, t': Tree)
    requires Inv(out.v, ch', t')
    requires t.view.Keys <= t'.view.Keys
    requires NamesKept(t, t', d, name)
    requires OthersSame(v, ch, out.v, ch', t, 0)
    requires out.ok <==> Makes(v, t, d, name)
    requires out.ok ==>
      && Lookup(t', d, name).Some?
      && var rec := Lookup(t', d, name).value;
         && rec.Entry? && rec.directory && rec.head !in t.view && t'.view.Keys == t.view.Keys + {rec.head}
         && OnlyDots(t', rec.head)
    requires Strands(v, t, d, name) ==> Lookup(t', d, name) == Some(Stranded(name)) && t'.view.Keys == t.view.Keys
    requires !out.ok && !Strands(v, t, d, name) ==> out.v == v && ch' == ch && t' == t
    ensures MkdirDone(v, ch, t, d, name, out, ch', t')
  {
  }

  lemma MkdirKept(v: Volume, ch: Chains, t: Tree, d: nat, name: ShortName)
    requires Inv(v, ch, t) && d in t.view && !Makes(v, t, d, name) && !Strands(v, t, d, name)
    ensures MkdirDone(v, ch, t, d, name, Outcome(v, false), ch, t)
  {
    hide *;
    NamesKeptRefl(t, d, name);
    OthersSameRefl(v, ch, t, 0);
    MkdirDoneIntro(v, ch, t, d, name, Outcome(v, false), ch, t);
  }

  /** The record of a new directory adopts its first cluster. */
  lemma MkdirAdopts(v: Volume, ch: Chains, t: Tree, r: Ref, loc: Loc, s: Slot, c: nat, parent: nat) returns (ch': Chains, t': Tree, rec: Record)
    requires Inv(v, ch, t) && StoredAt(v.data, ch, t, r, loc) && Decode(s) == At(t, r)
    requires At(t, r).Entry? && !At(t, r).dot && At(t, r).directory && At(t, r).head == 0
    requires FreeList(v.fat) != [] && c == FreeList(v.fat)[0] && parent < 0x1_0000_0000
    ensures 64 <= v.csize && rec.Entry? && rec.directory && rec.name == At(t, r).name && rec.head == c
    ensures var v' := Adopt(FillIn(v, [c], DotBlock(v.csize, c, parent)), [c], loc, WithHead(s, c));
      && Inv(v', ch', t') && OthersSame(v, ch, v', ch', t, 0)
      && c !in t.view && t'.view.Keys == t.view.Keys + {c}
      && Lookup(t', r.d, rec.name) == Some(rec) && NamesKept(t, t', r.d, rec.name)
      && forall k :: 0 <= k < |t'.view[c]| && t'.view[c][k].Entry? ==> t'.view[c][k].dot
  {
    hide *;
    StoredAtParts(v.data, ch, t, r, loc);
    InvParts(v, ch, t);
    CsizePositive(v);
    Csize64(v);
    FirstFree(v);
    OneFree(v.fat, c);
    var block := DotBlock(v.csize, c, parent);
    DotBlockSize(v.csize, c, parent);
    DotBlockDir(v.csize, c, parent);
    FillFree(v, ch, t, [c], block);
    FillSame(v, ch, t, [c], block, 0);
    FilledBlock(v, c, block);
    var v0 := FillIn(v, [c], block);
    InvParts(v0, ch, t);
    CsizePositive(v0);
    StoredAtFilled(v.data, ch, t, r, loc, v0.data);
    HeadedRecord(s, c);
    rec := At(t, r).(head := c);
    Refit(v0, ch, t, r, rec);
    NotOwning(At(t, r));
    OwnsHead(rec);
    AdoptDir(v0, ch, t, r, loc, WithHead(s, c), c);
    var dir := BlockRecords(block);
    ch', t' := ch[c := [c]], AddDir(t, r, rec, dir);
    var v' := Adopt(v0, [c], loc, WithHead(s, c));
    InvParts(v', ch', t');
    AddDirNames(t, ch.Keys, ch'.Keys, r, rec, dir);
    AdoptIs(v0, [c], loc, WithHead(s, c));
    PutSame(v0, ch, t, r, loc, WithHead(s, c), Link(v0.kind, v0.fat, [c]), ch', 0);
    OthersSameChain(v, ch, v0, ch, v', ch', t, t, 0, 0);
  }

  lemma Csize64(v: Volume)
    requires Shape(v)
    ensures 64 <= v.csize
  {
  }

  lemma DotBlockSize(csize: nat, self: nat, parent: nat)
    requires 64 <= csize
    ensures |DotBlock(csize, self, parent)| == csize
  {
  }

  lemma StrandedIs(name: ShortName)
    requires Nameable(name)
    ensures Decode(Fresh(name, ATTR_DIRECTORY)) == Stranded(name) == Entry(name, false, true, 0, 0)
  {
    hide Decode, Fresh, Nameable;
    FreshFile(name);
  }

  lemma NotBoth(v: Volume, t: Tree, d: nat, name: ShortName)
    ensures !(Makes(v, t, d, name) && Strands(v, t, d, name))
    ensures Makes(v, t, d, name) || Strands(v, t, d, name) ==> Lookup(t, d, name).None?
  {
  }

  /** Mkdir keeps the invariant and everything there was, on success and on failure. */
  lemma MkdirStep(v: Volume, ch: Chains, t: Tree, d: nat, name: ShortName) returns (ch': Chains, t': Tree)
    requires Inv(v, ch, t) && d in t.view && Nameable(name)
    ensures Shape(v) && MkdirDone(v, ch, t, d, name, Mkdir(v, d, name), ch', t')
  {
    hide *;
    InvParts(v, ch, t);
    MkdirCases(v, ch, t, d, name);
    NotBoth(v, t, d, name);
    ch', t' := ch, t;
    if !Makes(v, t, d, name) && !Strands(v, t, d, name) {
      MkdirKept(v, ch, t, d, name);
    } else {
      MkdirUnfold(v, d, name);
      StrandedIs(name);
      var r0 := LocateStep(v, ch, t, d, name);
      var s := Fresh(name, ATTR_DIRECTORY);
      var made, out := Create(v, d, s), Mkdir(v, d, name);
      var ch1, t1, r := CreateStep(v, ch, t, d, s);
      InvParts(made.v, ch1, t1);
      AddedNames(t, t1, ch.Keys, ch1.Keys, r, Decode(s));
      AddedIs(t, t1, r, Decode(s));
      if Strands(v, t, d, name) {
        ch', t' := ch1, t1;
      } else {
        DirNumber(v, ch, t, d);
        var c := FreeList(made.v.fat)[0];
        var parent := if d < 2 && v.kind.Fat16? then 0 else d;
        var rec;
        ch', t', rec := MkdirAdopts(made.v, ch1, t1, r, made.loc.value, s, c, parent);
        NamesKeptTwice(t, t1, t', d, name);
        OthersSameChain(v, ch, made.v, ch1, out.v, ch', t, t1, 0, 0);
        OnlyDotsIntro(t', c);
      }
      MkdirDoneIntro(v, ch, t, d, name, out, ch', t');
    }
  }

  lemma MkdirDoneParts(v: Volume, ch: Chains, t: Tree, d: nat, name: ShortName, out: Outcome, ch': Chains, t': Tree)
    requires MkdirDone(v, ch, t, d, name, out, ch', t')
    ensures Inv(out.v, ch', t') && t.view.Keys <= t'.view.Keys
    ensures NamesKept(t, t', d, name) && OthersSame(v, ch, out.v, ch', t, 0)
    ensures out.ok <==> Makes(v, t, d, name)
    ensures out.ok ==>
      && Lookup(t', d, name).Some?
      && var rec := Lookup(t', d, name).value;
         rec.Entry? && rec.directory && rec.head !in t.view && t'.view.Keys == t.view.Keys + {rec.head} && OnlyDots(t', rec.head)
    ensures Strands(v, t, d, name) ==> Lookup(t', d, name) == Some(Stranded(name)) && t'.view.Keys == t.view.Keys
    ensures !out.ok && !Strands(v, t, d, name) ==> out.v == v && ch' == ch && t' == t
  {
  }

  /**
   A failed mkdir changes the volume if and only if the name is new, a slot could be taken, and
   no cluster was left after that.  It leaves a directory record without a cluster.
   */
  lemma FailedMkdirIff(v: Volume, ch: Chains, t: Tree, d: nat, name: ShortName) returns (ch': Chains, t': Tree)
    requires Inv(v, ch, t) && d in t.view && Nameable(name) && Shape(v) && !Mkdir(v, d, name).ok
    ensures Inv(Mkdir(v, d, name).v, ch', t')
    ensures Mkdir(v, d, name).v != v <==> Strands(v, t, d, name)
    ensures Strands(v, t, d, name) ==> Lookup(t', d, name) == Some(Stranded(name)) && FreeList(Mkdir(v, d, name).v.fat) == []
  {
    hide *;
    var out := Mkdir(v, d, name);
    ch', t' := MkdirStep(v, ch, t, d, name);
    MkdirDoneParts(v, ch, t, d, name, out, ch', t');
    MkdirCases(v, ch, t, d, name);
    if Strands(v, t, d, name) {
      NotBoth(v, t, d, name);
      var r0 := LocateStep(v, ch, t, d, name);
      var r1 := LocateStep(out.v, ch', t', d, name);
    }
  }
}
