/** Operations on a directory: adding, rewriting and removing records, under the invariant. */
module FatDirs {
  import opened Common
  import opened Bytes
  import opened FatTable
  import opened FatChains
  import opened FatSlots
  import opened FatStore
  import opened FatTree
  import opened FatOps
  import opened FatInvariant
  import opened FatSteps
  import opened FatFiles
  import opened FatAppend
  import opened FatAppendExact

  /** The record `name` stands for in directory `d`. */
  ghost function Lookup(t: Tree, d: nat, name: ShortName): Option<Record> {
    if d !in t.view then None
    else
      var found := Find(t.view[d], name);
      if found.Some? && found.value < |t.view[d]| then Some(t.view[d][found.value]) else None
  }

  lemma LookupFacts(t: Tree, d: nat, name: ShortName)
    requires d in t.view && DirOk(t.view[d])
    ensures Lookup(t, d, name).Some? ==> exists k :: 0 <= k < |t.view[d]| && Matches(t.view[d][k], name) && Lookup(t, d, name) == Some(t.view[d][k])
    ensures Lookup(t, d, name).None? <==> forall k :: 0 <= k < |t.view[d]| ==> !Matches(t.view[d][k], name)
  {
    FindNone(t.view[d], name);
  }

  /** The name of a slot in use leads to that slot. */
  lemma LookupSlot(t: Tree, d: nat, name: ShortName, k: nat)
    requires d in t.view && DirOk(t.view[d]) && k < |t.view[d]| && Matches(t.view[d][k], name)
    ensures Lookup(t, d, name) == Some(t.view[d][k])
  {
    FindIsLookup(t.view[d], name, k);
  }

  /** Equal matching slots mean equal lookups. */
  lemma LookupSame(t: Tree, t': Tree, d: nat, name: ShortName)
    requires d in t.view && d in t'.view && DirOk(t.view[d]) && DirOk(t'.view[d])
    requires forall k :: 0 <= k < |t.view[d]| && Matches(t.view[d][k], name) ==> k < |t'.view[d]| && t'.view[d][k] == t.view[d][k]
    requires forall k :: 0 <= k < |t'.view[d]| && Matches(t'.view[d][k], name) ==> k < |t.view[d]| && t'.view[d][k] == t.view[d][k]
    ensures Lookup(t', d, name) == Lookup(t, d, name)
  {
    LookupFacts(t, d, name);
    LookupFacts(t', d, name);
    if Lookup(t, d, name).Some? {
      var k :| 0 <= k < |t.view[d]| && Matches(t.view[d][k], name) && Lookup(t, d, name) == Some(t.view[d][k]);
      LookupSlot(t', d, name, k);
    }
  }

  // ---------------------------------------------------------------- one slot gets a record

  /** Slot `r` holds `rec` now; it held no record before, and no other record changed. */
  ghost predicate Added(t: Tree, t': Tree, r: Ref, rec: Record) {
    && t'.view.Keys == t.view.Keys
    && IsRef(t', r) && At(t', r) == rec
    && (IsRef(t, r) ==> !At(t, r).Entry?)
    && (forall q :: IsRef(t, q) && q != r ==> IsRef(t', q) && At(t', q) == At(t, q))
    && (forall q :: IsRef(t', q) && q != r && !IsRef(t, q) ==> At(t', q).End?)
  }

  lemma AddedByPut(t: Tree, r: Ref, rec: Record)
    requires IsRef(t, r) && !At(t, r).Entry?
    ensures Added(t, SetAt(t, r, rec), r, rec)
  {
    SetAtReads(t, r, rec);
  }

  lemma AddedByGrowth(t: Tree, d: nat, more: Dir, rec: Record)
    requires d in t.view && more != [] && forall j :: 0 <= j < |more| ==> more[j].End?
    ensures IsRef(Grown(t, d, more), Ref(d, |t.view[d]|))
    ensures Added(t, SetAt(Grown(t, d, more), Ref(d, |t.view[d]|), rec), Ref(d, |t.view[d]|), rec)
  {
    GrownReads(t, d, more);
    SetAtReads(Grown(t, d, more), Ref(d, |t.view[d]|), rec);
  }

  lemma AddedRest(t: Tree, t': Tree, r: Ref, rec: Record, d: nat, name: ShortName, k: nat)
    requires Added(t, t', r, rec) && rec.Entry? && d in t.view && (d != r.d || name != rec.name)
    ensures d in t'.view
    ensures k < |t.view[d]| && Matches(t.view[d][k], name) ==> k < |t'.view[d]| && t'.view[d][k] == t.view[d][k]
    ensures k < |t'.view[d]| && Matches(t'.view[d][k], name) ==> k < |t.view[d]| && t'.view[d][k] == t.view[d][k]
  {
    var q := Ref(d, k);
    assert IsRef(t, q) <==> k < |t.view[d]|;
    assert IsRef(t', q) <==> k < |t'.view[d]|;
  }

  /** Adding a record: its name leads to it, all other names lead where they did. */
  lemma AddedLookup(t: Tree, t': Tree, heads: set<nat>, heads': set<nat>, r: Ref, rec: Record, d: nat, name: ShortName)
    requires TreeOk(t, heads) && TreeOk(t', heads') && Added(t, t', r, rec) && rec.Entry? && d in t.view
    ensures Lookup(t', d, name) == if d == r.d && name == rec.name then Some(rec) else Lookup(t, d, name)
  {
    if d == r.d && name == rec.name {
      LookupSlot(t', d, name, r.k);
    } else {
      hide Added, Matches;
      forall k: nat
        ensures k < |t.view[d]| && Matches(t.view[d][k], name) ==> d in t'.view && k < |t'.view[d]| && t'.view[d][k] == t.view[d][k]
        ensures d in t'.view && k < |t'.view[d]| && Matches(t'.view[d][k], name) ==> k < |t.view[d]| && t'.view[d][k] == t.view[d][k]
      {
        AddedRest(t, t', r, rec, d, name, k);
      }
      AddedRest(t, t', r, rec, d, name, 0);
      LookupSame(t, t', d, name);
    }
  }

  /** Rewriting a record in place: its name leads to the new record, all others where they did. */
  lemma OnlySlotLookup(t: Tree, t': Tree, heads: set<nat>, heads': set<nat>, r: Ref, rec: Record, d: nat, name: ShortName)
    requires TreeOk(t, heads) && TreeOk(t', heads') && OnlySlot(t, t', r, rec) && d in t.view
    ensures Lookup(t', d, name) == if d == r.d && name == rec.name then Some(rec) else Lookup(t, d, name)
  {
    OnlySlotFacts(t, t', r, rec);
    OnlySlotEntry(t, t', r, rec);
    if d == r.d && name == rec.name {
      LookupSlot(t', d, name, r.k);
    } else {
      forall k: nat | k < |t.view[d]|
        ensures k < |t'.view[d]|
        ensures Matches(t.view[d][k], name) || Matches(t'.view[d][k], name) ==> t'.view[d][k] == t.view[d][k]
      {
        assert IsRef(t, Ref(d, k)) && IsRef(t', Ref(d, k));
      }
      LookupSame(t, t', d, name);
    }
  }

  // ---------------------------------------------------------------- taking a slot

  lemma CreateUnfold(v: Volume, d: nat, s: Slot, chain: seq<nat>)
    requires Shape(v) && DirChain(v, d) == chain
    ensures BlocksIn(v.data, chain)
    ensures var dir := Records(v.data, chain);
      && Room(dir) <= |dir|
      && (Room(dir) < |dir| ==>
        var loc := LocOf(v.data, chain, Room(dir));
        Create(v, d, s) == Taken(PutAt(v, loc, s), Some(loc)))
      && (Room(dir) == |dir| && (d < 2 || chain == [] || FreeList(v.fat) == []) ==> Create(v, d, s) == Taken(v, None))
      && (Room(dir) == |dir| && d >= 2 && chain != [] && FreeList(v.fat) != [] ==>
        var c := FreeList(v.fat)[0];
        c < |v.data| && Create(v, d, s) == Taken(PutAt(GrowBy(v, Last(chain), c), Loc(c, 0), s), Some(Loc(c, 0))))
  {
    RoomFromFacts(Records(v.data, chain), 0);
    if FreeList(v.fat) != [] {
      FirstFree(v);
    }
    hide Records, FreeList, LocOf, PutAt, Attach, RoomFrom, ChainOf, Zeros;
  }

  lemma StoredAtIntro(data: Blocks, ch: Chains, t: Tree, r: Ref, loc: Loc)
    requires r.d in t.view && r.k < |t.view[r.d]| && DirStored(data, ch, t, r.d)
    requires (r.d == 0 || r.d in ch) && BlocksIn(data, ChainAt(ch, r.d)) && r.k < |Records(data, ChainAt(ch, r.d))|
    requires loc == LocOf(data, ChainAt(ch, r.d), r.k)
    ensures StoredAt(data, ch, t, r, loc)
  {
  }

  lemma DirStoredParts(data: Blocks, ch: Chains, t: Tree, d: nat)
    requires d in t.view && DirStored(data, ch, t, d)
    ensures (d == 0 || d in ch) && BlocksIn(data, ChainAt(ch, d)) && t.view[d] == Records(data, ChainAt(ch, d))
    ensures d != 0 ==> ChainAt(ch, d) == ch[d]
  {
  }

  lemma TakeUnfold(v: Volume, ch: Chains, t: Tree, d: nat, s: Slot)
    requires Inv(v, ch, t) && d in t.view
    ensures (d == 0 || d in ch) && Shape(v)
    ensures Room(t.view[d]) <= |t.view[d]|
    ensures BlocksIn(v.data, ChainAt(ch, d)) && t.view[d] == Records(v.data, ChainAt(ch, d))
    ensures Room(t.view[d]) < |t.view[d]| ==>
      var loc := LocOf(v.data, ChainAt(ch, d), Room(t.view[d]));
      Create(v, d, s) == Taken(PutAt(v, loc, s), Some(loc)) && StoredAt(v.data, ch, t, Ref(d, Room(t.view[d])), loc)
    ensures Room(t.view[d]) == |t.view[d]| && (d == 0 || FreeList(v.fat) == []) ==> Create(v, d, s) == Taken(v, None)
    ensures Room(t.view[d]) == |t.view[d]| && d != 0 && FreeList(v.fat) != [] ==>
      var c := FreeList(v.fat)[0];
      && ch[d] != [] && c < |v.data|
      && Create(v, d, s) == Taken(PutAt(GrowBy(v, Last(ch[d]), c), Loc(c, 0), s), Some(Loc(c, 0)))
  {
    hide *;
    InvParts(v, ch, t);
    DirChainIs(v, ch, t, d);
    DirIsStored(v, ch, t, d);
    DirStoredParts(v.data, ch, t, d);
    CreateUnfold(v, d, s, ChainAt(ch, d));
    var k := Room(t.view[d]);
    if d != 0 {
      ChainFacts(v, ch, d);
    }
    if k < |t.view[d]| {
      StoredAtIntro(v.data, ch, t, Ref(d, k), LocOf(v.data, ChainAt(ch, d), k));
    }
  }

  lemma RoomFits(t: Tree, d: nat, rec: Record)
    requires DirsOk(t) && d in t.view && rec.Entry? && Lookup(t, d, rec.name).None?
    requires Room(t.view[d]) < |t.view[d]|
    ensures IsRef(t, Ref(d, Room(t.view[d]))) && !At(t, Ref(d, Room(t.view[d]))).Entry?
    ensures Fits(t, Ref(d, Room(t.view[d])), rec)
  {
    RoomFromFacts(t.view[d], 0);
    LookupFacts(t, d, rec.name);
  }

  lemma NewRoomFits(t: Tree, d: nat, more: Dir, rec: Record)
    requires DirsOk(t) && d in t.view && rec.Entry? && Lookup(t, d, rec.name).None?
    requires Room(t.view[d]) == |t.view[d]| && more != [] && forall j :: 0 <= j < |more| ==> more[j].End?
    ensures IsRef(Grown(t, d, more), Ref(d, |t.view[d]|)) && !Owns(At(Grown(t, d, more), Ref(d, |t.view[d]|)))
    ensures Fits(Grown(t, d, more), Ref(d, |t.view[d]|), rec)
  {
    RoomFromFacts(t.view[d], 0);
    LookupFacts(t, d, rec.name);
    GrownIs(t, d, more);
    var dir, k := t.view[d] + more, |t.view[d]|;
    forall j | 0 <= j < |dir| && j != k && dir[j].Entry?
      ensures dir[j].name != rec.name
    {
      assert j < |t.view[d]|;
      assert !Matches(t.view[d][j], rec.name);
    }
  }

  lemma NotOwning(rec: Record)
    requires !rec.Entry? || rec.dot || rec.head < 2
    ensures !Owns(rec)
  {
  }

  lemma DirsOkOf(t: Tree, heads: set<nat>)
    requires TreeOk(t, heads)
    ensures DirsOk(t)
  {
  }

  lemma GrowSameFile(v: Volume, ch: Chains, d: nat, c: nat, last: nat, s: seq<nat>, g: nat)
    requires c < |v.data| && g in ch && g != d && c !in ch[g]
    ensures SameFile(v, ch, GrowBy(v, last, c), ch[d := s], g)
  {
    hide Attach, Zeros;
  }

  lemma FreeNotInFile(v: Volume, ch: Chains, g: nat, c: nat)
    requires ChainsOk(v.kind, v.fat, ch) && g in ch && 2 <= c < |v.fat| && v.fat[c] == 0
    ensures c !in ch[g]
  {
    hide ChainsOk;
    ChainIsWired(v, ch, g);
    ChainIsNonzero(v.kind, v.fat, ch[g]);
  }

  lemma GrowSame(v: Volume, ch: Chains, t: Tree, d: nat, c: nat, h: nat)
    requires ChainsOk(v.kind, v.fat, ch) && d in ch && d in t.view && ch[d] != []
    requires 2 <= c < |v.fat| == |v.data| && v.fat[c] == 0
    ensures OthersSame(v, ch, GrowBy(v, Last(ch[d]), c), ch[d := ch[d] + [c]], t, h)
  {
    hide *;
    var v' := GrowBy(v, Last(ch[d]), c);
    forall g | g in ch && g !in t.view && g != h
      ensures SameFile(v, ch, v', ch[d := ch[d] + [c]], g)
    {
      FreeNotInFile(v, ch, g, c);
      GrowSameFile(v, ch, d, c, Last(ch[d]), ch[d] + [c], g);
    }
    OthersIntro(v, ch, v', ch[d := ch[d] + [c]], t, h);
  }

  lemma SomeZeros(v: Volume)
    requires Shape(v)
    ensures BlockRecords(Zeros(v.csize)) != []
    ensures forall k :: 0 <= k < |BlockRecords(Zeros(v.csize))| ==> BlockRecords(Zeros(v.csize))[k].End?
  {
    ZeroBlock(v.csize);
  }

  lemma GrowByRest(v: Volume, last: nat, c: nat)
    requires c < |v.data|
    ensures var v' := GrowBy(v, last, c); v'.csize == v.csize && v'.kind == v.kind && v'.rootHead == v.rootHead
  {
  }

  lemma PutSameAll(v: Volume, ch: Chains, t: Tree, r: Ref, loc: Loc, s: Slot)
    requires ChainsOk(v.kind, v.fat, ch) && StoredAt(v.data, ch, t, r, loc)
    ensures OthersSame(v, ch, PutAt(v, loc, s), ch, t, 0)
  {
    PutSame(v, ch, t, r, loc, s, v.fat, ch, 0);
  }

  /** A new record without a chain in directory `d`. */
  lemma CreateStep(v: Volume, ch: Chains, t: Tree, d: nat, s: Slot) returns (ch': Chains, t': Tree, r: Ref)
    requires Inv(v, ch, t) && d in t.view
    requires Decode(s).Entry? && !Decode(s).dot && Decode(s).head == 0 && Lookup(t, d, Decode(s).name).None?
    ensures Shape(v)
    ensures var made := Create(v, d, s);
      && (made.loc.None? ==> made.v == v)
      && (made.loc.Some? ==>
        && Inv(made.v, ch', t') && StoredAt(made.v.data, ch', t', r, made.loc.value)
        && Added(t, t', r, Decode(s)) && r.d == d
        && OthersSame(v, ch, made.v, ch', t, 0)
        && made.v.csize == v.csize && made.v.kind == v.kind)
  {
    hide *;
    InvParts(v, ch, t);
    CsizePositive(v);
    DirsOkOf(t, ch.Keys);
    TakeUnfold(v, ch, t, d, s);
    var rec, k := Decode(s), Room(t.view[d]);
    NotOwning(rec);
    ch', t', r := ch, t, Ref(d, k);
    if k < |t.view[d]| {
      var loc := LocOf(v.data, ChainAt(ch, d), k);
      RoomFits(t, d, rec);
      NotOwning(At(t, r));
      KeepSlot(v, ch, t, r, loc, s);
      t' := SetAt(t, r, rec);
      AddedByPut(t, r, rec);
      PutSameAll(v, ch, t, r, loc, s);
      PutAtFat(v, v.fat, loc, s);
    } else if d != 0 && FreeList(v.fat) != [] {
      FirstFree(v);
      var c := FreeList(v.fat)[0];
      var more := BlockRecords(Zeros(v.csize));
      SomeZeros(v);
      GrowDirectory(v, ch, t, d, c);
      GrowSame(v, ch, t, d, c, 0);
      GrowByRest(v, Last(ch[d]), c);
      var v1 := GrowBy(v, Last(ch[d]), c);
      var t1 := Grown(t, d, more);
      ch' := ch[d := ch[d] + [c]];
      InvParts(v1, ch', t1);
      NewRoomFits(t, d, more, rec);
      KeepSlot(v1, ch', t1, r, Loc(c, 0), s);
      t' := SetAt(t1, r, rec);
      AddedByGrowth(t, d, more, rec);
      PutSameAll(v1, ch', t1, r, Loc(c, 0), s);
      GrownIs(t, d, more);
      OthersSameChain(v, ch, v1, ch', PutAt(v1, Loc(c, 0), s), ch', t, t1, 0, 0);
      PutAtFat(v1, v1.fat, Loc(c, 0), s);
    }
  }

  // ---------------------------------------------------------------- finding a record

  lemma LocateUnfold(v: Volume, d: nat, name: ShortName, chain: seq<nat>)
    requires Shape(v) && DirChain(v, d) == chain
    ensures BlocksIn(v.data, chain)
    ensures var dir := Records(v.data, chain);
      var found := Find(dir, name);
      && DirOf(v, d) == dir
      && (found.None? ==> Locate(v, d, name) == None)
      && (found.Some? ==>
        && found.value < |dir| && Matches(dir[found.value], name)
        && Locate(v, d, name) == Some(LocOf(v.data, chain, found.value))
        && IsLoc(v.data, LocOf(v.data, chain, found.value))
        && Decode(Get(v.data, LocOf(v.data, chain, found.value))) == dir[found.value])
  {
    FindInRange(Records(v.data, chain), name, 0);
    hide Records, LocOf, FindFrom, ChainOf, Get, Decode, IsLoc;
    var found := Find(Records(v.data, chain), name);
    if found.Some? {
      LocOfFacts(v.data, chain, found.value);
    }
  }

  lemma LookupIs(t: Tree, d: nat, name: ShortName)
    requires d in t.view
    ensures var found := Find(t.view[d], name);
      && (found.None? ==> Lookup(t, d, name) == None)
      && (found.Some? && found.value < |t.view[d]| ==> Lookup(t, d, name) == Some(t.view[d][found.value]) && IsRef(t, Ref(d, found.value)) && At(t, Ref(d, found.value)) == t.view[d][found.value])
  {
    hide FindFrom;
  }

  /** A successful lookup, as the operations perform it. */
  lemma LocateStep(v: Volume, ch: Chains, t: Tree, d: nat, name: ShortName) returns (r: Ref)
    requires Inv(v, ch, t) && d in t.view
    ensures Shape(v)
    ensures Locate(v, d, name).None? <==> Lookup(t, d, name).None?
    ensures Locate(v, d, name).None? <==> Find(DirOf(v, d), name).None?
    ensures Locate(v, d, name).Some? ==>
      var loc := Locate(v, d, name).value;
      && StoredAt(v.data, ch, t, r, loc) && r.d == d && IsLoc(v.data, loc)
      && Decode(Get(v.data, loc)) == At(t, r) && Matches(At(t, r), name) && Lookup(t, d, name) == Some(At(t, r))
  {
    hide *;
    InvParts(v, ch, t);
    DirChainIs(v, ch, t, d);
    DirIsStored(v, ch, t, d);
    DirStoredParts(v.data, ch, t, d);
    LocateUnfold(v, d, name, ChainAt(ch, d));
    LookupIs(t, d, name);
    var found := Find(t.view[d], name);
    r := Ref(d, if found.Some? then found.value else 0);
    if found.Some? {
      StoredAtIntro(v.data, ch, t, r, LocOf(v.data, ChainAt(ch, d), found.value));
    }
  }

}
