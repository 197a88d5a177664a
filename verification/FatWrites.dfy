/** Writing to a name under the invariant, with what every failure leaves. */
module FatWrites {
  import opened Common
  import opened Bytes
  import opened FatTable
  import opened FatChains
  import opened FatSlots
  import opened FatStore
  import opened FatTree
  import opened FatOps
  import opened FatInvariant
  import opened FatSteps
  import opened FatFiles
  import opened FatAppend
  import opened FatAppendExact
  import opened FatDirs

  function BytesOf(src: Source): seq<byte> {
    if src.Null? then [] else src.bytes
  }

  predicate Sized(src: Source) {
    |BytesOf(src)| < 0x1_0000_0000
  }

  /** The caller passes data: a null pointer comes with length 0. */
  predicate Given(src: Source) {
    src.Null? ==> src.length == 0
  }

  /** What storing data through a record guarantees, whatever the outcome. */
  ghost predicate Stored(v: Volume, ch: Chains, was: Record, mode: Mode, src: Source, out: Outcome, ch': Chains, rec: Record) {
    && was.Entry? && rec.Entry?
    && if !Given(src) then !out.ok && rec == was
       else if mode.ReplaceAll? then Holds(out.v, ch', rec, if out.ok then BytesOf(src) else [])
       else AppendResult(v, ch, was, BytesOf(src), out, ch', rec)
  }

  lemma StoreUnfold(v: Volume, loc: Loc, s: Slot, mode: Mode, src: Source)
    requires 0 < v.csize
    ensures IsDirectory(Attr(s)) || (src.Null? && src.length > 0) ==> Store(v, loc, s, mode, src) == Outcome(v, false)
    ensures !IsDirectory(Attr(s)) && (src.Null? ==> src.length == 0) ==>
      Store(v, loc, s, mode, src) == if mode.ReplaceAll? then Replace(v, loc, s, BytesOf(src)) else Append(v, loc, s, BytesOf(src))
  {
  }

  lemma StoredIntro(v: Volume, ch: Chains, was: Record, mode: Mode, src: Source, out: Outcome, ch': Chains, rec: Record)
    requires was.Entry? && rec.Entry?
    requires !Given(src) ==> !out.ok && rec == was
    requires Given(src) && mode.ReplaceAll? ==> Holds(out.v, ch', rec, if out.ok then BytesOf(src) else [])
    requires Given(src) && mode.AppendTo? ==> AppendResult(v, ch, was, BytesOf(src), out, ch', rec)
    ensures Stored(v, ch, was, mode, src, out, ch', rec)
  {
  }

  lemma GivenIs(src: Source)
    ensures Given(src) <==> (src.Null? ==> src.length == 0)
  {
  }

  lemma AdoptCsize(v: Volume, ts: seq<nat>, loc: Loc, s: Slot)
    ensures Adopt(v, ts, loc, s).csize == v.csize
  {
  }

  lemma ReplaceCsize(v: Volume, loc: Loc, s: Slot, bytes: seq<byte>)
    requires 0 < v.csize
    ensures Replace(v, loc, s, bytes).v.csize == v.csize
  {
    hide *;
    ReplaceUnfold(v, loc, s, bytes);
    var v1 := Truncate(v, loc, s);
    var ts := Prefix(FreeList(v1.fat), Clusters(|bytes|, v.csize));
    if ts != [] {
      AdoptCsize(FillIn(v1, ts, bytes), ts, loc, WithSize(WithHead(Emptied(s), ts[0]), |bytes|));
    }
  }

  lemma NothingAppended(v: Volume, ch: Chains, was: Record)
    requires was.Entry? && 0 < v.csize
    ensures Tight(v, ch, was) ==> AppendExact(v, ch, was, [], v, ch, was)
    ensures Contents(v, ch, was) + [] == Contents(v, ch, was)
  {
    assert Contents(v, ch, was) + [] == Contents(v, ch, was);
  }

  lemma SafeParts(v: Volume, ch: Chains, t: Tree, r: Ref, out: Outcome, ch': Chains, t': Tree, rec: Record)
    requires AppendSafe(v, ch, t, r, out, ch', t', rec)
    ensures Inv(out.v, ch', t') && OnlySlot(t, t', r, rec) && IsRef(t, r) && At(t, r).Entry?
    ensures OthersSame(v, ch, out.v, ch', t, At(t, r).head) && out.v.csize == v.csize
  {
  }

  /** Append, all cases. */
  lemma AppendStep(v: Volume, ch: Chains, t: Tree, r: Ref, loc: Loc, s: Slot, bytes: seq<byte>) returns (ch': Chains, t': Tree, rec: Record)
    requires Inv(v, ch, t) && StoredAt(v.data, ch, t, r, loc) && Decode(s) == At(t, r)
    requires At(t, r).Entry? && !At(t, r).dot && !At(t, r).directory
    ensures 0 < v.csize
    ensures var out := Append(v, loc, s, bytes);
      && AppendSafe(v, ch, t, r, out, ch', t', rec)
      && AppendResult(v, ch, At(t, r), bytes, out, ch', rec)
  {
    hide *;
    StoredAtParts(v.data, ch, t, r, loc);
    InvParts(v, ch, t);
    CsizePositive(v);
    DecodeFields(s);
    AppendUnfold(v, loc, s, bytes);
    if bytes == [] || (At(t, r).head < 2 && FreeList(v.fat) == []) {
      ch', t', rec := ch, t, At(t, r);
      SameSlot(t, r);
      OthersSameRefl(v, ch, t, At(t, r).head);
      SafeIntro(v, ch, t, r, Append(v, loc, s, bytes), ch, t, rec);
      if bytes == [] {
        NothingAppended(v, ch, rec);
        LandsEasily(v, ch, rec, bytes);
      } else {
        LowHeadOwnsNothing(v, ch, rec);
        CutFresh(v, ch, rec, bytes, v, ch, rec);
        TightIs(v, ch, rec);
        if Tight(v, ch, rec) {
          FailedFresh(v, ch, rec, bytes, v, ch, rec);
        }
      }
      ResultIntro(v, ch, rec, bytes, Append(v, loc, s, bytes), ch, rec);
    } else if At(t, r).head >= 2 {
      ch', t', rec := AppendOwned(v, ch, t, r, loc, s, bytes);
    } else {
      ch', t', rec := AppendFirst(v, ch, t, r, loc, s, bytes);
    }
  }

  /** Storing data through the record at `r`, whatever its outcome. */
  lemma StoreStep(v: Volume, ch: Chains, t: Tree, r: Ref, loc: Loc, s: Slot, mode: Mode, src: Source) returns (ch': Chains, t': Tree, rec: Record)
    requires Inv(v, ch, t) && StoredAt(v.data, ch, t, r, loc) && Decode(s) == At(t, r)
    requires At(t, r).Entry? && !At(t, r).dot && Sized(src)
    ensures 0 < v.csize
    ensures var out := Store(v, loc, s, mode, src);
      && AppendSafe(v, ch, t, r, out, ch', t', rec)
      && (At(t, r).directory || !Given(src) ==> out == Outcome(v, false) && ch' == ch && t' == t && rec == At(t, r))
      && (!At(t, r).directory ==> Stored(v, ch, At(t, r), mode, src, out, ch', rec))
  {
    hide *;
    StoredAtParts(v.data, ch, t, r, loc);
    InvParts(v, ch, t);
    CsizePositive(v);
    DecodeFields(s);
    StoreUnfold(v, loc, s, mode, src);
    SizedIs(src);
    GivenIs(src);
    var out := Store(v, loc, s, mode, src);
    if At(t, r).directory || (src.Null? && src.length > 0) {
      ch', t', rec := ch, t, At(t, r);
      SameSlot(t, r);
      OthersSameRefl(v, ch, t, At(t, r).head);
      SafeIntro(v, ch, t, r, out, ch, t, rec);
    } else if mode.ReplaceAll? {
      ch', t', rec := ReplaceStep(v, ch, t, r, loc, s, BytesOf(src));
      ReplaceCsize(v, loc, s, BytesOf(src));
      SafeIntro(v, ch, t, r, out, ch', t', rec);
    } else {
      ch', t', rec := AppendStep(v, ch, t, r, loc, s, BytesOf(src));
    }
    SafeParts(v, ch, t, r, out, ch', t', rec);
    OnlySlotEntry(t, t', r, rec);
    if !At(t, r).directory {
      StoredIntro(v, ch, At(t, r), mode, src, out, ch', rec);
    }
  }

  lemma SizedIs(src: Source)
    requires Sized(src)
    ensures |BytesOf(src)| < 0x1_0000_0000
  {
  }

  // ---------------------------------------------------------------- write

  /** Every name but `name` in `d` leads to the same record in both trees. */
  ghost predicate NamesKept(t: Tree, t': Tree, d: nat, name: ShortName) {
    forall e, n :: e in t.view && e in t'.view && (e != d || n != name) ==> Lookup(t', e, n) == Lookup(t, e, n)
  }

  lemma AddedNames(t: Tree, t': Tree, heads: set<nat>, heads': set<nat>, r: Ref, rec: Record)
    requires TreeOk(t, heads) && TreeOk(t', heads') && Added(t, t', r, rec) && rec.Entry?
    ensures t'.view.Keys == t.view.Keys && r.d in t.view && Lookup(t', r.d, rec.name) == Some(rec)
    ensures NamesKept(t, t', r.d, rec.name)
  {
    assert r.d in t'.view;
    AddedLookup(t, t', heads, heads', r, rec, r.d, rec.name);
    forall e, n | e in t.view && (e != r.d || n != rec.name)
      ensures Lookup(t', e, n) == Lookup(t, e, n)
    {
      AddedLookup(t, t', heads, heads', r, rec, e, n);
    }
  }

  lemma OnlySlotNames(t: Tree, t': Tree, heads: set<nat>, heads': set<nat>, r: Ref, rec: Record)
    requires TreeOk(t, heads) && TreeOk(t', heads') && OnlySlot(t, t', r, rec)
    ensures rec.Entry? && At(t, r).Entry? && rec.name == At(t, r).name
    ensures t'.view.Keys == t.view.Keys && r.d in t.view && Lookup(t', r.d, rec.name) == Some(rec)
    ensures NamesKept(t, t', r.d, rec.name)
  {
    OnlySlotFacts(t, t', r, rec);
    OnlySlotLookup(t, t', heads, heads', r, rec, r.d, rec.name);
    forall e, n | e in t.view && (e != r.d || n != rec.name)
      ensures Lookup(t', e, n) == Lookup(t, e, n)
    {
      OnlySlotLookup(t, t', heads, heads', r, rec, e, n);
    }
  }

  lemma NamesKeptTwice(t: Tree, t1: Tree, t2: Tree, d: nat, name: ShortName)
    requires NamesKept(t, t1, d, name) && NamesKept(t1, t2, d, name)
    requires t1.view.Keys == t.view.Keys
    ensures NamesKept(t, t2, d, name)
  {
  }

  lemma NamesKeptRefl(t: Tree, d: nat, name: ShortName)
    ensures NamesKept(t, t, d, name)
  {
  }

  ghost function HeadOf(t: Tree, d: nat, name: ShortName): nat {
    var rec := Lookup(t, d, name);
    if rec.Some? && rec.value.Entry? then rec.value.head else 0
  }

  /** The record a write starts from; a new file starts out empty. */
  ghost function Before(t: Tree, d: nat, name: ShortName): (r: Record)
    ensures r.Entry?
  {
    if Lookup(t, d, name).Some? && Lookup(t, d, name).value.Entry? then Lookup(t, d, name).value else Entry(name, false, false, 0, 0)
  }

  /** The name stands for a file. */
  ghost predicate IsFile(t: Tree, d: nat, name: ShortName) {
    Lookup(t, d, name).Some? && Lookup(t, d, name).value.Entry? && !Lookup(t, d, name).value.directory
  }

  /** A write that changed nothing: no slot for a new name, a directory of that name, or no data given. */
  ghost predicate WriteRefused(v: Volume, ch: Chains, t: Tree, d: nat, name: ShortName, src: Source, out: Outcome, ch': Chains, t': Tree) {
    && out == Outcome(v, false) && ch' == ch && t' == t
    && (IsFile(t, d, name) ==> !Given(src))
  }

  /** A write that reached its file. */
  ghost predicate WriteReached(v: Volume, ch: Chains, t: Tree, d: nat, name: ShortName, mode: Mode, src: Source, out: Outcome, ch': Chains, t': Tree) {
    && (Lookup(t, d, name).Some? ==> IsFile(t, d, name)) && IsFile(t', d, name)
    && Stored(v, ch, Before(t, d, name), mode, src, out, ch', Lookup(t', d, name).value)
  }

  /** What a write guarantees: only the named file may differ, and how it differs. */
  ghost predicate WriteDone(v: Volume, ch: Chains, t: Tree, d: nat, name: ShortName, mode: Mode, src: Source, out: Outcome, ch': Chains, t': Tree) {
    && Inv(out.v, ch', t') && t'.view.Keys == t.view.Keys && out.v.csize == v.csize
    && NamesKept(t, t', d, name)
    && OthersSame(v, ch, out.v, ch', t, HeadOf(t, d, name))
    && (WriteRefused(v, ch, t, d, name, src, out, ch', t') || WriteReached(v, ch, t, d, name, mode, src, out, ch', t'))
  }

  lemma ReachedIntro(v: Volume, ch: Chains, t: Tree, d: nat, name: ShortName, mode: Mode, src: Source, out: Outcome, ch': Chains, t': Tree, was: Record, rec: Record)
    requires was.Entry? && !was.directory && rec.Entry? && !rec.directory && Lookup(t', d, name) == Some(rec)
    requires Lookup(t, d, name).Some? ==> Lookup(t, d, name) == Some(was)
    requires Lookup(t, d, name).None? ==> was == Entry(name, false, false, 0, 0)
    requires Stored(v, ch, was, mode, src, out, ch', rec)
    ensures WriteReached(v, ch, t, d, name, mode, src, out, ch', t')
  {
  }

  lemma RefusedIntro(v: Volume, ch: Chains, t: Tree, d: nat, name: ShortName, src: Source)
    requires Lookup(t, d, name).None? || (Lookup(t, d, name).value.Entry? && Lookup(t, d, name).value.directory) || !Given(src)
    ensures WriteRefused(v, ch, t, d, name, src, Outcome(v, false), ch, t)
  {
  }

  lemma WriteUnfold(v: Volume, d: nat, name: ShortName, mode: Mode, src: Source)
    requires Shape(v)
    ensures 0 < v.csize && 0 < Create(v, d, Fresh(name, ATTR_FILE)).v.csize
    ensures var found := Locate(v, d, name);
      found.Some? ==> Write(v, d, name, mode, src) == Store(v, found.value, Get(v.data, found.value), mode, src)
    ensures var found, made := Locate(v, d, name), Create(v, d, Fresh(name, ATTR_FILE));
      && (found.None? && made.loc.None? ==> Write(v, d, name, mode, src) == Outcome(made.v, false))
      && (found.None? && made.loc.Some? ==> Write(v, d, name, mode, src) == Store(made.v, made.loc.value, Fresh(name, ATTR_FILE), mode, src))
  {
  }

  lemma FreshFile(name: ShortName)
    requires Nameable(name)
    ensures Decode(Fresh(name, ATTR_FILE)) == Entry(name, false, false, 0, 0)
    ensures Decode(Fresh(name, ATTR_DIRECTORY)) == Entry(name, false, true, 0, 0)
  {
    hide Decode, Fresh, Nameable;
    DecodeFresh(name, ATTR_FILE);
    DecodeFresh(name, ATTR_DIRECTORY);
  }

  lemma WriteDoneIntro(v: Volume, ch: Chains, t: Tree, d: nat, name: ShortName, mode: Mode, src: Source, out: Outcome, ch': Chains, t': Tree)
    requires Inv(out.v, ch', t') && t'.view.Keys == t.view.Keys && out.v.csize == v.csize
    requires NamesKept(t, t', d, name)
    requires OthersSame(v, ch, out.v, ch', t, HeadOf(t, d, name))
    requires WriteRefused(v, ch, t, d, name, src, out, ch', t') || WriteReached(v, ch, t, d, name, mode, src, out, ch', t')
    ensures WriteDone(v, ch, t, d, name, mode, src, out, ch', t')
  {
  }

  lemma NotDot(v: Volume, ch: Chains, t: Tree, r: Ref, s: Slot, name: ShortName)
    requires Decode(s).Entry? && Decode(s).name == name && Nameable(name)
    ensures !Decode(s).dot
  {
  }

  lemma MatchesIs(rec: Record, name: ShortName)
    requires Matches(rec, name)
    ensures rec.Entry? && rec.name == name
  {
  }

  lemma HeadOfIs(t: Tree, d: nat, name: ShortName)
    ensures Lookup(t, d, name).None? ==> HeadOf(t, d, name) == 0
    ensures Lookup(t, d, name).Some? && Lookup(t, d, name).value.Entry? ==> HeadOf(t, d, name) == Lookup(t, d, name).value.head
  {
  }

  /** Writing to an existing record. */
  lemma WriteExisting(v: Volume, ch: Chains, t: Tree, d: nat, name: ShortName, mode: Mode, src: Source) returns (ch': Chains, t': Tree)
    requires Inv(v, ch, t) && d in t.view && Nameable(name) && Sized(src) && Lookup(t, d, name).Some?
    ensures Shape(v) && WriteDone(v, ch, t, d, name, mode, src, Write(v, d, name, mode, src), ch', t')
  {
    hide *;
    InvParts(v, ch, t);
    var r := LocateStep(v, ch, t, d, name);
    WriteUnfold(v, d, name, mode, src);
    var loc := Locate(v, d, name).value;
    var s := Get(v.data, loc);
    StoredAtParts(v.data, ch, t, r, loc);
    MatchesIs(At(t, r), name);
    NotDot(v, ch, t, r, s, name);
    var out := Write(v, d, name, mode, src);
    var rec;
    ch', t', rec := StoreStep(v, ch, t, r, loc, s, mode, src);
    SafeParts(v, ch, t, r, out, ch', t', rec);
    InvParts(out.v, ch', t');
    OnlySlotNames(t, t', ch.Keys, ch'.Keys, r, rec);
    OnlySlotSame(t, t', r, rec);
    HeadOfIs(t, d, name);
    if At(t, r).directory || !Given(src) {
      RefusedIntro(v, ch, t, d, name, src);
    } else {
      ReachedIntro(v, ch, t, d, name, mode, src, out, ch', t', At(t, r), rec);
    }
    WriteDoneIntro(v, ch, t, d, name, mode, src, out, ch', t');
  }

  lemma OnlySlotSame(t: Tree, t': Tree, r: Ref, rec: Record)
    requires OnlySlot(t, t', r, rec)
    ensures rec.Entry? && IsRef(t, r) && At(t, r).Entry? && rec.directory == At(t, r).directory && rec.name == At(t, r).name
  {
  }

  lemma AddedIs(t: Tree, t': Tree, r: Ref, rec: Record)
    requires Added(t, t', r, rec)
    ensures IsRef(t', r) && At(t', r) == rec && t'.view.Keys == t.view.Keys
  {
  }

  lemma StoredFresh(v: Volume, ch: Chains, v1: Volume, ch1: Chains, was: Record, mode: Mode, src: Source, out: Outcome, ch': Chains, rec: Record)
    requires Stored(v1, ch1, was, mode, src, out, ch', rec) && was.Entry? && was.head == 0 && was.size == 0 && 0 < v.csize == v1.csize
    ensures Stored(v, ch, was, mode, src, out, ch', rec)
  {
    TightIs(v, ch, was);
    TightIs(v1, ch1, was);
    ContentsEmpty(v, ch, was);
    ContentsEmpty(v1, ch1, was);
    EndsInsideIs(0, v.csize);
    LandsEasily(v, ch, was, BytesOf(src));
    LandsEasily(v1, ch1, was, BytesOf(src));
    hide Contents, Tight, EndsInside, AppendLands, Holds, TailReplaced, FreeFrom;
  }

  /** Writing under a name that does not exist yet. */
  lemma WriteNew(v: Volume, ch: Chains, t: Tree, d: nat, name: ShortName, mode: Mode, src: Source) returns (ch': Chains, t': Tree)
    requires Inv(v, ch, t) && d in t.view && Nameable(name) && Sized(src) && Lookup(t, d, name).None?
    ensures Shape(v) && WriteDone(v, ch, t, d, name, mode, src, Write(v, d, name, mode, src), ch', t')
  {
    hide *;
    InvParts(v, ch, t);
    var r0 := LocateStep(v, ch, t, d, name);
    WriteUnfold(v, d, name, mode, src);
    HeadOfIs(t, d, name);
    FreshFile(name);
    var s, was := Fresh(name, ATTR_FILE), Entry(name, false, false, 0, 0);
    var out, made := Write(v, d, name, mode, src), Create(v, d, s);
    var ch1, t1, r := CreateStep(v, ch, t, d, s);
    if made.loc.None? {
      ch', t' := ch, t;
      NamesKeptRefl(t, d, name);
      OthersSameRefl(v, ch, t, 0);
      RefusedIntro(v, ch, t, d, name, src);
      WriteDoneIntro(v, ch, t, d, name, mode, src, out, ch, t);
    } else {
      InvParts(made.v, ch1, t1);
      AddedNames(t, t1, ch.Keys, ch1.Keys, r, was);
      AddedIs(t, t1, r, was);
      var rec;
      ch', t', rec := StoreStep(made.v, ch1, t1, r, made.loc.value, s, mode, src);
      SafeParts(made.v, ch1, t1, r, out, ch', t', rec);
      InvParts(out.v, ch', t');
      OnlySlotNames(t1, t', ch1.Keys, ch'.Keys, r, rec);
      OnlySlotSame(t1, t', r, rec);
      NamesKeptTwice(t, t1, t', d, name);
      OthersSameChain(v, ch, made.v, ch1, out.v, ch', t, t1, 0, 0);
      StoredFresh(v, ch, made.v, ch1, was, mode, src, out, ch', rec);
      ReachedIntro(v, ch, t, d, name, mode, src, out, ch', t', was, rec);
      WriteDoneIntro(v, ch, t, d, name, mode, src, out, ch', t');
    }
  }

  /** A write keeps the invariant and every other file, on success and on failure. */
  lemma WriteStep(v: Volume, ch: Chains, t: Tree, d: nat, name: ShortName, mode: Mode, src: Source) returns (ch': Chains, t': Tree)
    requires Inv(v, ch, t) && d in t.view && Nameable(name) && Sized(src)
    ensures Shape(v) && WriteDone(v, ch, t, d, name, mode, src, Write(v, d, name, mode, src), ch', t')
  {
    hide *;
    if Lookup(t, d, name).Some? {
      ch', t' := WriteExisting(v, ch, t, d, name, mode, src);
    } else {
      ch', t' := WriteNew(v, ch, t, d, name, mode, src);
    }
  }

  /** A directory without records of its own. */
  ghost predicate OnlyDots(t: Tree, d: nat) {
    d in t.view && forall k :: 0 <= k < |t.view[d]| && t.view[d][k].Entry? ==> t.view[d][k].dot
  }

  lemma OnlyDotsIntro(t: Tree, d: nat)
    requires d in t.view && forall k :: 0 <= k < |t.view[d]| && t.view[d][k].Entry? ==> t.view[d][k].dot
    ensures OnlyDots(t, d)
  {
  }

  /** No name leads anywhere in such a directory. */
  lemma OnlyDotsLookup(v: Volume, ch: Chains, t: Tree, d: nat, name: ShortName)
    requires Inv(v, ch, t) && OnlyDots(t, d) && Nameable(name)
    ensures Lookup(t, d, name) == None
  {
    hide *;
    OnlyDotsParts(t, d);
    InvParts(v, ch, t);
    var r := LocateStep(v, ch, t, d, name);
    if Locate(v, d, name).Some? {
      var loc := Locate(v, d, name).value;
      StoredAtParts(v.data, ch, t, r, loc);
      RefIs(t, r);
      MatchesIs(At(t, r), name);
      NotDot(v, ch, t, r, Get(v.data, loc), name);
    }
  }

  lemma OnlyDotsParts(t: Tree, d: nat)
    requires OnlyDots(t, d)
    ensures d in t.view && forall k :: 0 <= k < |t.view[d]| && t.view[d][k].Entry? ==> t.view[d][k].dot
  {
  }

  lemma RefIs(t: Tree, r: Ref)
    requires IsRef(t, r)
    ensures r.d in t.view && r.k < |t.view[r.d]| && At(t, r) == t.view[r.d][r.k]
  {
  }
}
