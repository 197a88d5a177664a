/** Remove under the invariant. */
module FatRemoves {
  import opened Common
  import opened FatTable
  import opened FatChains
  import opened FatSlots
  import opened FatStore
  import opened FatTree
  import opened FatOps
  import opened FatInvariant
  import opened FatSteps
  import opened FatFiles
  import opened FatAppend
  import opened FatAppendExact
  import opened FatDirs
  import opened FatWrites

  // ---------------------------------------------------------------- remove

  lemma DecodeErased(s: Slot)
    ensures Decode(Erased(s)) == Free
  {
  }

  lemma FreeFits(t: Tree, heads: set<nat>, r: Ref)
    requires TreeOk(t, heads) && IsRef(t, r) && At(t, r).Entry?
    ensures Fits(t, r, Free)
  {
    assert DirOk(t.view[r.d]);
  }

  /** The tree loses the record at `r` and, with it, at most the directory `h`. */
  ghost predicate Dropped(t: Tree, t': Tree, r: Ref, h: nat) {
    && IsRef(t, r) && At(t, r).Entry? && r.d != h
    && (t'.view == SetAt(t, r, Free).view || t'.view == SetAt(t, r, Free).view - {h})
  }

  lemma DroppedView(t: Tree, t': Tree, r: Ref, h: nat)
    requires Dropped(t, t', r, h)
    ensures IsRef(t, r) && At(t, r).Entry? && r.d in t.view && r.d in t'.view && r.k < |t.view[r.d]| && At(t, r) == t.view[r.d][r.k]
    ensures forall e :: e in t'.view ==> e in t.view && t'.view[e] == if e == r.d then t.view[e][r.k := Free] else t.view[e]
  {
  }

  lemma DroppedLookup(t: Tree, t': Tree, r: Ref, name: ShortName, e: nat, n: ShortName)
    requires r.d in t.view && r.k < |t.view[r.d]| && Matches(t.view[r.d][r.k], name)
    requires e in t.view && e in t'.view && DirOk(t.view[e]) && DirOk(t'.view[e])
    requires t'.view[e] == if e == r.d then t.view[e][r.k := Free] else t.view[e]
    ensures if e == r.d && n == name then Lookup(t', e, n).None? else Lookup(t', e, n) == Lookup(t, e, n)
  {
    if e == r.d && n == name {
      LookupFacts(t', e, n);
      var dir := t.view[e];
      forall k | 0 <= k < |dir| && k != r.k
        ensures !Matches(dir[k], name)
      {
        assert NamesUnique(dir);
      }
    } else {
      hide DirOk;
      LookupSame(t, t', e, n);
    }
  }

  lemma MatchesOwn(rec: Record)
    requires rec.Entry?
    ensures Matches(rec, rec.name)
  {
  }

  lemma DirsEach(t: Tree)
    requires DirsOk(t)
    ensures forall d :: d in t.view ==> DirOk(t.view[d])
  {
  }

  lemma DroppedNames(t: Tree, t': Tree, heads: set<nat>, heads': set<nat>, r: Ref, h: nat)
    requires TreeOk(t, heads) && TreeOk(t', heads') && Dropped(t, t', r, h)
    ensures IsRef(t, r) && r.d in t'.view && At(t, r).Entry? && Lookup(t', r.d, At(t, r).name).None?
    ensures NamesKept(t, t', r.d, At(t, r).name)
  {
    hide *;
    DroppedView(t, t', r, h);
    DirsOkOf(t, heads);
    DirsOkOf(t', heads');
    DirsEach(t);
    DirsEach(t');
    var name := At(t, r).name;
    MatchesOwn(At(t, r));
    DroppedLookup(t, t', r, name, r.d, name);
    forall e, n | e in t.view && e in t'.view && (e != r.d || n != name)
      ensures Lookup(t', e, n) == Lookup(t, e, n)
    {
      DroppedLookup(t, t', r, name, e, n);
    }
    NamesKeptIntro(t, t', r.d, name);
  }

  lemma NamesKeptIntro(t: Tree, t': Tree, d: nat, name: ShortName)
    requires forall e, n :: e in t.view && e in t'.view && (e != d || n != name) ==> Lookup(t', e, n) == Lookup(t, e, n)
    ensures NamesKept(t, t', d, name)
  {
  }

  lemma ChainOfBlocks(v: Volume, h: nat)
    requires Shape(v)
    ensures BlocksIn(v.data, ChainOf(v.kind, v.fat, h))
  {
  }

  lemma RemoveCases(v: Volume, d: nat, name: ShortName)
    requires Shape(v)
    ensures var found := Locate(v, d, name);
      && (found.None? ==> Remove(v, d, name) == Outcome(v, false))
      && (found.Some? ==>
        var s := Get(v.data, found.value);
        var chain := ChainOf(v.kind, v.fat, Head(s));
        && BlocksIn(v.data, chain)
        && (IsDirectory(Attr(s)) && Head(s) < 2 && v.kind.Fat16? ==> Remove(v, d, name) == Outcome(v, false))
        && (IsDirectory(Attr(s)) && !VacantFrom(Records(v.data, chain), 0) ==> Remove(v, d, name) == Outcome(v, false))
        && ((IsDirectory(Attr(s)) ==> !(Head(s) < 2 && v.kind.Fat16?) && VacantFrom(Records(v.data, chain), 0)) ==>
          Remove(v, d, name) == Outcome(PutAt(v.(fat := Release(v.kind, v.fat, Head(s))), found.value, Erased(s)), true)))
  {
    hide Locate, Get, Head, Attr, IsDirectory, ChainOf, Records, VacantFrom, Release;
    var found := Locate(v, d, name);
    if found.Some? {
      ChainOfBlocks(v, Head(Get(v.data, found.value)));
    }
  }

  /** A vacant directory holds dot records only. */
  lemma {:induction false} VacantIff(dir: Dir, i: nat)
    requires i <= |dir| && TailEnds(dir)
    ensures VacantFrom(dir, i) <==> forall k :: i <= k < |dir| && dir[k].Entry? ==> dir[k].dot
    decreases |dir| - i
  {
    if i < |dir| && !dir[i].End? {
      VacantIff(dir, i + 1);
    }
  }

  lemma VacantIsOnlyDots(v: Volume, ch: Chains, t: Tree, h: nat)
    requires Inv(v, ch, t) && h in ch && h in t.view
    ensures BlocksIn(v.data, ChainOf(v.kind, v.fat, h))
    ensures VacantFrom(Records(v.data, ChainOf(v.kind, v.fat, h)), 0) <==> OnlyDots(t, h)
  {
    hide *;
    InvParts(v, ch, t);
    DirsOkOf(t, ch.Keys);
    DirsEach(t);
    TailOf(t.view[h]);
    WalkIs(v, ch, h);
    ChainFacts(v, ch, h);
    DirIsStored(v, ch, t, h);
    DirStoredParts(v.data, ch, t, h);
    VacantIff(t.view[h], 0);
    OnlyDotsIs(t, h);
  }

  lemma TailOf(dir: Dir)
    requires DirOk(dir)
    ensures TailEnds(dir)
  {
  }

  lemma OnlyDotsIs(t: Tree, d: nat)
    requires d in t.view
    ensures OnlyDots(t, d) <==> forall k :: 0 <= k < |t.view[d]| && t.view[d][k].Entry? ==> t.view[d][k].dot
  {
  }

  /** What can be removed: a file, an empty directory, or on FAT32 a directory without a cluster. */
  ghost predicate Removes(v: Volume, t: Tree, d: nat, name: ShortName) {
    && Lookup(t, d, name).Some? && Lookup(t, d, name).value.Entry?
    && var rec := Lookup(t, d, name).value;
      rec.directory ==> if rec.head >= 2 then OnlyDots(t, rec.head) else v.kind.Fat32?
  }

  lemma RemovesIs(v: Volume, t: Tree, d: nat, name: ShortName, rec: Record)
    requires Lookup(t, d, name) == Some(rec) && rec.Entry?
    ensures Removes(v, t, d, name) <==> (rec.directory ==> if rec.head >= 2 then OnlyDots(t, rec.head) else v.kind.Fat32?)
  {
  }

  lemma RemovesSome(v: Volume, t: Tree, d: nat, name: ShortName)
    requires Removes(v, t, d, name)
    ensures Lookup(t, d, name).Some? && Lookup(t, d, name).value.Entry?
  {
  }

  lemma NoWalk(v: Volume, h: nat)
    requires h < 2
    ensures ChainOf(v.kind, v.fat, h) == [] && VacantFrom(Records(v.data, []), 0)
  {
  }

  lemma RemoveOk(v: Volume, ch: Chains, t: Tree, d: nat, name: ShortName)
    requires Inv(v, ch, t) && d in t.view && Nameable(name)
    ensures Shape(v) && (Remove(v, d, name).ok <==> Removes(v, t, d, name))
    ensures !Remove(v, d, name).ok ==> Remove(v, d, name) == Outcome(v, false)
  {
    hide *;
    InvParts(v, ch, t);
    var r := LocateStep(v, ch, t, d, name);
    RemoveCases(v, d, name);
    if Locate(v, d, name).None? {
      if Removes(v, t, d, name) {
        RemovesSome(v, t, d, name);
      }
    } else {
      var loc := Locate(v, d, name).value;
      var s := Get(v.data, loc);
      StoredAtParts(v.data, ch, t, r, loc);
      MatchesIs(At(t, r), name);
      NotDot(v, ch, t, r, s, name);
      DecodeFields(s);
      RemovesIs(v, t, d, name, At(t, r));
      OwnsHead(At(t, r));
      if Head(s) < 2 {
        NoWalk(v, Head(s));
      } else {
        OwnerHead(v, ch, t, r);
        if At(t, r).directory {
          VacantIsOnlyDots(v, ch, t, Head(s));
        }
      }
    }
  }

  lemma ReleaseNothing(v: Volume, c: nat)
    requires c < 2
    ensures v.(fat := Release(v.kind, v.fat, c)) == v
  {
  }

  /** The directory that goes away with a record. */
  ghost function GoneDir(rec: Record): set<nat> {
    if rec.Entry? && rec.directory && rec.head >= 2 then {rec.head} else {}
  }

  /** What a remove guarantees: the name is gone, everything else stays. */
  ghost predicate RemoveDone(v: Volume, ch: Chains, t: Tree, d: nat, name: ShortName, out: Outcome, ch': Chains, t': Tree) {
    && Inv(out.v, ch', t')
    && d in t'.view && t'.view.Keys <= t.view.Keys
    && NamesKept(t, t', d, name)
    && OthersSame(v, ch, out.v, ch', t, HeadOf(t, d, name))
    && (out.ok <==> Removes(v, t, d, name))
    && (out.ok ==>
      && Lookup(t, d, name).Some? && Lookup(t', d, name).None?
      && t'.view.Keys == t.view.Keys - GoneDir(Lookup(t, d, name).value)
      && HeadOf(t, d, name) !in ch'.Keys)
    && (!out.ok ==> out.v == v && ch' == ch && t' == t)
  }

  lemma RemoveDoneIntro(v: Volume, ch: Chains, t: Tree, d: nat, name: ShortName, out: Outcome, ch': Chains, t': Tree)
    requires Inv(out.v, ch', t')
    requires d in t'.view && t'.view.Keys <= t.view.Keys
    requires NamesKept(t, t', d, name)
    requires OthersSame(v, ch, out.v, ch', t, HeadOf(t, d, name))
    requires out.ok ==> Lookup(t, d, name).Some? && Lookup(t', d, name).None?
    requires out.ok ==> t'.view.Keys == t.view.Keys - GoneDir(Lookup(t, d, name).value) && HeadOf(t, d, name) !in ch'.Keys
    requires out.ok <==> Removes(v, t, d, name)
    requires !out.ok ==> out.v == v && ch' == ch && t' == t
    ensures RemoveDone(v, ch, t, d, name, out, ch', t')
  {
  }

  lemma DroppedIntro(t: Tree, t': Tree, r: Ref, h: nat)
    requires IsRef(t, r) && At(t, r).Entry? && r.d != h
    requires t'.view == SetAt(t, r, Free).view || t'.view == SetAt(t, r, Free).view - {h}
    ensures Dropped(t, t', r, h)
  {
  }

  lemma NotOwnDirectory(v: Volume, ch: Chains, t: Tree, r: Ref)
    requires Inv(v, ch, t) && IsRef(t, r) && Owns(At(t, r))
    ensures r.d != At(t, r).head
  {
  }

  lemma VacantView(t: Tree, h: nat)
    requires OnlyDots(t, h)
    ensures h in t.view && forall k :: 0 <= k < |t.view[h]| ==> !Owns(t.view[h][k])
  {
  }

  lemma LowHeads(v: Volume, ch: Chains, t: Tree, r: Ref)
    requires Inv(v, ch, t) && IsRef(t, r) && At(t, r).Entry? && At(t, r).head < 2
    ensures At(t, r).head !in ch.Keys
    ensures At(t, r).head in t.view ==> v.kind.Fat16? && At(t, r).head == 0
  {
    if At(t, r).head in ch {
      HeadsInRange(v, ch, At(t, r).head);
    }
    if At(t, r).head in t.view {
      DirIsStored(v, ch, t, At(t, r).head);
    }
  }

  /** The released volume, by kind of record. */
  lemma RemoveReleases(v: Volume, ch: Chains, t: Tree, r: Ref, loc: Loc, s: Slot) returns (ch': Chains, t': Tree)
    requires Inv(v, ch, t) && StoredAt(v.data, ch, t, r, loc) && Decode(s) == At(t, r)
    requires At(t, r).Entry? && !At(t, r).dot && At(t, r).head >= 2
    requires At(t, r).directory ==> OnlyDots(t, At(t, r).head)
    ensures var v' := PutAt(v.(fat := Release(v.kind, v.fat, At(t, r).head)), loc, Erased(s));
      && Inv(v', ch', t') && Dropped(t, t', r, At(t, r).head) && ch' == ch - {At(t, r).head}
      && t'.view.Keys == t.view.Keys - GoneDir(At(t, r))
      && OthersSame(v, ch, v', ch', t, At(t, r).head)
  {
    hide *;
    StoredAtParts(v.data, ch, t, r, loc);
    InvParts(v, ch, t);
    var h := At(t, r).head;
    DecodeErased(s);
    FreeFits(t, ch.Keys, r);
    OwnsHead(At(t, r));
    NotOwning(Free);
    OwnerHead(v, ch, t, r);
    NotOwnDirectory(v, ch, t, r);
    SetAtReads(t, r, Free);
    ch' := ch - {h};
    if At(t, r).directory {
      VacantView(t, h);
      ReleaseDir(v, ch, t, r, loc, Erased(s), h);
      t' := Tree(SetAt(t, r, Free).view - {h}, t.own - {h}, t.rank - {h}, t.root);
    } else {
      ReleaseFile(v, ch, t, r, loc, Erased(s), h);
      t' := SetAt(t, r, Free).(own := t.own - {h});
    }
    GoneDirIs(At(t, r));
    DroppedIntro(t, t', r, h);
    PutSame(v, ch, t, r, loc, Erased(s), Release(v.kind, v.fat, h), ch', h);
  }

  lemma GoneDirIs(rec: Record)
    requires rec.Entry?
    ensures GoneDir(rec) == if rec.directory && rec.head >= 2 then {rec.head} else {}
  {
  }

  /** Removing a record that owns no chain. */
  lemma RemoveEmpty(v: Volume, ch: Chains, t: Tree, r: Ref, loc: Loc, s: Slot) returns (ch': Chains, t': Tree)
    requires Inv(v, ch, t) && StoredAt(v.data, ch, t, r, loc) && Decode(s) == At(t, r)
    requires At(t, r).Entry? && At(t, r).head < 2
    ensures var v' := PutAt(v.(fat := Release(v.kind, v.fat, At(t, r).head)), loc, Erased(s));
      && Inv(v', ch', t') && Dropped(t, t', r, r.d + 1) && ch' == ch && At(t, r).head !in ch.Keys
      && t'.view.Keys == t.view.Keys - GoneDir(At(t, r))
      && OthersSame(v, ch, v', ch', t, At(t, r).head)
  {
    hide *;
    StoredAtParts(v.data, ch, t, r, loc);
    InvParts(v, ch, t);
    DecodeErased(s);
    FreeFits(t, ch.Keys, r);
    NotOwning(At(t, r));
    NotOwning(Free);
    LowHeads(v, ch, t, r);
    GoneDirIs(At(t, r));
    SetAtReads(t, r, Free);
    ReleaseNothing(v, At(t, r).head);
    KeepSlot(v, ch, t, r, loc, Erased(s));
    ch', t' := ch, SetAt(t, r, Free);
    DroppedIntro(t, t', r, r.d + 1);
    PutSame(v, ch, t, r, loc, Erased(s), v.fat, ch, At(t, r).head);
  }

  lemma RemoveKept(v: Volume, ch: Chains, t: Tree, d: nat, name: ShortName)
    requires Inv(v, ch, t) && d in t.view && !Removes(v, t, d, name)
    ensures RemoveDone(v, ch, t, d, name, Outcome(v, false), ch, t)
  {
    hide *;
    NamesKeptRefl(t, d, name);
    OthersSameRefl(v, ch, t, HeadOf(t, d, name));
    RemoveDoneIntro(v, ch, t, d, name, Outcome(v, false), ch, t);
  }

  /** Remove frees the chain of the named record and the name; nothing else changes. */
  lemma RemoveStep(v: Volume, ch: Chains, t: Tree, d: nat, name: ShortName) returns (ch': Chains, t': Tree)
    requires Inv(v, ch, t) && d in t.view && Nameable(name)
    ensures Shape(v) && RemoveDone(v, ch, t, d, name, Remove(v, d, name), ch', t')
  {
    hide *;
    InvParts(v, ch, t);
    var r := LocateStep(v, ch, t, d, name);
    RemoveCases(v, d, name);
    RemoveOk(v, ch, t, d, name);
    HeadOfIs(t, d, name);
    var out := Remove(v, d, name);
    if !out.ok {
      ch', t' := ch, t;
      RemoveKept(v, ch, t, d, name);
    } else {
      var loc := Locate(v, d, name).value;
      var s := Get(v.data, loc);
      StoredAtParts(v.data, ch, t, r, loc);
      MatchesIs(At(t, r), name);
      NotDot(v, ch, t, r, s, name);
      DecodeFields(s);
      var h := At(t, r).head;
      RemovesIs(v, t, d, name, At(t, r));
      if h >= 2 {
        ch', t' := RemoveReleases(v, ch, t, r, loc, s);
        InvParts(out.v, ch', t');
        DroppedNames(t, t', ch.Keys, ch'.Keys, r, h);
      } else {
        ch', t' := RemoveEmpty(v, ch, t, r, loc, s);
        InvParts(out.v, ch', t');
        DroppedNames(t, t', ch.Keys, ch'.Keys, r, r.d + 1);
      }
      RemoveDoneIntro(v, ch, t, d, name, out, ch', t');
    }
  }
}
