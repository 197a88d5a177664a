/**
 Remove and mkdir by path: what every path reads afterwards, and the record that a mkdir without
 space leaves behind, which stays for good on FAT16 and makes paths through it stand for the root.
 */
module FatDirTheorems {
  import opened Common
  import opened FatTable
  import opened FatChains
  import opened FatSlots
  import opened FatStore
  import opened FatTree
  import opened FatOps
  import opened FatInvariant
  import opened FatSteps
  import opened FatDirs
  import opened FatWrites
  import opened FatRemoves
  import opened FatMkdir
  import opened FatPaths
  import opened FatRoutes
  import opened FatTheorems
  import opened FatPathTheorems

  // ---------------------------------------------------------------- trees with fewer routes

  /** No name leads to a record in directory `d`, live or not. */
  ghost predicate Barren(t: Tree, d: nat) {
    forall n :: Nameable(n) ==> Lookup(t, d, n) == None
  }

  /** `b` has the routes of `a`, and otherwise only routes to barren directories. */
  ghost predicate FewerRoutes(kind: Kind, a: Tree, b: Tree) {
    forall d, name ::
      if Child(kind, a, d, name).Some? then Child(kind, b, d, name) == Child(kind, a, d, name)
      else Child(kind, b, d, name).None? || Barren(b, Child(kind, b, d, name).value)
  }

  lemma FewerAt(kind: Kind, a: Tree, b: Tree, d: nat, name: string)
    requires FewerRoutes(kind, a, b)
    ensures Child(kind, a, d, name).Some? ==> Child(kind, b, d, name) == Child(kind, a, d, name)
    ensures Child(kind, a, d, name).None? && Child(kind, b, d, name).Some? ==> Barren(b, Child(kind, b, d, name).value)
  {
    hide Child, Barren;
  }

  lemma BarrenChild(kind: Kind, t: Tree, d: nat, name: string)
    requires Barren(t, d)
    ensures Child(kind, t, d, name) == None
  {
    hide ShortNameOf, Lookup;
  }

  lemma {:induction false} ReachFewer(kind: Kind, a: Tree, b: Tree, d: nat, names: seq<string>)
    requires FewerRoutes(kind, a, b)
    ensures Reach(kind, a, d, names).Some? ==> Reach(kind, b, d, names) == Reach(kind, a, d, names)
    ensures Reach(kind, a, d, names).None? && Reach(kind, b, d, names).Some? ==> Barren(b, Reach(kind, b, d, names).value)
    decreases |names|
  {
    hide *;
    if names == [] {
      ReachUnfold(kind, a, d, "", []);
      ReachUnfold(kind, b, d, "", []);
    } else {
      var rest := names[1..];
      assert names == [names[0]] + rest;
      ReachUnfold(kind, a, d, names[0], rest);
      ReachUnfold(kind, b, d, names[0], rest);
      FewerAt(kind, a, b, d, names[0]);
      if Child(kind, a, d, names[0]).Some? {
        ReachFewer(kind, a, b, Child(kind, a, d, names[0]).value, rest);
      } else if Child(kind, b, d, names[0]).Some? {
        BarrenReach(kind, b, Child(kind, b, d, names[0]).value, rest);
      }
    }
  }

  lemma BarrenReach(kind: Kind, t: Tree, d: nat, names: seq<string>)
    requires Barren(t, d)
    ensures Reach(kind, t, d, names) == if names == [] then Some(d) else None
  {
    hide *;
    ReachUnfold(kind, t, d, "", []);
    if names != [] {
      assert names == [names[0]] + names[1..];
      ReachUnfold(kind, t, d, names[0], names[1..]);
      BarrenChild(kind, t, d, names[0]);
    }
  }

  lemma TargetFewer(kind: Kind, a: Tree, b: Tree, root: nat, path: string)
    requires FewerRoutes(kind, a, b)
    ensures TreeTarget(kind, a, root, path).Some? ==> TreeTarget(kind, b, root, path) == TreeTarget(kind, a, root, path)
    ensures TreeTarget(kind, a, root, path).None? && TreeTarget(kind, b, root, path).Some? ==> Barren(b, TreeTarget(kind, b, root, path).value.0)
  {
    hide *;
    TreeTargetUnfold(kind, a, root, path);
    TreeTargetUnfold(kind, b, root, path);
    if Split(path).Some? {
      ReachFewer(kind, a, b, root, Readable(Split(path).value.0));
    }
  }

  lemma BarrenAt(t: Tree, d: nat, n: ShortName)
    requires Barren(t, d) && Nameable(n)
    ensures Lookup(t, d, n) == None
  {
  }

  lemma OnlyDotsBarren(v: Volume, ch: Chains, t: Tree, d: nat)
    requires Inv(v, ch, t) && (OnlyDots(t, d) || d == 1)
    ensures Barren(t, d)
  {
    hide Inv, OnlyDots, Lookup, Nameable;
    forall n | Nameable(n)
      ensures Lookup(t, d, n) == None
    {
      if d == 1 {
        NoViewOfOne(v, ch, t, n);
      } else {
        OnlyDotsLookup(v, ch, t, d, n);
      }
    }
  }

  lemma FewerIntro(kind: Kind, a: Tree, b: Tree)
    requires forall d, name ::
      if Child(kind, a, d, name).Some? then Child(kind, b, d, name) == Child(kind, a, d, name)
      else Child(kind, b, d, name).None? || Barren(b, Child(kind, b, d, name).value)
    ensures FewerRoutes(kind, a, b)
  {
  }

  /** Where a path leads in a barren directory, it reads nothing. */
  lemma BarrenReadsNothing(v: Volume, ch: Chains, t: Tree, q: string, max: nat)
    requires Inv(v, ch, t) && Shape(v) && TargetOf(v, q).Some? && Barren(t, TargetOf(v, q).value.0)
    ensures ReadPath(v, q, max) == None
  {
    hide *;
    TargetIs(v, ch, t, q);
    ReadByTarget(v, q, max);
    BarrenAt(t, TargetOf(v, q).value.0, TargetOf(v, q).value.1);
    ReadNothing(v, ch, t, TargetOf(v, q).value.0, TargetOf(v, q).value.1, max);
  }

  // ---------------------------------------------------------------- remove

  lemma RemovedDir(v: Volume, t: Tree, d: nat, name: ShortName, rec: Record)
    requires Removes(v, t, d, name) && Lookup(t, d, name) == Some(rec) && rec.Entry?
    ensures rec.directory && rec.head >= 2 ==> OnlyDots(t, rec.head) && GoneDir(rec) == {rec.head}
    ensures !(rec.directory && rec.head >= 2) ==> GoneDir(rec) == {}
    ensures rec.directory && rec.head < 2 ==> v.kind.Fat32?
  {
    hide OnlyDots, Lookup;
  }

  /** A successful remove takes routes away only if they led to an empty directory. */
  lemma RemoveRoute(v: Volume, ch: Chains, t: Tree, d: nat, name: ShortName, out: Outcome, ch': Chains, t': Tree, e: nat, text: string)
    requires Inv(v, ch, t) && RemoveDone(v, ch, t, d, name, out, ch', t') && out.ok
    ensures if Child(v.kind, t', e, text).Some? then Child(v.kind, t, e, text) == Child(v.kind, t', e, text)
            else Child(v.kind, t, e, text).None? || Barren(t, Child(v.kind, t, e, text).value)
  {
    hide *;
    RemoveDoneParts(v, ch, t, d, name, out, ch', t');
    RemovesSome(v, t, d, name);
    var rec := Lookup(t, d, name).value;
    RemovedDir(v, t, d, name, rec);
    ChildIs(v.kind, t, e, text);
    ChildIs(v.kind, t', e, text);
    if ShortNameOf(text).Some? {
      var n := ShortNameOf(text).value;
      if e !in t.view {
        NoLookup(t, e, n);
        NoLookup(t', e, n);
      } else if e !in t'.view {
        NoLookup(t', e, n);
        OnlyDotsLookup(v, ch, t, e, n);
      } else if e != d || n != name {
        NamesAt(t, t', d, name, e, n);
      } else if Child(v.kind, t, e, text).Some? {
        OnlyDotsBarren(v, ch, t, rec.head);
      }
    }
  }

  /**
   Remove by path: after a successful remove, every path that stands for the removed record reads
   nothing; every other path, also one into a removed directory, reads what it read before.  A
   failed remove changes nothing.
   */
  lemma RemoveByPath(v: Volume, path: string, q: string, max: nat)
    requires Consistent(v) && Shape(v)
    ensures Shape(Apply(v, RemoveFile(path)).v)
    ensures ReadPath(Apply(v, RemoveFile(path)).v, q, max) ==
      if Apply(v, RemoveFile(path)).ok && TargetOf(v, q) == TargetOf(v, path) then None else ReadPath(v, q, max)
  {
    hide *;
    var ch, t := Witnesses(v);
    var op, target := RemoveFile(path), TargetOf(v, path);
    var out := Apply(v, op);
    LiveTarget(v, ch, t, op);
    ByTarget(v, op, max);
    if target.Some? && target.value.0 in t.view {
      var d, name := target.value.0, target.value.1;
      var ch', t' := RemoveStep(v, ch, t, d, name);
      RemoveDoneParts(v, ch, t, d, name, out, ch', t');
      if out.ok {
        RemovedReads(v, ch, t, d, name, out, ch', t', q, max);
      } else {
        FailedRemoveSame(v, ch, t, d, name, out, ch', t');
      }
    }
  }

  lemma RemovedReads(v: Volume, ch: Chains, t: Tree, d: nat, name: ShortName, out: Outcome, ch': Chains, t': Tree, q: string, max: nat)
    requires Inv(v, ch, t) && Shape(v) && d in t.view && Nameable(name)
    requires out == Remove(v, d, name) && RemoveDone(v, ch, t, d, name, out, ch', t') && out.ok
    ensures Shape(out.v)
    ensures ReadPath(out.v, q, max) == if TargetOf(v, q) == Some((d, name)) then None else ReadPath(v, q, max)
  {
    hide *;
    RemoveDoneParts(v, ch, t, d, name, out, ch', t');
    InvParts(out.v, ch', t');
    OpLayout(v, d, name, ReplaceAll, Null(0));
    LayoutIs(v, out.v);
    forall e, text
      ensures if Child(v.kind, t', e, text).Some? then Child(v.kind, t, e, text) == Child(v.kind, t', e, text)
              else Child(v.kind, t, e, text).None? || Barren(t, Child(v.kind, t, e, text).value)
    {
      RemoveRoute(v, ch, t, d, name, out, ch', t', e, text);
    }
    FewerIntro(v.kind, t', t);
    TargetIs(v, ch, t, q);
    TargetIs(out.v, ch', t', q);
    TargetFewer(v.kind, t', t, v.rootHead, q);
    ReadByTarget(v, q, max);
    ReadByTarget(out.v, q, max);
    if TargetOf(out.v, q).Some? {
      var e, n := TargetOf(v, q).value.0, TargetOf(v, q).value.1;
      if e == d && n == name {
        ReadNothing(out.v, ch', t', d, name, max);
      } else {
        ElsewhereSame(v, ch, t, out.v, ch', t', d, name, HeadOf(t, d, name), e, n, max);
      }
    } else if TargetOf(v, q).Some? {
      BarrenReadsNothing(v, ch, t, q, max);
    }
  }

  // ---------------------------------------------------------------- mkdir

  lemma StrandedChild(kind: Kind, t: Tree, d: nat, name: ShortName, text: string)
    requires ShortNameOf(text) == Some(name) && Lookup(t, d, name) == Some(Stranded(name))
    ensures Child(kind, t, d, text) == if kind.Fat32? then None else Some(0)
  {
    hide ShortNameOf, Lookup;
  }

  /** A mkdir keeps every route; a route it adds leads to an empty directory, or to the root from a stranded record. */
  lemma MkdirRoute(v: Volume, ch: Chains, t: Tree, d: nat, name: ShortName, out: Outcome, ch': Chains, t': Tree, e: nat, text: string)
    requires MkdirDone(v, ch, t, d, name, out, ch', t') && d in t.view
    ensures Child(v.kind, t, e, text).Some? ==> Child(v.kind, t', e, text) == Child(v.kind, t, e, text)
    ensures Child(v.kind, t, e, text).None? && Child(v.kind, t', e, text).Some? ==>
      || Barren(t', Child(v.kind, t', e, text).value)
      || (Strands(v, t, d, name) && v.kind.Fat16?)
  {
    hide *;
    MkdirDoneParts(v, ch, t, d, name, out, ch', t');
    NotBoth(v, t, d, name);
    ChildIs(v.kind, t, e, text);
    ChildIs(v.kind, t', e, text);
    if ShortNameOf(text).Some? {
      var n := ShortNameOf(text).value;
      if e !in t'.view {
        NoLookup(t, e, n);
        NoLookup(t', e, n);
      } else if e !in t.view {
        NoLookup(t, e, n);
        OnlyDotsLookup(out.v, ch', t', e, n);
      } else if e != d || n != name {
        NamesAt(t, t', d, name, e, n);
      } else if out.ok {
        OnlyDotsBarren(out.v, ch', t', Lookup(t', d, name).value.head);
      } else if Strands(v, t, d, name) {
        StrandedChild(v.kind, t', d, name, text);
      }
    }
  }

  lemma KeptIntro(kind: Kind, t: Tree, t': Tree)
    requires forall d, name :: Child(kind, t, d, name).Some? ==> Child(kind, t', d, name) == Child(kind, t, d, name)
    ensures RoutesKept(kind, t, t')
  {
  }

  lemma MkdirRoutes(v: Volume, ch: Chains, t: Tree, d: nat, name: ShortName, out: Outcome, ch': Chains, t': Tree)
    requires MkdirDone(v, ch, t, d, name, out, ch', t') && d in t.view
    ensures RoutesKept(v.kind, t, t')
    ensures !(Strands(v, t, d, name) && v.kind.Fat16?) ==> FewerRoutes(v.kind, t, t')
  {
    hide *;
    forall e, text
      ensures Child(v.kind, t, e, text).Some? ==> Child(v.kind, t', e, text) == Child(v.kind, t, e, text)
      ensures !(Strands(v, t, d, name) && v.kind.Fat16?) ==>
        if Child(v.kind, t, e, text).Some? then Child(v.kind, t', e, text) == Child(v.kind, t, e, text)
        else Child(v.kind, t', e, text).None? || Barren(t', Child(v.kind, t', e, text).value)
    {
      MkdirRoute(v, ch, t, d, name, out, ch', t', e, text);
    }
    KeptIntro(v.kind, t, t');
    if !(Strands(v, t, d, name) && v.kind.Fat16?) {
      FewerIntro(v.kind, t, t');
    }
  }

  /** A target that stays reads the same. */
  lemma MkdirReads(v: Volume, ch: Chains, t: Tree, d: nat, name: ShortName, out: Outcome, ch': Chains, t': Tree, e: nat, n: ShortName, max: nat)
    requires Inv(v, ch, t) && Shape(v) && d in t.view && Nameable(name) && Nameable(n) && MkdirDone(v, ch, t, d, name, out, ch', t')
    requires LiveOrNone(v, t, e) && LiveOrNone(out.v, t', e)
    ensures Shape(out.v) && Read(out.v, e, n, max) == Read(v, e, n, max)
  {
    hide *;
    MkdirDoneParts(v, ch, t, d, name, out, ch', t');
    InvParts(out.v, ch', t');
    NotBoth(v, t, d, name);
    if e != d || n != name {
      ElsewhereSame(v, ch, t, out.v, ch', t', d, name, 0, e, n, max);
    } else if Makes(v, t, d, name) || Strands(v, t, d, name) {
      StrandedEntry(name);
      ReadNothing(v, ch, t, e, n, max);
      ReadNothing(out.v, ch', t', e, n, max);
    }
  }

  lemma StrandedEntry(name: ShortName)
    ensures Stranded(name).Entry? && Stranded(name).directory && Stranded(name).head == 0
  {
  }

  /** A mkdir at a path fails after taking a slot, with no cluster left. */
  ghost predicate StrandsAt(v: Volume, t: Tree, path: string)
    requires Shape(v)
  {
    TargetOf(v, path).Some? && Strands(v, t, TargetOf(v, path).value.0, TargetOf(v, path).value.1)
  }

  lemma StrandsAtIs(v: Volume, t: Tree, path: string)
    requires Shape(v) && TargetOf(v, path).Some?
    ensures StrandsAt(v, t, path) <==> Strands(v, t, TargetOf(v, path).value.0, TargetOf(v, path).value.1)
  {
  }

  /** The mkdir step by path. */
  lemma MkdirByPathStep(v: Volume, ch: Chains, t: Tree, path: string) returns (ch': Chains, t': Tree)
    requires Inv(v, ch, t) && Shape(v)
    ensures var out, target := Apply(v, MakeDir(path)), TargetOf(v, path);
      && Inv(out.v, ch', t') && Shape(out.v) && SameLayout(v, out.v)
      && (target.Some? && target.value.0 in t.view ==> Nameable(target.value.1) && MkdirDone(v, ch, t, target.value.0, target.value.1, out, ch', t'))
      && (target.None? || target.value.0 !in t.view ==> out == Outcome(v, false) && ch' == ch && t' == t)
  {
    hide *;
    var op, target := MakeDir(path), TargetOf(v, path);
    var out := Apply(v, op);
    LiveTarget(v, ch, t, op);
    ByTarget(v, op, 0);
    ch', t' := ch, t;
    if target.Some? && target.value.0 in t.view {
      ch', t' := MkdirStep(v, ch, t, target.value.0, target.value.1);
      MkdirDoneParts(v, ch, t, target.value.0, target.value.1, out, ch', t');
      InvParts(out.v, ch', t');
      OpLayout(v, target.value.0, target.value.1, ReplaceAll, Null(0));
    } else {
      LayoutSame(v);
    }
  }

  lemma LayoutSame(v: Volume)
    ensures SameLayout(v, v)
  {
  }

  /**
   Mkdir by path: a path that stood for something reads what it read before.  So does every path
   at all, unless the call left a record without a cluster on FAT16.
   */
  lemma MkdirByPath(v: Volume, ch: Chains, t: Tree, path: string, q: string, max: nat)
    requires Inv(v, ch, t) && Shape(v)
    requires TargetOf(v, q).Some? || !(StrandsAt(v, t, path) && v.kind.Fat16?)
    ensures Shape(Apply(v, MakeDir(path)).v)
    ensures TargetOf(v, q).Some? ==> TargetOf(Apply(v, MakeDir(path)).v, q) == TargetOf(v, q)
    ensures ReadPath(Apply(v, MakeDir(path)).v, q, max) == ReadPath(v, q, max)
  {
    hide *;
    var out, target := Apply(v, MakeDir(path)), TargetOf(v, path);
    var ch', t' := MkdirByPathStep(v, ch, t, path);
    LayoutIs(v, out.v);
    if target.Some? && target.value.0 in t.view {
      var d, name := target.value.0, target.value.1;
      StrandsAtIs(v, t, path);
      MkdirRoutes(v, ch, t, d, name, out, ch', t');
      TargetIs(v, ch, t, q);
      TargetIs(out.v, ch', t', q);
      ReadByTarget(v, q, max);
      ReadByTarget(out.v, q, max);
      if TargetOf(v, q).Some? {
        TargetKept(v.kind, t, t', v.rootHead, q);
        MkdirReads(v, ch, t, d, name, out, ch', t', TargetOf(v, q).value.0, TargetOf(v, q).value.1, max);
      } else {
        TargetFewer(v.kind, t, t', v.rootHead, q);
        if TargetOf(out.v, q).Some? {
          BarrenReadsNothing(out.v, ch', t', q, max);
        }
      }
    }
  }

  // ---------------------------------------------------------------- paths through a stranded record

  lemma {:induction false} SkipPrefix(path: string, i: nat, n: nat)
    requires i <= n <= |path|
    ensures SkipSlashes(path, i) <= n ==> SkipSlashes(path[..n], i) == SkipSlashes(path, i)
    ensures SkipSlashes(path, i) > n ==> SkipSlashes(path[..n], i) == n
    decreases n - i
  {
    if i < n && path[i] == '/' {
      SkipPrefix(path, i + 1, n);
    }
  }

  lemma {:induction false} EndPrefix(path: string, i: nat, n: nat)
    requires i <= n < |path| && path[n] == '/'
    ensures SegmentEnd(path, i) <= n && SegmentEnd(path[..n], i) == SegmentEnd(path, i)
    decreases n - i
  {
    if i < n && path[i] != '/' {
      EndPrefix(path, i + 1, n);
    }
  }

  lemma {:induction false} SkipWithin(path: string, i: nat, n: nat)
    requires i <= n < |path| && path[n] == '/' && (n + 1 < |path| ==> path[n + 1] != '/')
    ensures SkipSlashes(path, i) <= n || SkipSlashes(path, i) == n + 1
    decreases n - i
  {
    if i < n {
      SkipWithin(path, i + 1, n);
    }
  }

  /** The names of a path are the names before its last slash and the last name. */
  lemma {:induction false} SegmentsSplit(path: string, i: nat, n: nat)
    requires i <= n < |path| && path[n] == '/' && n + 1 < |path| && NoSlash(path[n + 1..])
    ensures Segments(path, i) == Segments(path[..n], i) + [path[n + 1..]]
    decreases n - i
  {
    assert path[n + 1..][0] == path[n + 1];
    SkipPrefix(path, i, n);
    SkipWithin(path, i, n);
    var start := SkipSlashes(path, i);
    if start > n {
      LastSegment(path, n + 1);
    } else {
      assert start < n;
      EndPrefix(path, start, n);
      var end := SegmentEnd(path, start);
      assert path[..n][start..end] == path[start..end];
      SegmentsSplit(path, end, n);
    }
  }

  lemma LastSegment(path: string, i: nat)
    requires i < |path| && NoSlash(path[i..])
    ensures SkipSlashes(path, i) == i && SegmentEnd(path, i) == |path| && Segments(path, i) == [path[i..]]
  {
    assert forall j :: i <= j < |path| ==> path[j] == path[i..][j - i];
    EndOfPath(path, i);
    assert SkipSlashes(path, |path|) == |path|;
    assert path[i..|path|] == path[i..];
  }

  lemma {:induction false} EndOfPath(path: string, i: nat)
    requires i <= |path| && forall j :: i <= j < |path| ==> path[j] != '/'
    ensures SegmentEnd(path, i) == |path|
    decreases |path| - i
  {
    if i < |path| {
      EndOfPath(path, i + 1);
    }
  }

  /** The names of a path that can be split. */
  lemma NamesOf(path: string)
    requires Split(path).Some? && Split(path).value.1 != ""
    ensures Segments(path, 0) == Split(path).value.0 + [Split(path).value.1]
  {
    hide Segments;
    var slash := LastIndex(path, '/', |path|);
    SplitIs(path);
    if slash >= 0 {
      assert NoSlash(path[slash + 1..]);
      SegmentsSplit(path, 0, slash);
    } else {
      assert NoSlash(path);
      PlainSegments(path);
    }
  }

  lemma JoinedSplit(path: string, leaf: string)
    requires NoSlash(leaf) && |path| <= MAX_PARENT && |leaf| <= MAX_LEAF
    ensures Split(path + "/" + leaf) == Some((Segments(path, 0), leaf))
    ensures Split(leaf) == Some(([], leaf))
  {
    hide Segments;
    JoinedSlash(path, leaf);
    SplitIs(path + "/" + leaf);
    LastSlash(leaf, |leaf|);
    assert leaf[..|leaf|] == leaf;
    SplitIs(leaf);
  }

  lemma PreparedIs(s: string)
    ensures PrepareName(s).Some? ==> ShortNameOf(s) == PrepareName(s) && 1 <= |s| <= 12
  {
    ShortNameLength(s);
  }

  lemma FitSplit(a: seq<string>, name: string)
    ensures AllFit(a + [name]) <==> AllFit(a) && Fits15(name)
  {
    assert (a + [name])[|a|] == name;
    assert forall i :: 0 <= i < |a| ==> (a + [name])[i] == a[i];
  }

  /** Where the names of the directory part and then `leaf` lead, on a tree. */
  lemma TargetBelow(kind: Kind, t: Tree, root: nat, path: string, leaf: string, d: nat, name: ShortName)
    requires TreeTarget(kind, t, root, path) == Some((d, name)) && AllFit(Segments(path, 0))
    requires NoSlash(leaf) && |path| <= MAX_PARENT && |leaf| <= MAX_LEAF
    ensures Split(path).Some? && ShortNameOf(Split(path).value.1) == Some(name)
    ensures TreeTarget(kind, t, root, path + "/" + leaf) ==
      var below := Child(kind, t, d, Split(path).value.1);
      if below.None? || PrepareName(leaf).None? then None else Some((below.value, PrepareName(leaf).value))
  {
    hide *;
    TreeTargetUnfold(kind, t, root, path);
    var dirs, last := Split(path).value.0, Split(path).value.1;
    PreparedIs(last);
    NamesOf(path);
    FitSplit(dirs, last);
    ReadableAll(dirs);
    ReadableAll(Segments(path, 0));
    JoinedSplit(path, leaf);
    TreeTargetUnfold(kind, t, root, path + "/" + leaf);
    ReachConcat(kind, t, root, dirs, [last]);
    ReachUnfold(kind, t, d, last, []);
    assert [last] + [] == [last];
    if Child(kind, t, d, last).Some? {
      ReachUnfold(kind, t, Child(kind, t, d, last).value, last, []);
    }
  }

  lemma RootTarget(kind: Kind, t: Tree, root: nat, leaf: string)
    requires NoSlash(leaf) && |leaf| <= MAX_LEAF
    ensures TreeTarget(kind, t, root, leaf) == if PrepareName(leaf).None? then None else Some((root, PrepareName(leaf).value))
  {
    hide *;
    JoinedSplit("", leaf);
    TreeTargetUnfold(kind, t, root, leaf);
    ReadableStops([]);
    ReachUnfold(kind, t, root, "", []);
  }

  /**
   After a mkdir that ran out of space, the path of the directory that was not made stands for
   the root on FAT16: a name below it, which read nothing before the call, reads what the same
   name in the root reads.  On FAT32 it reads nothing still.
   */
  lemma StrandedAliasesRoot(v: Volume, ch: Chains, t: Tree, path: string, leaf: string, max: nat)
    requires Inv(v, ch, t) && Shape(v) && StrandsAt(v, t, path) && AllFit(Segments(path, 0))
    requires NoSlash(leaf) && |path| <= MAX_PARENT && |leaf| <= MAX_LEAF
    ensures !Apply(v, MakeDir(path)).ok && Shape(Apply(v, MakeDir(path)).v)
    ensures ReadPath(v, path + "/" + leaf, max) == None
    ensures ReadPath(Apply(v, MakeDir(path)).v, path + "/" + leaf, max) == if v.kind.Fat16? then ReadPath(v, leaf, max) else None
  {
    hide *;
    var out := Apply(v, MakeDir(path));
    StrandsSome(v, t, path);
    var d, name := TargetOf(v, path).value.0, TargetOf(v, path).value.1;
    var ch', t' := MkdirByPathStep(v, ch, t, path);
    LayoutIs(v, out.v);
    MkdirDoneParts(v, ch, t, d, name, out, ch', t');
    NotBoth(v, t, d, name);
    MkdirRoutes(v, ch, t, d, name, out, ch', t');
    TargetIs(v, ch, t, path);
    TargetKept(v.kind, t, t', v.rootHead, path);
    TargetBelow(v.kind, t, v.rootHead, path, leaf, d, name);
    TargetBelow(v.kind, t', v.rootHead, path, leaf, d, name);
    var last := Split(path).value.1;
    NoChild(v.kind, t, d, name, last);
    StrandedChild(v.kind, t', d, name, last);
    RootTarget(v.kind, t, v.rootHead, leaf);
    KindRoot(v);
    var q := path + "/" + leaf;
    TargetIs(v, ch, t, q);
    TargetIs(out.v, ch', t', q);
    TargetIs(v, ch, t, leaf);
    ReadByTarget(v, q, max);
    ReadByTarget(out.v, q, max);
    ReadByTarget(v, leaf, max);
    if v.kind.Fat16? && PrepareName(leaf).Some? {
      RootIsLive(v, ch, t);
      LiveIs(v, t, 0);
      MkdirReads(v, ch, t, d, name, out, ch', t', 0, PrepareName(leaf).value, max);
    }
  }

  lemma StrandsSome(v: Volume, t: Tree, path: string)
    requires Shape(v) && StrandsAt(v, t, path)
    ensures TargetOf(v, path).Some? && Strands(v, t, TargetOf(v, path).value.0, TargetOf(v, path).value.1)
    ensures TargetOf(v, path).value.0 in t.view
  {
  }

  lemma NoChild(kind: Kind, t: Tree, d: nat, name: ShortName, text: string)
    requires ShortNameOf(text) == Some(name) && Lookup(t, d, name).None?
    ensures Child(kind, t, d, text) == None
  {
    hide ShortNameOf, Lookup;
  }

  // ---------------------------------------------------------------- a stranded record stays

  /** Directory `d` is live and holds a stranded record of that name. */
  ghost predicate HoldsStranded(v: Volume, ch: Chains, t: Tree, d: nat, name: ShortName) {
    Inv(v, ch, t) && d in t.view && Lookup(t, d, name) == Some(Stranded(name))
  }

  lemma HoldsIs(v: Volume, ch: Chains, t: Tree, d: nat, name: ShortName)
    ensures HoldsStranded(v, ch, t, d, name) <==> Inv(v, ch, t) && d in t.view && Lookup(t, d, name) == Some(Stranded(name))
  {
  }

  /** On FAT16 a stranded record cannot be removed; on FAT32 it can. */
  lemma StrandedRemove(v: Volume, ch: Chains, t: Tree, d: nat, name: ShortName)
    requires HoldsStranded(v, ch, t, d, name) && Nameable(name)
    ensures Shape(v) && (Remove(v, d, name).ok <==> v.kind.Fat32?)
    ensures v.kind.Fat16? ==> Remove(v, d, name) == Outcome(v, false)
  {
    hide *;
    HoldsIs(v, ch, t, d, name);
    StrandedEntry(name);
    RemoveOk(v, ch, t, d, name);
    RemovesIs(v, t, d, name, Stranded(name));
  }

  lemma WriteKeepsStranded(v: Volume, ch: Chains, t: Tree, d: nat, name: ShortName, e: nat, n: ShortName, mode: Mode, src: Source, out: Outcome, ch': Chains, t': Tree)
    requires HoldsStranded(v, ch, t, d, name) && WriteDone(v, ch, t, e, n, mode, src, out, ch', t')
    ensures HoldsStranded(out.v, ch', t', d, name)
  {
    hide *;
    HoldsIs(v, ch, t, d, name);
    HoldsIs(out.v, ch', t', d, name);
    WriteDoneParts(v, ch, t, e, n, mode, src, out, ch', t');
    if d != e || n != name {
      NamesAt(t, t', e, n, d, name);
    } else if WriteRefused(v, ch, t, e, n, src, out, ch', t') {
      RefusedSame(v, ch, t, e, n, src, out, ch', t');
    } else {
      ReachedFiles(v, ch, t, e, n, mode, src, out, ch', t');
      IsFileIs(t, d, name);
      StrandedEntry(name);
    }
  }

  lemma RemoveKeepsStranded(v: Volume, ch: Chains, t: Tree, d: nat, name: ShortName, e: nat, n: ShortName, out: Outcome, ch': Chains, t': Tree)
    requires HoldsStranded(v, ch, t, d, name) && Nameable(name) && v.kind.Fat16? && RemoveDone(v, ch, t, e, n, out, ch', t')
    ensures HoldsStranded(out.v, ch', t', d, name)
  {
    hide *;
    HoldsIs(v, ch, t, d, name);
    HoldsIs(out.v, ch', t', d, name);
    RemoveDoneParts(v, ch, t, e, n, out, ch', t');
    StrandedEntry(name);
    if !out.ok {
      FailedRemoveSame(v, ch, t, e, n, out, ch', t');
    } else {
      RemovesSome(v, t, e, n);
      RemovedDir(v, t, e, n, Lookup(t, e, n).value);
      if d !in t'.view {
        OnlyDotsLookup(v, ch, t, d, name);
      } else if d != e || n != name {
        NamesAt(t, t', e, n, d, name);
      } else {
        RemovesIs(v, t, d, name, Stranded(name));
      }
    }
  }

  lemma MkdirKeepsStranded(v: Volume, ch: Chains, t: Tree, d: nat, name: ShortName, e: nat, n: ShortName, out: Outcome, ch': Chains, t': Tree)
    requires HoldsStranded(v, ch, t, d, name) && MkdirDone(v, ch, t, e, n, out, ch', t')
    ensures HoldsStranded(out.v, ch', t', d, name)
  {
    hide *;
    HoldsIs(v, ch, t, d, name);
    HoldsIs(out.v, ch', t', d, name);
    MkdirDoneParts(v, ch, t, e, n, out, ch', t');
    NotBoth(v, t, e, n);
    if d != e || n != name {
      NamesAt(t, t', e, n, d, name);
    }
  }

  /** No operation, successful or failed, takes a stranded record away from a FAT16 volume. */
  lemma ApplyKeepsStranded(v: Volume, ch: Chains, t: Tree, d: nat, name: ShortName, op: Op) returns (ch': Chains, t': Tree)
    requires HoldsStranded(v, ch, t, d, name) && Nameable(name) && v.kind.Fat16? && Valid(op)
    ensures Shape(v) && Apply(v, op).v.kind.Fat16? && HoldsStranded(Apply(v, op).v, ch', t', d, name)
  {
    hide *;
    HoldsIs(v, ch, t, d, name);
    InvParts(v, ch, t);
    LiveTarget(v, ch, t, op);
    ByTarget(v, op, 0);
    ValidIs(op);
    ch', t' := ch, t;
    var out, target := Apply(v, op), TargetOf(v, op.path);
    if target.Some? && target.value.0 in t.view {
      var e, n := target.value.0, target.value.1;
      var mode := if op.WriteFile? then op.mode else ReplaceAll;
      var src := if op.WriteFile? then op.src else Null(0);
      OpLayout(v, e, n, mode, src);
      LayoutIs(v, out.v);
      if op.WriteFile? {
        ch', t' := WriteStep(v, ch, t, e, n, mode, src);
        WriteKeepsStranded(v, ch, t, d, name, e, n, mode, src, out, ch', t');
      } else if op.RemoveFile? {
        ch', t' := RemoveStep(v, ch, t, e, n);
        RemoveKeepsStranded(v, ch, t, d, name, e, n, out, ch', t');
      } else {
        ch', t' := MkdirStep(v, ch, t, e, n);
        MkdirKeepsStranded(v, ch, t, d, name, e, n, out, ch', t');
      }
    }
  }

  /** Over every run a stranded record stays on a FAT16 volume, and removing it is refused at the end. */
  lemma {:induction false} StrandedForever(v: Volume, ch: Chains, t: Tree, d: nat, name: ShortName, ops: seq<Op>, w: Volume) returns (ch': Chains, t': Tree)
    requires HoldsStranded(v, ch, t, d, name) && Nameable(name) && v.kind.Fat16? && Reached(v, ops, w)
    ensures HoldsStranded(w, ch', t', d, name)
    ensures Shape(w) && Remove(w, d, name) == Outcome(w, false)
    decreases |ops|
  {
    if ops == [] {
      ch', t' := ch, t;
      StrandedRemove(v, ch, t, d, name);
    } else {
      hide HoldsStranded, Apply, Remove;
      var ch1, t1 := ApplyKeepsStranded(v, ch, t, d, name, ops[0]);
      ch', t' := StrandedForever(Apply(v, ops[0]).v, ch1, t1, d, name, ops[1..], w);
    }
  }
}
