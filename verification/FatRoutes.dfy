/**
 Which directory a path leads to, told on the directory tree: the names of a path lead from
 directory to directory, and the walk follows them up to the first name that is too long.
 */
module FatRoutes {
  import opened Common
  import opened FatTable
  import opened FatChains
  import opened FatSlots
  import opened FatStore
  import opened FatTree
  import opened FatOps
  import opened FatInvariant
  import opened FatSteps
  import opened FatFiles
  import opened FatDirs
  import opened FatWrites
  import opened FatPaths

  // ---------------------------------------------------------------- the names of a path

  /** The names between the slashes of `path[i..]`, of any length; empty ones do not count. */
  function Segments(path: string, i: nat): seq<string>
    requires i <= |path|
    decreases |path| - i
  {
    var start := SkipSlashes(path, i);
    if start == |path| then []
    else [path[start..SegmentEnd(path, start)]] + Segments(path, SegmentEnd(path, start))
  }

  predicate Fits15(name: string) { |name| <= MAX_SEGMENT }

  /** No name is too long for the walk. */
  predicate AllFit(names: seq<string>) {
    forall i :: 0 <= i < |names| ==> Fits15(names[i])
  }

  /** The names before the first one that is too long. */
  function Readable(names: seq<string>): seq<string> {
    if names == [] || !Fits15(names[0]) then [] else [names[0]] + Readable(names[1..])
  }

  lemma SegmentsUnfold(path: string, i: nat)
    requires i <= |path|
    ensures NextSegment(path, i).Done? ==> Segments(path, i) == []
    ensures NextSegment(path, i).Overlong? ==> Segments(path, i) != [] && !Fits15(Segments(path, i)[0])
    ensures NextSegment(path, i).Segment? ==>
      && i < NextSegment(path, i).rest <= |path| && Fits15(NextSegment(path, i).text)
      && Segments(path, i) == [NextSegment(path, i).text] + Segments(path, NextSegment(path, i).rest)
  {
  }

  lemma ReadableUnfold(name: string, names: seq<string>)
    ensures Readable([]) == []
    ensures !Fits15(name) ==> Readable([name] + names) == []
    ensures Fits15(name) ==> Readable([name] + names) == [name] + Readable(names)
  {
    assert ([name] + names)[1..] == names;
  }

  lemma {:induction false} ReadableAll(names: seq<string>)
    ensures AllFit(names) <==> Readable(names) == names
  {
    if names != [] {
      ReadableAll(names[1..]);
      assert names == [names[0]] + names[1..];
      assert AllFit(names) <==> Fits15(names[0]) && AllFit(names[1..]);
    }
  }

  // ---------------------------------------------------------------- following names

  /** The directory that a name leads to from directory `d`; a record with head 0 leads to the fixed root. */
  ghost function Child(kind: Kind, t: Tree, d: nat, name: string): Option<nat> {
    if ShortNameOf(name).None? then None
    else
      var rec := Lookup(t, d, ShortNameOf(name).value);
      if rec.None? || !rec.value.Entry? || !rec.value.directory || (rec.value.head == 0 && kind.Fat32?) then None
      else Some(rec.value.head)
  }

  /** The directory that the names lead to, one after the other, from directory `d`. */
  ghost function Reach(kind: Kind, t: Tree, d: nat, names: seq<string>): Option<nat>
    decreases |names|
  {
    if names == [] then Some(d)
    else if Child(kind, t, d, names[0]).None? then None
    else Reach(kind, t, Child(kind, t, d, names[0]).value, names[1..])
  }

  lemma ReachUnfold(kind: Kind, t: Tree, d: nat, name: string, names: seq<string>)
    ensures Reach(kind, t, d, []) == Some(d)
    ensures Reach(kind, t, d, [name] + names) == if Child(kind, t, d, name).None? then None else Reach(kind, t, Child(kind, t, d, name).value, names)
  {
    assert ([name] + names)[1..] == names;
  }

  lemma {:induction false} ReachConcat(kind: Kind, t: Tree, d: nat, a: seq<string>, b: seq<string>)
    ensures Reach(kind, t, d, a + b) == if Reach(kind, t, d, a).None? then None else Reach(kind, t, Reach(kind, t, d, a).value, b)
    decreases |a|
  {
    if a == [] {
      assert a + b == b;
    } else {
      assert a == [a[0]] + a[1..];
      assert a + b == [a[0]] + (a[1..] + b);
      ReachUnfold(kind, t, d, a[0], a[1..]);
      ReachUnfold(kind, t, d, a[0], a[1..] + b);
      if Child(kind, t, d, a[0]).Some? {
        ReachConcat(kind, t, Child(kind, t, d, a[0]).value, a[1..], b);
      }
    }
  }

  lemma ShortNameLength(segment: string)
    ensures ShortNameOf(segment).Some? ==> 1 <= |segment| <= 12
  {
  }

  /** A name that is too long for the walk is too long for any record. */
  lemma {:induction false} ReachOverlong(kind: Kind, t: Tree, d: nat, names: seq<string>)
    ensures !AllFit(names) ==> Reach(kind, t, d, names) == None
    decreases |names|
  {
    if !AllFit(names) {
      ShortNameLength(names[0]);
      hide ShortNameOf;
      if Child(kind, t, d, names[0]).Some? {
        var i :| 0 <= i < |names| && !Fits15(names[i]);
        assert names[1..][i - 1] == names[i];
        ReachOverlong(kind, t, Child(kind, t, d, names[0]).value, names[1..]);
      }
    }
  }

  // ---------------------------------------------------------------- the walk

  lemma ChildIs(kind: Kind, t: Tree, d: nat, name: string)
    ensures ShortNameOf(name).None? ==> Child(kind, t, d, name) == None
    ensures ShortNameOf(name).Some? ==>
      var rec := Lookup(t, d, ShortNameOf(name).value);
      Child(kind, t, d, name) ==
        if rec.None? || !rec.value.Entry? || !rec.value.directory || (rec.value.head == 0 && kind.Fat32?) then None else Some(rec.value.head)
  {
    hide ShortNameOf, Lookup;
  }

  lemma NoViewOfOne(v: Volume, ch: Chains, t: Tree, name: ShortName)
    requires Inv(v, ch, t)
    ensures 1 !in t.view && Lookup(t, 1, name) == None
  {
  }

  lemma StepToIs(v: Volume, path: string, i: nat, current: nat)
    requires Shape(v) && i <= |path| && NextSegment(path, i).Segment?
    ensures var short := ShortNameOf(NextSegment(path, i).text);
      && (short.None? ==> StepTo(v, path, i, current) == None)
      && (short.Some? ==>
        var found := Locate(v, current, short.value);
        && (found.None? ==> StepTo(v, path, i, current) == None)
        && (found.Some? ==>
          var s := Get(v.data, found.value);
          StepTo(v, path, i, current) == if !IsDirectory(Attr(s)) || (Head(s) == 0 && v.kind.Fat32?) then None else Some(Head(s))))
  {
    hide Shape, Locate, ShortNameOf, NextSegment, Get, IsDirectory, Attr, Head;
  }

  /** A step of the walk follows the name. */
  lemma StepIsChild(v: Volume, ch: Chains, t: Tree, path: string, i: nat, current: nat)
    requires Inv(v, ch, t) && Shape(v) && i <= |path| && LiveOrNone(v, t, current) && NextSegment(path, i).Segment?
    ensures StepTo(v, path, i, current) == Child(v.kind, t, current, NextSegment(path, i).text)
  {
    hide *;
    var text := NextSegment(path, i).text;
    StepToIs(v, path, i, current);
    ChildIs(v.kind, t, current, text);
    LiveIs(v, t, current);
    if ShortNameOf(text).Some? {
      var name := ShortNameOf(text).value;
      if current == 1 {
        NoDirectoryOne(v, name);
        NoViewOfOne(v, ch, t, name);
      } else {
        var r := LocateStep(v, ch, t, current, name);
        if Locate(v, current, name).Some? {
          StoredAtParts(v.data, ch, t, r, Locate(v, current, name).value);
          MatchesIs(At(t, r), name);
          DecodeFields(Get(v.data, Locate(v, current, name).value));
        }
      }
    }
  }

  /** The walk reaches what the names before the first overlong one lead to. */
  lemma {:induction false} WalkIsReach(v: Volume, ch: Chains, t: Tree, path: string, i: nat, current: nat)
    requires Inv(v, ch, t) && Shape(v) && i <= |path| && LiveOrNone(v, t, current)
    ensures WalkFrom(v, path, i, current) == Reach(v.kind, t, current, Readable(Segments(path, i)))
    decreases |path| - i
  {
    hide *;
    WalkUnfold(v, path, i, current);
    SegmentsUnfold(path, i);
    var seg := NextSegment(path, i);
    if seg.Segment? {
      StepIsChild(v, ch, t, path, i, current);
      StepToIsLive(v, ch, t, path, i, current);
      var rest := Segments(path, seg.rest);
      ReadableUnfold(seg.text, rest);
      ReachUnfold(v.kind, t, current, seg.text, Readable(rest));
      if StepTo(v, path, i, current).Some? {
        WalkIsReach(v, ch, t, path, seg.rest, StepTo(v, path, i, current).value);
      }
    } else {
      ReadableStops(Segments(path, i));
      ReachUnfold(v.kind, t, current, "", []);
    }
  }

  lemma ReadableStops(names: seq<string>)
    requires names == [] || !Fits15(names[0])
    ensures Readable(names) == []
  {
  }

  /**
   The directory a path resolves to is the one its names lead to from the root, as far as the
   first name of more than 15 characters.
   */
  lemma DirectoryIsReach(v: Volume, ch: Chains, t: Tree, path: string)
    requires Inv(v, ch, t) && Shape(v)
    ensures ResolveDirectory(v, path) == Reach(v.kind, t, v.rootHead, Readable(Segments(path, 0)))
  {
    hide *;
    RootIsLive(v, ch, t);
    LiveIs(v, t, v.rootHead);
    WalkIsReach(v, ch, t, path, 0, v.rootHead);
    ResolveIs(v, path);
  }

  lemma ResolveIs(v: Volume, path: string)
    requires Shape(v)
    ensures ResolveDirectory(v, path) == WalkFrom(v, path, 0, v.rootHead)
  {
  }

  /** A resolved directory is the one the whole path names if and only if no name is too long. */
  lemma WholePathIff(v: Volume, ch: Chains, t: Tree, path: string, d: nat)
    requires Inv(v, ch, t) && Shape(v) && ResolveDirectory(v, path) == Some(d)
    ensures Reach(v.kind, t, v.rootHead, Segments(path, 0)) == Some(d) <==> AllFit(Segments(path, 0))
  {
    hide *;
    DirectoryIsReach(v, ch, t, path);
    ReadableAll(Segments(path, 0));
    ReachOverlong(v.kind, t, v.rootHead, Segments(path, 0));
  }

  // ---------------------------------------------------------------- slashes

  predicate NoSlash(s: string) {
    forall i :: 0 <= i < |s| ==> s[i] != '/'
  }

  lemma {:induction false} LastSlash(path: string, n: nat)
    requires n <= |path|
    ensures NoSlash(path[..n]) <==> LastIndex(path, '/', n) == -1
  {
  }

  /** The path of a leaf in a directory. */
  lemma JoinedSlash(dir: string, leaf: string)
    requires NoSlash(leaf)
    ensures var path := dir + "/" + leaf;
      && LastIndex(path, '/', |path|) == |dir|
      && path[..|dir|] == dir && path[|dir| + 1..] == leaf
  {
    var path := dir + "/" + leaf;
    assert path[|dir|] == '/';
    assert forall i :: |dir| < i < |path| ==> path[i] == leaf[i - |dir| - 1];
  }

  lemma {:induction false} SegmentEndAll(path: string, i: nat)
    requires i <= |path| && NoSlash(path)
    ensures SegmentEnd(path, i) == |path| && SkipSlashes(path, i) == i
    decreases |path| - i
  {
    if i < |path| {
      SegmentEndAll(path, i + 1);
    }
  }

  lemma PlainSegments(name: string)
    requires NoSlash(name)
    ensures Segments(name, 0) == if name == "" then [] else [name]
  {
    SegmentEndAll(name, 0);
    SegmentEndAll(name, |name|);
    assert name[0..|name|] == name;
  }

  /**
   A directory part that is one name of more than 15 characters is passed over: the path stands
   for its last name in the root.
   */
  lemma OverlongDirectoryIsRoot(v: Volume, dir: string, leaf: string)
    requires Shape(v) && NoSlash(dir) && NoSlash(leaf) && MAX_SEGMENT < |dir| <= MAX_PARENT && |leaf| <= MAX_LEAF
    ensures ResolveParent(v, dir + "/" + leaf) == ResolveParent(v, leaf) == Some(Target(v.rootHead, leaf))
  {
    hide Shape, WalkFrom, LastIndex;
    JoinedSlash(dir, leaf);
    LastSlash(leaf, |leaf|);
    assert leaf[..|leaf|] == leaf;
    PlainSegments(dir);
    SegmentsUnfold(dir, 0);
    WalkUnfold(v, dir, 0, v.rootHead);
  }

  // ---------------------------------------------------------------- the target of a path

  /** The directory and the 8.3 name that a path stands for. */
  function TargetOf(v: Volume, path: string): Option<(nat, ShortName)>
    requires Shape(v)
  {
    var target := ResolveParent(v, path);
    if target.None? || PrepareName(target.value.leaf).None? then None
    else Some((target.value.d, PrepareName(target.value.leaf).value))
  }

  /** The last name of a path and the names before it; none if a part exceeds its buffer. */
  function Split(path: string): Option<(seq<string>, string)> {
    var slash := LastIndex(path, '/', |path|);
    var leaf := path[slash + 1..];
    if slash > MAX_PARENT || |leaf| > MAX_LEAF then None
    else Some((if slash < 0 then [] else Segments(path[..slash], 0), leaf))
  }

  /** The target of a path on the tree. */
  ghost function TreeTarget(kind: Kind, t: Tree, root: nat, path: string): Option<(nat, ShortName)> {
    if Split(path).None? || PrepareName(Split(path).value.1).None? then None
    else
      var d := Reach(kind, t, root, Readable(Split(path).value.0));
      if d.None? then None else Some((d.value, PrepareName(Split(path).value.1).value))
  }

  lemma ParentIsReach(v: Volume, ch: Chains, t: Tree, path: string)
    requires Inv(v, ch, t) && Shape(v)
    ensures Split(path).None? ==> ResolveParent(v, path) == None
    ensures Split(path).Some? ==>
      var d := Reach(v.kind, t, v.rootHead, Readable(Split(path).value.0));
      ResolveParent(v, path) == if d.None? then None else Some(Target(d.value, Split(path).value.1))
  {
    hide *;
    var slash := LastIndex(path, '/', |path|);
    ParentIs(v, path);
    SplitIs(path);
    ReadableStops([]);
    ReachUnfold(v.kind, t, v.rootHead, "", []);
    LimitsAre();
    if slash >= 0 {
      DirectoryIsReach(v, ch, t, path[..slash]);
    }
  }

  lemma LimitsAre()
    ensures MAX_PARENT == 127 && MAX_LEAF == 63
  {
  }

  lemma SplitIs(path: string)
    ensures var slash := LastIndex(path, '/', |path|);
      && -1 <= slash < |path|
      && (slash < 0 ==> Split(path) == if |path| > MAX_LEAF then None else Some(([], path)))
      && (slash > MAX_PARENT ==> Split(path) == None)
      && (0 <= slash <= MAX_PARENT ==> Split(path) == if |path[slash + 1..]| > MAX_LEAF then None else Some((Segments(path[..slash], 0), path[slash + 1..])))
  {
    hide LastIndex, Segments;
  }

  /** A path stands for what its names lead to on the tree, and that directory is live. */
  lemma TargetIs(v: Volume, ch: Chains, t: Tree, path: string)
    requires Inv(v, ch, t)
    ensures Shape(v) && TargetOf(v, path) == TreeTarget(v.kind, t, v.rootHead, path)
    ensures TargetOf(v, path).Some? ==> LiveOrNone(v, t, TargetOf(v, path).value.0) && Nameable(TargetOf(v, path).value.1)
  {
    hide *;
    InvParts(v, ch, t);
    ParentIsReach(v, ch, t, path);
    ParentIsLive(v, ch, t, path);
    TargetUnfold(v, path);
    TreeTargetUnfold(v.kind, t, v.rootHead, path);
  }

  lemma TargetUnfold(v: Volume, path: string)
    requires Shape(v)
    ensures var target := ResolveParent(v, path);
      TargetOf(v, path) == if target.None? || PrepareName(target.value.leaf).None? then None else Some((target.value.d, PrepareName(target.value.leaf).value))
  {
  }

  lemma TreeTargetUnfold(kind: Kind, t: Tree, root: nat, path: string)
    ensures Split(path).None? ==> TreeTarget(kind, t, root, path) == None
    ensures Split(path).Some? ==>
      var d, name := Reach(kind, t, root, Readable(Split(path).value.0)), PrepareName(Split(path).value.1);
      TreeTarget(kind, t, root, path) == if d.None? || name.None? then None else Some((d.value, name.value))
  {
    hide Split, Reach, Readable, PrepareName;
  }

  // ---------------------------------------------------------------- paths after a change

  /** Every name leads to the same directory in both trees. */
  ghost predicate SameRoutes(kind: Kind, t: Tree, t': Tree) {
    forall d, name :: Child(kind, t', d, name) == Child(kind, t, d, name)
  }

  lemma {:induction false} ReachSame(kind: Kind, t: Tree, t': Tree, d: nat, names: seq<string>)
    requires SameRoutes(kind, t, t')
    ensures Reach(kind, t', d, names) == Reach(kind, t, d, names)
    decreases |names|
  {
    hide Child;
    if names != [] && Child(kind, t, d, names[0]).Some? {
      ReachSame(kind, t, t', Child(kind, t, d, names[0]).value, names[1..]);
    }
  }

  lemma TargetSame(kind: Kind, t: Tree, t': Tree, root: nat, path: string)
    requires SameRoutes(kind, t, t')
    ensures TreeTarget(kind, t', root, path) == TreeTarget(kind, t, root, path)
  {
    hide *;
    TreeTargetUnfold(kind, t, root, path);
    TreeTargetUnfold(kind, t', root, path);
    if Split(path).Some? {
      ReachSame(kind, t, t', root, Readable(Split(path).value.0));
    }
  }

  /** Names that lead somewhere lead there still. */
  ghost predicate RoutesKept(kind: Kind, t: Tree, t': Tree) {
    forall d, name :: Child(kind, t, d, name).Some? ==> Child(kind, t', d, name) == Child(kind, t, d, name)
  }

  lemma {:induction false} ReachKept(kind: Kind, t: Tree, t': Tree, d: nat, names: seq<string>)
    requires RoutesKept(kind, t, t') && Reach(kind, t, d, names).Some?
    ensures Reach(kind, t', d, names) == Reach(kind, t, d, names)
    decreases |names|
  {
    hide Child;
    if names != [] {
      assert Child(kind, t, d, names[0]).Some?;
      ReachKept(kind, t, t', Child(kind, t, d, names[0]).value, names[1..]);
    }
  }

  lemma TargetKept(kind: Kind, t: Tree, t': Tree, root: nat, path: string)
    requires RoutesKept(kind, t, t') && TreeTarget(kind, t, root, path).Some?
    ensures TreeTarget(kind, t', root, path) == TreeTarget(kind, t, root, path)
  {
    hide *;
    TreeTargetUnfold(kind, t, root, path);
    TreeTargetUnfold(kind, t', root, path);
    ReachKept(kind, t, t', root, Readable(Split(path).value.0));
  }
}
