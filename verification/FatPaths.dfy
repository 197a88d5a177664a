/** Paths: segments, 8.3 names, and walking to a directory. */
module FatPaths {
  import opened Common
  import opened Bytes
  import opened FatTable
  import opened FatChains
  import opened FatSlots
  import opened FatStore
  import opened FatTree
  import opened FatOps
  import opened FatInvariant
  import opened FatSteps
  import opened FatFiles
  import opened FatDirs
  import opened FatWrites

  const BLANK: byte := 32

  // ---------------------------------------------------------------- 8.3 names

  function ToUpper(c: char): char {
    if 'a' <= c <= 'z' then (c as int - 32) as char else c
  }

  /** Letters, digits and three marks, after folding to upper case. */
  predicate IsValidChar(c: char) {
    'A' <= c <= 'Z' || '0' <= c <= '9' || c == '_' || c == '-' || c == '~'
  }

  predicate AllValid(s: string) {
    forall i :: 0 <= i < |s| ==> IsValidChar(ToUpper(s[i]))
  }

  /** A name part folded to upper case and padded with blanks. */
  function Padded(s: string, n: nat): (r: seq<byte>)
    requires |s| <= n && AllValid(s)
    ensures |r| == n
  {
    seq(n, i requires 0 <= i < n => if i < |s| then ToUpper(s[i]) as int else BLANK)
  }

  /** Index of the last occurrence of `c` before index `n`, or -1. */
  function LastIndex(s: string, c: char, n: nat): (r: int)
    requires n <= |s|
    ensures -1 <= r < n
    ensures r >= 0 ==> s[r] == c
    ensures forall i :: r < i < n ==> s[i] != c
  {
    if n == 0 then -1 else if s[n - 1] == c then n - 1 else LastIndex(s, c, n - 1)
  }

  /** The 8.3 name of a path segment, if it has one. */
  function ShortNameOf(segment: string): (r: Option<ShortName>)
    ensures r.Some? ==> Nameable(r.value)
  {
    var dot := LastIndex(segment, '.', |segment|);
    var base := if dot >= 0 then segment[..dot] else segment;
    var ext := if dot >= 0 then segment[dot + 1..] else [];
    if 1 <= |base| <= 8 && |ext| <= 3 && AllValid(base) && AllValid(ext) then
      var name := Padded(base, 8) + Padded(ext, 3);
      assert name[0] == ToUpper(base[0]) as int;
      Some(name)
    else None
  }

  // ---------------------------------------------------------------- segments

  datatype Segment = Done | Overlong | Segment(text: string, rest: nat)

  const MAX_SEGMENT: nat := 15

  function SkipSlashes(path: string, i: nat): (r: nat)
    requires i <= |path|
    ensures i <= r <= |path| && (r < |path| ==> path[r] != '/')
    decreases |path| - i
  {
    if i < |path| && path[i] == '/' then SkipSlashes(path, i + 1) else i
  }

  function SegmentEnd(path: string, i: nat): (r: nat)
    requires i <= |path|
    ensures i <= r <= |path| && (r < |path| ==> path[r] == '/')
    decreases |path| - i
  {
    if i < |path| && path[i] != '/' then SegmentEnd(path, i + 1) else i
  }

  /** The next segment at or after index `i`; segments beyond 15 characters do not fit. */
  function NextSegment(path: string, i: nat): (r: Segment)
    requires i <= |path|
    ensures r.Segment? ==> i < r.rest <= |path| && 1 <= |r.text| <= MAX_SEGMENT
  {
    var start := SkipSlashes(path, i);
    var end := SegmentEnd(path, start);
    if start == |path| then Done
    else if end - start > MAX_SEGMENT then Overlong
    else Segment(path[start..end], end)
  }

  // ---------------------------------------------------------------- resolving

  /** Walks from directory `current` along `path[i..]`; an overlong segment ends the walk there. */
  function WalkFrom(v: Volume, path: string, i: nat, current: nat): Option<nat>
    requires Shape(v) && i <= |path|
    decreases |path| - i
  {
    match NextSegment(path, i)
    case Segment(text, rest) =>
      (match ShortNameOf(text)
       case None => None
       case Some(name) =>
         var found := Locate(v, current, name);
         if found.None? then None
         else
           var s := Get(v.data, found.value);
           if !IsDirectory(Attr(s)) || (Head(s) == 0 && v.kind.Fat32?) then None
           else WalkFrom(v, path, rest, Head(s)))
    case _ => Some(current)
  }

  function ResolveDirectory(v: Volume, path: string): Option<nat>
    requires Shape(v)
  {
    WalkFrom(v, path, 0, v.rootHead)
  }

  const MAX_PARENT: nat := 127
  const MAX_LEAF: nat := 63

  datatype Target = Target(d: nat, leaf: string)

  /** The directory a path names its last part in, and that part. */
  function ResolveParent(v: Volume, path: string): Option<Target>
    requires Shape(v)
  {
    var slash := LastIndex(path, '/', |path|);
    if slash < 0 then
      if |path| > MAX_LEAF then None else Some(Target(v.rootHead, path))
    else if slash > MAX_PARENT then None
    else
      var d := ResolveDirectory(v, path[..slash]);
      var leaf := path[slash + 1..];
      if d.None? || |leaf| > MAX_LEAF then None else Some(Target(d.value, leaf))
  }

  /** Dots are let through here and judged by the 8.3 conversion. */
  predicate ValidSegment(s: string) {
    s != [] && forall i :: 0 <= i < |s| ==> s[i] == '.' || IsValidChar(ToUpper(s[i]))
  }

  function PrepareName(s: string): (r: Option<ShortName>)
    ensures r.Some? ==> Nameable(r.value)
  {
    if ValidSegment(s) then ShortNameOf(s) else None
  }

  // ---------------------------------------------------------------- where walks end

  /** A live directory, or a number no directory has. */
  ghost predicate LiveOrNone(v: Volume, t: Tree, d: nat) {
    d in t.view || d == 1
  }

  lemma RootIsLive(v: Volume, ch: Chains, t: Tree)
    requires Inv(v, ch, t)
    ensures v.rootHead in t.view
  {
  }

  lemma NoDirectoryOne(v: Volume, name: ShortName)
    requires Shape(v)
    ensures DirOf(v, 1) == [] && Locate(v, 1, name) == None
    ensures forall s :: Create(v, 1, s) == Taken(v, None)
  {
  }

  /** Following a directory record leads to a live directory. */
  lemma StepIsLive(v: Volume, ch: Chains, t: Tree, d: nat, name: ShortName)
    requires Inv(v, ch, t) && d in t.view && Nameable(name) && Locate(v, d, name).Some?
    ensures var s := Get(v.data, Locate(v, d, name).value);
      IsDirectory(Attr(s)) && (Head(s) == 0 ==> v.kind.Fat16?) ==> LiveOrNone(v, t, Head(s))
  {
    hide *;
    InvParts(v, ch, t);
    var r := LocateStep(v, ch, t, d, name);
    var loc := Locate(v, d, name).value;
    var s := Get(v.data, loc);
    StoredAtParts(v.data, ch, t, r, loc);
    MatchesIs(At(t, r), name);
    NotDot(v, ch, t, r, s, name);
    DecodeFields(s);
    OwnsHead(At(t, r));
    RootIsLive(v, ch, t);
    KindRoot(v);
    if Owns(At(t, r)) {
      OwnerHead(v, ch, t, r);
    }
    LiveIs(v, t, Head(s));
  }

  lemma KindRoot(v: Volume)
    requires Shape(v)
    ensures v.kind.Fat16? ==> v.rootHead == 0
  {
  }

  lemma LiveIs(v: Volume, t: Tree, d: nat)
    ensures LiveOrNone(v, t, d) <==> d in t.view || d == 1
  {
  }

  /** The directory one step of a walk moves to, if the walk moves. */
  function StepTo(v: Volume, path: string, i: nat, current: nat): Option<nat>
    requires Shape(v) && i <= |path|
  {
    var seg := NextSegment(path, i);
    if !seg.Segment? || ShortNameOf(seg.text).None? then None
    else
      var found := Locate(v, current, ShortNameOf(seg.text).value);
      if found.None? || !IsDirectory(Attr(Get(v.data, found.value))) || (Head(Get(v.data, found.value)) == 0 && v.kind.Fat32?) then None
      else Some(Head(Get(v.data, found.value)))
  }

  lemma WalkUnfold(v: Volume, path: string, i: nat, current: nat)
    requires Shape(v) && i <= |path|
    ensures !NextSegment(path, i).Segment? ==> WalkFrom(v, path, i, current) == Some(current)
    ensures NextSegment(path, i).Segment? && StepTo(v, path, i, current).None? ==> WalkFrom(v, path, i, current) == None
    ensures NextSegment(path, i).Segment? && StepTo(v, path, i, current).Some? ==>
      WalkFrom(v, path, i, current) == WalkFrom(v, path, NextSegment(path, i).rest, StepTo(v, path, i, current).value)
  {
    hide NextSegment, ShortNameOf, Locate, Get, Shape;
  }

  lemma StepToIsLive(v: Volume, ch: Chains, t: Tree, path: string, i: nat, current: nat)
    requires Inv(v, ch, t) && Shape(v) && i <= |path| && LiveOrNone(v, t, current)
    ensures StepTo(v, path, i, current).Some? ==> LiveOrNone(v, t, StepTo(v, path, i, current).value)
  {
    hide Inv, Shape, Locate, ShortNameOf, NextSegment, Get, IsDirectory, Attr, Head, Nameable;
    var seg := NextSegment(path, i);
    if seg.Segment? && ShortNameOf(seg.text).Some? {
      var name := ShortNameOf(seg.text).value;
      if current == 1 {
        NoDirectoryOne(v, name);
      } else if Locate(v, current, name).Some? {
        StepIsLive(v, ch, t, current, name);
      }
    }
  }

  lemma {:induction false} WalkIsLive(v: Volume, ch: Chains, t: Tree, path: string, i: nat, current: nat)
    requires Inv(v, ch, t) && Shape(v) && i <= |path| && LiveOrNone(v, t, current)
    ensures WalkFrom(v, path, i, current).Some? ==> LiveOrNone(v, t, WalkFrom(v, path, i, current).value)
    decreases |path| - i
  {
    hide *;
    WalkUnfold(v, path, i, current);
    StepToIsLive(v, ch, t, path, i, current);
    var seg := NextSegment(path, i);
    if seg.Segment? && StepTo(v, path, i, current).Some? {
      WalkIsLive(v, ch, t, path, seg.rest, StepTo(v, path, i, current).value);
    }
  }

  /** Every resolved path names its last part in a live directory. */
  lemma ParentIsLive(v: Volume, ch: Chains, t: Tree, path: string)
    requires Inv(v, ch, t) && Shape(v)
    ensures ResolveParent(v, path).Some? ==> LiveOrNone(v, t, ResolveParent(v, path).value.d)
  {
    RootIsLive(v, ch, t);
    hide Inv, Shape, WalkFrom;
    var slash := LastIndex(path, '/', |path|);
    if slash >= 0 {
      WalkIsLive(v, ch, t, path[..slash], 0, v.rootHead);
    }
  }

  lemma ParentIs(v: Volume, path: string)
    requires Shape(v)
    ensures var slash := LastIndex(path, '/', |path|);
      && -1 <= slash < |path|
      && (slash < 0 ==> ResolveParent(v, path) == if |path| > MAX_LEAF then None else Some(Target(v.rootHead, path)))
      && (slash > MAX_PARENT ==> ResolveParent(v, path) == None)
      && (0 <= slash <= MAX_PARENT ==>
        var d := ResolveDirectory(v, path[..slash]);
        ResolveParent(v, path) == if d.None? || |path[slash + 1..]| > MAX_LEAF then None else Some(Target(d.value, path[slash + 1..])))
  {
    hide LastIndex, ResolveDirectory;
  }

  /** Reading the file at a path. */
  function ReadPath(v: Volume, path: string, max: nat): Option<seq<byte>>
    requires Shape(v)
  {
    var target := ResolveParent(v, path);
    if target.None? || PrepareName(target.value.leaf).None? then None
    else Read(v, target.value.d, PrepareName(target.value.leaf).value, max)
  }

  lemma ReadPathIs(v: Volume, path: string, max: nat)
    requires Shape(v)
    ensures var target := ResolveParent(v, path);
      ReadPath(v, path, max) ==
        if target.None? || PrepareName(target.value.leaf).None? then None else Read(v, target.value.d, PrepareName(target.value.leaf).value, max)
  {
  }
}
