/**
 Reading and writing by path, as callers do it: what a path reads, which paths a write leads
 elsewhere (none), and what every path reads after it.
 */
module FatPathTheorems {
  import opened Common
  import Arith
  import opened Bytes
  import opened FatTable
  import opened FatChains
  import opened FatSlots
  import opened FatStore
  import opened FatTree
  import opened FatOps
  import opened FatInvariant
  import opened FatSteps
  import opened FatFiles
  import opened FatAppendExact
  import opened FatDirs
  import opened FatWrites
  import opened FatPaths
  import opened FatRoutes
  import opened FatTheorems

  // ---------------------------------------------------------------- the layout stays

  predicate SameLayout(v: Volume, w: Volume) {
    w.kind == v.kind && w.rootHead == v.rootHead && w.csize == v.csize
  }

  lemma CreateLayout(v: Volume, d: nat, s: Slot)
    requires Shape(v)
    ensures SameLayout(v, Create(v, d, s).v)
  {
    hide Shape, DirChain, Records, Room, FreeList, Attach, LocOf, IsLoc, Put;
  }

  lemma AppendLayout(v: Volume, loc: Loc, s: Slot, last: nat, offset: nat, bytes: seq<byte>)
    requires offset < v.csize
    ensures SameLayout(v, AppendTail(v, loc, s, last, offset, bytes).v)
  {
    hide FreeList, Attach, IsLoc, Put, Fill, Overwrite, Clusters;
  }

  lemma StoreLayout(v: Volume, loc: Loc, s: Slot, mode: Mode, src: Source)
    requires 0 < v.csize
    ensures SameLayout(v, Store(v, loc, s, mode, src).v)
  {
    hide FreeList, Attach, Link, IsLoc, Put, Fill, Overwrite, Clusters, AppendTail, Release, ChainOf;
    var bytes := if src.Null? then [] else src.bytes;
    if Head(s) >= 2 {
      var chain := ChainOf(v.kind, v.fat, Head(s));
      if chain != [] {
        AppendLayout(v, loc, s, Last(chain), Arith.Rem(Size(s), v.csize), bytes);
      }
    } else if FreeList(v.fat) != [] {
      var c := FreeList(v.fat)[0];
      var s1 := WithSize(WithHead(s, c), 0);
      AppendLayout(Adopt(FillIn(v, [c], []), [c], loc, s1), loc, s1, c, 0, bytes);
    }
  }

  lemma OpLayout(v: Volume, d: nat, name: ShortName, mode: Mode, src: Source)
    requires Shape(v)
    ensures SameLayout(v, Write(v, d, name, mode, src).v) && SameLayout(v, Remove(v, d, name).v) && SameLayout(v, Mkdir(v, d, name).v)
  {
    var s := Fresh(name, ATTR_FILE);
    CreateLayout(v, d, s);
    CreateLayout(v, d, Fresh(name, ATTR_DIRECTORY));
    var found, made := Locate(v, d, name), Create(v, d, s);
    if found.Some? {
      StoreLayout(v, found.value, Get(v.data, found.value), mode, src);
    } else if made.loc.Some? {
      StoreLayout(made.v, made.loc.value, s, mode, src);
    }
    hide Create, Store, Locate, Get, Find, DirOf, FreeList, Link, IsLoc, Put, Fill, Release, ChainOf, Records, VacantFrom, Fresh, DotBlock;
  }

  // ---------------------------------------------------------------- operations by target

  lemma ByTarget(v: Volume, op: Op, max: nat)
    requires Shape(v)
    ensures var target := TargetOf(v, op.path);
      && (target.None? ==> Apply(v, op) == Outcome(v, false) && ReadPath(v, op.path, max) == None)
      && (target.Some? ==>
        var d, name := target.value.0, target.value.1;
        && Apply(v, op) == (if op.WriteFile? then Write(v, d, name, op.mode, op.src) else if op.RemoveFile? then Remove(v, d, name) else Mkdir(v, d, name))
        && ReadPath(v, op.path, max) == Read(v, d, name, max))
  {
    hide *;
    TargetUnfold(v, op.path);
    ApplyUnfold(v, op);
    ReadPathIs(v, op.path, max);
  }

  lemma ReadByTarget(v: Volume, path: string, max: nat)
    requires Shape(v)
    ensures var target := TargetOf(v, path);
      ReadPath(v, path, max) == if target.None? then None else Read(v, target.value.0, target.value.1, max)
  {
    hide *;
    TargetUnfold(v, path);
    ReadPathIs(v, path, max);
  }

  /** The operation's directory is live if it succeeds or changes anything. */
  lemma LiveTarget(v: Volume, ch: Chains, t: Tree, op: Op)
    requires Inv(v, ch, t)
    ensures Shape(v)
    ensures TargetOf(v, op.path).None? || TargetOf(v, op.path).value.0 !in t.view ==> Apply(v, op) == Outcome(v, false)
    ensures TargetOf(v, op.path).Some? ==> Nameable(TargetOf(v, op.path).value.1)
  {
    hide *;
    InvParts(v, ch, t);
    TargetIs(v, ch, t, op.path);
    ByTarget(v, op, 0);
    var target := TargetOf(v, op.path);
    if target.Some? {
      LiveIs(v, t, target.value.0);
      if target.value.0 !in t.view {
        var mode := if op.WriteFile? then op.mode else ReplaceAll;
        var src := if op.WriteFile? then op.src else Null(0);
        NoOpOnOne(v, target.value.1, mode, src);
      }
    }
  }

  /** Nothing to read where no name leads to a file. */
  lemma ReadNothing(v: Volume, ch: Chains, t: Tree, e: nat, n: ShortName, max: nat)
    requires Inv(v, ch, t) && Nameable(n) && LiveOrNone(v, t, e)
    requires max == 0 || Lookup(t, e, n).None? || (Lookup(t, e, n).value.Entry? && Lookup(t, e, n).value.directory)
    ensures Shape(v) && Read(v, e, n, max) == None
  {
    hide *;
    InvParts(v, ch, t);
    LiveIs(v, t, e);
    ReadUnfold(v, e, n, max);
    if e == 1 {
      NoDirectoryOne(v, n);
    } else if max > 0 {
      ReadIsContents(v, ch, t, e, n, max);
    }
  }

  /** A name an operation does not speak of reads the same, in every directory that stays. */
  lemma ElsewhereSame(v: Volume, ch: Chains, t: Tree, v': Volume, ch': Chains, t': Tree, d: nat, name: ShortName, h: nat, e: nat, n: ShortName, max: nat)
    requires Inv(v, ch, t) && Inv(v', ch', t') && NamesKept(t, t', d, name) && OthersSame(v, ch, v', ch', t, h)
    requires d in t.view && Nameable(name) && Nameable(n) && (e != d || n != name)
    requires h == 0 || h == HeadOf(t, d, name)
    requires LiveOrNone(v, t, e) && LiveOrNone(v', t', e)
    ensures Shape(v) && Shape(v') && Read(v', e, n, max) == Read(v, e, n, max)
  {
    hide *;
    InvParts(v, ch, t);
    InvParts(v', ch', t');
    LiveIs(v, t, e);
    LiveIs(v', t', e);
    if e == 1 || max == 0 {
      NoViewOfOne(v, ch, t, n);
      NoViewOfOne(v', ch', t', n);
      ReadNothing(v, ch, t, e, n, max);
      ReadNothing(v', ch', t', e, n, max);
    } else {
      OtherReadsSame(v, ch, t, v', ch', t', d, name, h, e, n, max);
    }
  }

  /** Reading a path gives the contents of the file that its names lead to, and nothing else gives anything. */
  lemma PathReadsContents(v: Volume, ch: Chains, t: Tree, path: string, max: nat)
    requires Inv(v, ch, t) && max > 0
    ensures Shape(v)
    ensures var target := TreeTarget(v.kind, t, v.rootHead, path);
      ReadPath(v, path, max) ==
        if target.Some? && IsFile(t, target.value.0, target.value.1)
        then Some(Clip(Contents(v, ch, Lookup(t, target.value.0, target.value.1).value), max)) else None
  {
    hide *;
    InvParts(v, ch, t);
    TargetIs(v, ch, t, path);
    ReadByTarget(v, path, max);
    var target := TargetOf(v, path);
    if target.Some? {
      var d, name := target.value.0, target.value.1;
      IsFileIs(t, d, name);
      LiveIs(v, t, d);
      if d == 1 {
        NoViewOfOne(v, ch, t, name);
        ReadNothing(v, ch, t, d, name, max);
      } else {
        ReadIsContents(v, ch, t, d, name, max);
      }
    }
  }

  // ---------------------------------------------------------------- writing

  lemma NoLookup(t: Tree, d: nat, name: ShortName)
    requires d !in t.view
    ensures Lookup(t, d, name) == None
  {
  }

  lemma NotADirectory(kind: Kind, t: Tree, d: nat, name: ShortName, text: string)
    requires ShortNameOf(text) == Some(name) && (Lookup(t, d, name).Some? ==> IsFile(t, d, name))
    ensures Child(kind, t, d, text) == None
  {
    hide ShortNameOf, Lookup;
  }

  /** A write leads no name to another directory. */
  lemma WriteRoute(kind: Kind, v: Volume, ch: Chains, t: Tree, d: nat, name: ShortName, mode: Mode, src: Source, out: Outcome, ch': Chains, t': Tree, e: nat, text: string)
    requires WriteDone(v, ch, t, d, name, mode, src, out, ch', t')
    ensures Child(kind, t', e, text) == Child(kind, t, e, text)
  {
    hide *;
    WriteDoneParts(v, ch, t, d, name, mode, src, out, ch', t');
    ChildIs(kind, t, e, text);
    ChildIs(kind, t', e, text);
    if ShortNameOf(text).Some? {
      var n := ShortNameOf(text).value;
      if e !in t.view {
        NoLookup(t, e, n);
        NoLookup(t', e, n);
      } else if e != d || n != name {
        NamesAt(t, t', d, name, e, n);
      } else if WriteRefused(v, ch, t, d, name, src, out, ch', t') {
        RefusedSame(v, ch, t, d, name, src, out, ch', t');
      } else {
        ReachedFiles(v, ch, t, d, name, mode, src, out, ch', t');
        NotADirectory(kind, t, d, name, text);
        NotADirectory(kind, t', d, name, text);
      }
    }
  }

  lemma RefusedSame(v: Volume, ch: Chains, t: Tree, d: nat, name: ShortName, src: Source, out: Outcome, ch': Chains, t': Tree)
    requires WriteRefused(v, ch, t, d, name, src, out, ch', t')
    ensures out == Outcome(v, false) && ch' == ch && t' == t
  {
  }

  lemma ReachedFiles(v: Volume, ch: Chains, t: Tree, d: nat, name: ShortName, mode: Mode, src: Source, out: Outcome, ch': Chains, t': Tree)
    requires WriteReached(v, ch, t, d, name, mode, src, out, ch', t')
    ensures (Lookup(t, d, name).Some? ==> IsFile(t, d, name)) && IsFile(t', d, name)
  {
  }

  lemma RoutesIntro(kind: Kind, t: Tree, t': Tree)
    requires forall d, name :: Child(kind, t', d, name) == Child(kind, t, d, name)
    ensures SameRoutes(kind, t, t')
  {
  }

  lemma LayoutIs(v: Volume, w: Volume)
    requires SameLayout(v, w)
    ensures w.kind == v.kind && w.rootHead == v.rootHead && w.csize == v.csize
  {
  }

  /** The write step by path: what it guarantees, and that every path leads where it led. */
  lemma WriteByPath(v: Volume, ch: Chains, t: Tree, path: string, mode: Mode, src: Source) returns (ch': Chains, t': Tree)
    requires Inv(v, ch, t) && Sized(src)
    ensures Shape(v)
    ensures var out, target := Apply(v, WriteFile(path, mode, src)), TargetOf(v, path);
      && Inv(out.v, ch', t') && Shape(out.v) && SameRoutes(v.kind, t, t') && t'.view.Keys == t.view.Keys
      && out.v.kind == v.kind && out.v.rootHead == v.rootHead
      && (target.Some? && target.value.0 in t.view ==>
        out == Write(v, target.value.0, target.value.1, mode, src)
        && WriteDone(v, ch, t, target.value.0, target.value.1, mode, src, out, ch', t'))
      && (target.None? || target.value.0 !in t.view ==> out == Outcome(v, false) && ch' == ch && t' == t)
  {
    hide *;
    InvParts(v, ch, t);
    var op := WriteFile(path, mode, src);
    var out, target := Apply(v, op), TargetOf(v, path);
    LiveTarget(v, ch, t, op);
    ByTarget(v, op, 0);
    ch', t' := ch, t;
    if target.Some? && target.value.0 in t.view {
      var d, name := target.value.0, target.value.1;
      ch', t' := WriteStep(v, ch, t, d, name, mode, src);
      WriteDoneParts(v, ch, t, d, name, mode, src, out, ch', t');
      OpLayout(v, d, name, mode, src);
      LayoutIs(v, out.v);
      forall e, text
        ensures Child(v.kind, t', e, text) == Child(v.kind, t, e, text)
      {
        WriteRoute(v.kind, v, ch, t, d, name, mode, src, out, ch', t', e, text);
      }
    }
    RoutesIntro(v.kind, t, t');
    InvParts(out.v, ch', t');
  }

  /** No write, successful or not, makes a path stand for anything else. */
  lemma WriteKeepsTargets(v: Volume, path: string, mode: Mode, src: Source, q: string)
    requires Consistent(v) && Sized(src)
    ensures Shape(v) && Shape(Apply(v, WriteFile(path, mode, src)).v)
    ensures TargetOf(Apply(v, WriteFile(path, mode, src)).v, q) == TargetOf(v, q)
  {
    hide *;
    var ch, t := Witnesses(v);
    var ch', t' := WriteByPath(v, ch, t, path, mode, src);
    SamePath(v, ch, t, Apply(v, WriteFile(path, mode, src)).v, ch', t', q);
  }

  lemma SamePath(v: Volume, ch: Chains, t: Tree, v': Volume, ch': Chains, t': Tree, q: string)
    requires Inv(v, ch, t) && Inv(v', ch', t') && SameRoutes(v.kind, t, t') && v'.kind == v.kind && v'.rootHead == v.rootHead
    ensures Shape(v) && Shape(v') && TargetOf(v', q) == TargetOf(v, q)
    ensures TargetOf(v, q).Some? ==>
      var e := TargetOf(v, q).value.0;
      LiveOrNone(v, t, e) && LiveOrNone(v', t', e) && Nameable(TargetOf(v, q).value.1)
  {
    hide *;
    TargetIs(v, ch, t, q);
    TargetIs(v', ch', t', q);
    TargetSame(v.kind, t, t', v.rootHead, q);
  }

  /**
   Isolation: a write, successful or not, leaves what every path reads that stands for
   something else.
   */
  lemma WriteIsolated(v: Volume, path: string, mode: Mode, src: Source, q: string, max: nat)
    requires Consistent(v) && Sized(src) && Shape(v) && TargetOf(v, q) != TargetOf(v, path)
    ensures Shape(Apply(v, WriteFile(path, mode, src)).v)
    ensures ReadPath(Apply(v, WriteFile(path, mode, src)).v, q, max) == ReadPath(v, q, max)
  {
    hide *;
    var ch, t := Witnesses(v);
    var ch', t' := WriteByPath(v, ch, t, path, mode, src);
    var out, target := Apply(v, WriteFile(path, mode, src)), TargetOf(v, path);
    SamePath(v, ch, t, out.v, ch', t', q);
    ReadByTarget(v, q, max);
    ReadByTarget(out.v, q, max);
    if target.Some? && target.value.0 in t.view && TargetOf(v, q).Some? {
      var d, name := target.value.0, target.value.1;
      var e, n := TargetOf(v, q).value.0, TargetOf(v, q).value.1;
      LiveTarget(v, ch, t, WriteFile(path, mode, src));
      WriteDoneParts(v, ch, t, d, name, mode, src, out, ch', t');
      ElsewhereSame(v, ch, t, out.v, ch', t', d, name, HeadOf(t, d, name), e, n, max);
    }
  }

  /**
   Read-after-write by path: after a successful replace, every path that stands for the written
   file reads exactly the bytes written, and every other path what it read before.
   */
  lemma ReadAfterWriteByPath(v: Volume, path: string, src: Source, q: string, max: nat)
    requires Consistent(v) && Sized(src) && Shape(v) && Apply(v, WriteFile(path, ReplaceAll, src)).ok
    requires max > 0 && |BytesOf(src)| <= max
    ensures Shape(Apply(v, WriteFile(path, ReplaceAll, src)).v)
    ensures ReadPath(Apply(v, WriteFile(path, ReplaceAll, src)).v, q, max) ==
      if TargetOf(v, q) == TargetOf(v, path) then Some(BytesOf(src)) else ReadPath(v, q, max)
  {
    hide *;
    var op := WriteFile(path, ReplaceAll, src);
    var ch, t := Witnesses(v);
    WriteKeepsTargets(v, path, ReplaceAll, src, q);
    if TargetOf(v, q) == TargetOf(v, path) {
      LiveTarget(v, ch, t, op);
      ByTarget(v, op, max);
      ReadByTarget(Apply(v, op).v, q, max);
      ReadAfterWrite(v, ch, t, TargetOf(v, path).value.0, TargetOf(v, path).value.1, src, max);
    } else {
      WriteIsolated(v, path, ReplaceAll, src, q, max);
    }
  }

  /** A replace that fails on a file it could reach leaves its path reading nothing, not the old bytes. */
  lemma FailedReplaceByPath(v: Volume, path: string, src: Source, max: nat)
    requires Consistent(v) && Sized(src) && Given(src) && Shape(v) && !Apply(v, WriteFile(path, ReplaceAll, src)).ok
    requires max > 0 && ReadPath(v, path, max).Some?
    ensures Shape(Apply(v, WriteFile(path, ReplaceAll, src)).v)
    ensures ReadPath(Apply(v, WriteFile(path, ReplaceAll, src)).v, path, max) == Some([])
  {
    hide *;
    var op := WriteFile(path, ReplaceAll, src);
    var ch, t := Witnesses(v);
    WriteKeepsTargets(v, path, ReplaceAll, src, path);
    ByTarget(v, op, max);
    ReadByTarget(Apply(v, op).v, path, max);
    TargetIs(v, ch, t, path);
    var d, name := TargetOf(v, path).value.0, TargetOf(v, path).value.1;
    ReadableIsFile(v, ch, t, d, name, max);
    FailedReplaceEmpties(v, ch, t, d, name, src, max);
  }

  /** What can be read is a file in a live directory. */
  lemma ReadableIsFile(v: Volume, ch: Chains, t: Tree, d: nat, name: ShortName, max: nat)
    requires Inv(v, ch, t) && LiveOrNone(v, t, d) && Nameable(name) && Shape(v) && Read(v, d, name, max).Some?
    ensures d in t.view && IsFile(t, d, name) && max > 0
  {
    hide *;
    LiveIs(v, t, d);
    ReadUnfold(v, d, name, max);
    if d == 1 {
      NoDirectoryOne(v, name);
    } else {
      ReadIsContents(v, ch, t, d, name, max);
      IsFileIs(t, d, name);
    }
  }

  lemma IsFileIs(t: Tree, d: nat, name: ShortName)
    ensures IsFile(t, d, name) <==> Lookup(t, d, name).Some? && Lookup(t, d, name).value.Entry? && !Lookup(t, d, name).value.directory
  {
  }

  /** The record that a path stands for, as a write finds it. */
  ghost function RecordAt(v: Volume, t: Tree, path: string): (r: Record)
    requires Shape(v)
    ensures r.Entry?
  {
    if TargetOf(v, path).None? then Entry(Zeros(11), false, false, 0, 0)
    else Before(t, TargetOf(v, path).value.0, TargetOf(v, path).value.1)
  }

  lemma RecordAtIs(v: Volume, t: Tree, path: string)
    requires Shape(v) && TargetOf(v, path).Some?
    ensures RecordAt(v, t, path) == Before(t, TargetOf(v, path).value.0, TargetOf(v, path).value.1)
  {
  }

  /**
   Append by path, exactly: after a successful append the path reads the old bytes followed by
   the new ones if and only if the data lands behind them; for a file with just the clusters it
   needs, if and only if the file was empty or ended inside a cluster, or nothing was appended.
   */
  lemma AppendByPath(v: Volume, ch: Chains, t: Tree, path: string, src: Source, max: nat)
    requires Inv(v, ch, t) && Sized(src) && Shape(v) && Apply(v, WriteFile(path, AppendTo, src)).ok
    requires RecordAt(v, t, path).size + |BytesOf(src)| < 0x1_0000_0000
    requires max > 0 && RecordAt(v, t, path).size + |BytesOf(src)| <= max
    ensures Shape(Apply(v, WriteFile(path, AppendTo, src)).v) && 0 < v.csize
    ensures var was, bytes := RecordAt(v, t, path), BytesOf(src);
      var extended := ReadPath(Apply(v, WriteFile(path, AppendTo, src)).v, path, max) == Some(Contents(v, ch, was) + bytes);
      && (extended <==> AppendLands(v, ch, was, bytes))
      && (Tight(v, ch, was) ==> (extended <==> bytes == [] || EndsInside(was.size, v.csize)))
  {
    hide *;
    var op := WriteFile(path, AppendTo, src);
    ConsistentIntro(v, ch, t);
    LiveTarget(v, ch, t, op);
    WriteKeepsTargets(v, path, AppendTo, src, path);
    ByTarget(v, op, max);
    ReadByTarget(Apply(v, op).v, path, max);
    RecordAtIs(v, t, path);
    var d, name := TargetOf(v, path).value.0, TargetOf(v, path).value.1;
    AppendIffLands(v, ch, t, d, name, src, max);
    if Tight(v, ch, RecordAt(v, t, path)) {
      AppendIffInsideCluster(v, ch, t, d, name, src, max);
    }
  }

  /**
   An append that fails, by path, exactly and for every file: its record stays, so the size does; the
   path reads what the data overlays, and reads as before if and only if nothing was hit or what was
   hit repeats the data.
   */
  lemma FailedAppendByPath(v: Volume, ch: Chains, t: Tree, path: string, src: Source, max: nat) returns (ch': Chains, t': Tree)
    requires Inv(v, ch, t) && Sized(src) && Given(src) && Shape(v) && !Apply(v, WriteFile(path, AppendTo, src)).ok
    requires ReadPath(v, path, max).Some? && RecordAt(v, t, path).size <= max
    ensures Shape(Apply(v, WriteFile(path, AppendTo, src)).v) && 0 < v.csize && Inv(Apply(v, WriteFile(path, AppendTo, src)).v, ch', t')
    ensures RecordAt(v, t, path).head >= 2 ==> RecordAt(Apply(v, WriteFile(path, AppendTo, src)).v, t', path) == RecordAt(v, t, path)
    ensures var rec, bytes, was := RecordAt(v, t, path), BytesOf(src), ReadPath(v, path, max).value;
      var after := ReadPath(Apply(v, WriteFile(path, AppendTo, src)).v, path, max);
      && after == Some(CutContents(v, ch, rec, bytes))
      && (after == Some(was) <==> CutUnscathed(v, ch, rec, bytes))
      && (Tight(v, ch, rec) ==> after == Some(if EndsInside(rec.size, v.csize) then was else TailReplaced(was, bytes, v.csize)))
      && |was| == |TailReplaced(was, bytes, v.csize)|
  {
    hide *;
    var op := WriteFile(path, AppendTo, src);
    ConsistentIntro(v, ch, t);
    WriteKeepsTargets(v, path, AppendTo, src, path);
    ByTarget(v, op, max);
    ReadByTarget(Apply(v, op).v, path, max);
    TargetIs(v, ch, t, path);
    RecordAtIs(v, t, path);
    var d, name := TargetOf(v, path).value.0, TargetOf(v, path).value.1;
    ReadableIsFile(v, ch, t, d, name, max);
    ch', t' := FailedAppendReads(v, ch, t, d, name, src, max);
    RecordAtIs(Apply(v, op).v, t', path);
    ReplacedLength(ReadPath(v, path, max).value, BytesOf(src), v.csize);
  }

  lemma ReplacedLength(file: seq<byte>, bytes: seq<byte>, csize: nat)
    ensures |TailReplaced(file, bytes, csize)| == |file|
  {
  }
}
