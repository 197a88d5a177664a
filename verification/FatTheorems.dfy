/**
 The main results about the FAT volume engine: consistency over whole runs, read-after-write,
 isolation of other files, append, and conservation of clusters.
 */
module FatTheorems {
  import opened Common
  import opened Bytes
  import opened FatTable
  import opened FatChains
  import opened FatSlots
  import opened FatStore
  import opened FatTree
  import opened FatOps
  import opened FatInvariant
  import opened FatSteps
  import opened FatFiles
  import opened FatAppend
  import opened FatAppendExact
  import opened FatDirs
  import opened FatWrites
  import opened FatRemoves
  import opened FatMkdir
  import opened FatPaths

  // ---------------------------------------------------------------- runs

  /** The volume operations as callers issue them. */
  datatype Op =
    | WriteFile(path: string, mode: Mode, src: Source)
    | RemoveFile(path: string)
    | MakeDir(path: string)

  predicate Valid(op: Op) {
    op.WriteFile? ==> Sized(op.src)
  }

  function Apply(v: Volume, op: Op): Outcome
    requires Shape(v)
  {
    var target := ResolveParent(v, op.path);
    if target.None? then Outcome(v, false)
    else
      var name := PrepareName(target.value.leaf);
      if name.None? then Outcome(v, false)
      else
        match op
        case WriteFile(_, mode, src) => Write(v, target.value.d, name.value, mode, src)
        case RemoveFile(_) => Remove(v, target.value.d, name.value)
        case MakeDir(_) => Mkdir(v, target.value.d, name.value)
  }

  lemma DoneKeepsInv(v: Volume, ch: Chains, t: Tree, d: nat, name: ShortName, mode: Mode, src: Source, out: Outcome, ch': Chains, t': Tree)
    ensures WriteDone(v, ch, t, d, name, mode, src, out, ch', t') ==> Inv(out.v, ch', t')
    ensures RemoveDone(v, ch, t, d, name, out, ch', t') ==> Inv(out.v, ch', t')
    ensures MkdirDone(v, ch, t, d, name, out, ch', t') ==> Inv(out.v, ch', t')
  {
    hide Inv, NamesKept, OthersSame, HeadOf, Lookup, Stored, GoneDir, Makes, Strands, OnlyDots, WriteRefused, WriteReached;
  }

  lemma NoOpOnOne(v: Volume, name: ShortName, mode: Mode, src: Source)
    requires Shape(v)
    ensures Write(v, 1, name, mode, src) == Outcome(v, false)
    ensures Remove(v, 1, name) == Outcome(v, false)
    ensures Mkdir(v, 1, name) == Outcome(v, false)
  {
    hide Create, DirOf, Locate, Store;
    NoDirectoryOne(v, name);
  }

  lemma ApplyUnfold(v: Volume, op: Op)
    requires Shape(v)
    ensures var target := ResolveParent(v, op.path);
      if target.None? || PrepareName(target.value.leaf).None? then Apply(v, op) == Outcome(v, false)
      else
        var d, name := target.value.d, PrepareName(target.value.leaf).value;
        Apply(v, op) == if op.WriteFile? then Write(v, d, name, op.mode, op.src) else if op.RemoveFile? then Remove(v, d, name) else Mkdir(v, d, name)
  {
  }

  /** One operation, successful or failed, keeps the invariant. */
  lemma ApplyStep(v: Volume, ch: Chains, t: Tree, op: Op) returns (ch': Chains, t': Tree)
    requires Inv(v, ch, t) && Valid(op)
    ensures Shape(v) && Inv(Apply(v, op).v, ch', t')
  {
    hide *;
    InvParts(v, ch, t);
    ParentIsLive(v, ch, t, op.path);
    ApplyUnfold(v, op);
    ValidIs(op);
    ch', t' := ch, t;
    var target := ResolveParent(v, op.path);
    if target.Some? && PrepareName(target.value.leaf).Some? {
      var d, name := target.value.d, PrepareName(target.value.leaf).value;
      LiveIs(v, t, d);
      var mode := if op.WriteFile? then op.mode else ReplaceAll;
      var src := if op.WriteFile? then op.src else Null(0);
      if d == 1 {
        NoOpOnOne(v, name, mode, src);
      } else {
        if op.WriteFile? {
          ch', t' := WriteStep(v, ch, t, d, name, mode, src);
        } else if op.RemoveFile? {
          ch', t' := RemoveStep(v, ch, t, d, name);
        } else {
          ch', t' := MkdirStep(v, ch, t, d, name);
        }
        DoneKeepsInv(v, ch, t, d, name, mode, src, Apply(v, op), ch', t');
      }
    }
  }

  lemma ValidIs(op: Op)
    ensures Valid(op) && op.WriteFile? ==> Sized(op.src)
  {
  }

  lemma ConsistentIntro(v: Volume, ch: Chains, t: Tree)
    requires Inv(v, ch, t)
    ensures Consistent(v) && Shape(v)
  {
  }

  /** One operation, successful or failed, keeps the volume consistent. */
  lemma ApplyKeepsConsistent(v: Volume, op: Op)
    requires Consistent(v) && Valid(op)
    ensures Shape(v) && Consistent(Apply(v, op).v)
  {
    hide *;
    var ch, t := Witnesses(v);
    var ch', t' := ApplyStep(v, ch, t, op);
    ConsistentIntro(Apply(v, op).v, ch', t');
    ConsistentIntro(v, ch, t);
  }

  /** Every cluster in use lies on exactly one live chain. */
  lemma ClusterHasOneChain(v: Volume, ch: Chains, t: Tree, c: nat)
    requires Inv(v, ch, t) && 2 <= c < |v.fat| && v.fat[c] != 0
    ensures exists h :: h in ch && c in ch[h]
    ensures forall h, k :: h in ch && k in ch && c in ch[h] && c in ch[k] ==> h == k
  {
    hide TreeOk, Viewed, Shape;
    assert Owned(ch, c);
    forall h, k | h in ch && k in ch && c in ch[h] && c in ch[k]
      ensures h == k
    {
      var a, b := ch[h], ch[k];
      assert h != k ==> Disjoint(a, b);
    }
  }

  /** A live chain starts at its head, repeats no cluster, stays in range, follows the table and ends with a mark. */
  lemma ChainIsSound(v: Volume, ch: Chains, t: Tree, h: nat)
    requires Inv(v, ch, t) && h in ch
    ensures ch[h] != [] && ch[h][0] == h
    ensures forall i, j :: 0 <= i < j < |ch[h]| ==> ch[h][i] != ch[h][j]
    ensures forall i :: 0 <= i < |ch[h]| ==> 2 <= ch[h][i] < |v.fat|
    ensures forall i :: 0 <= i < |ch[h]| - 1 ==> v.fat[ch[h][i]] == ch[h][i + 1]
    ensures IsEoc(v.kind, v.fat[Last(ch[h])])
  {
    hide TreeOk, Viewed, Shape, Apart, Covered;
    assert forall i :: 0 <= i < |ch[h]| ==> ch[h][i] in ch[h];
  }

  /** A live chain is the root directory's or has exactly one owning record; records with head below 2 own none. */
  lemma ChainHasOneOwner(v: Volume, ch: Chains, t: Tree, h: nat)
    requires Inv(v, ch, t) && h in ch && h != t.root
    ensures exists r :: IsRef(t, r) && Owns(At(t, r)) && At(t, r).head == h
    ensures forall q, r :: IsRef(t, q) && IsRef(t, r) && Owns(At(t, q)) && Owns(At(t, r)) && At(t, q).head == h && At(t, r).head == h ==> q == r
  {
    hide ChainsOk, Viewed, Shape, Owns;
    assert h in t.own;
  }

  /** `w` is reached from `v` by the operations `ops`, whatever their outcomes. */
  ghost predicate Reached(v: Volume, ops: seq<Op>, w: Volume)
    decreases |ops|
  {
    if ops == [] then w == v
    else Shape(v) && Valid(ops[0]) && Reached(Apply(v, ops[0]).v, ops[1..], w)
  }

  /** Every run keeps the volume consistent, and no run gets stuck on an ill-formed volume. */
  lemma {:induction false} RunKeepsConsistent(v: Volume, ops: seq<Op>, w: Volume)
    requires Consistent(v) && Reached(v, ops, w)
    ensures Consistent(w)
    decreases |ops|
  {
    if ops != [] {
      hide Consistent, Apply;
      ApplyKeepsConsistent(v, ops[0]);
      RunKeepsConsistent(Apply(v, ops[0]).v, ops[1..], w);
    }
  }

  lemma {:induction false} RunExists(v: Volume, ops: seq<Op>) returns (w: Volume)
    requires Consistent(v) && forall i :: 0 <= i < |ops| ==> Valid(ops[i])
    ensures Reached(v, ops, w)
    decreases |ops|
  {
    w := v;
    if ops != [] {
      hide Consistent, Apply, Valid;
      ApplyKeepsConsistent(v, ops[0]);
      w := RunExists(Apply(v, ops[0]).v, ops[1..]);
    }
  }

  // ---------------------------------------------------------------- reading

  lemma ReadUnfold(v: Volume, d: nat, name: ShortName, max: nat)
    requires Shape(v)
    ensures var found := Locate(v, d, name);
      && (max == 0 || found.None? ==> Read(v, d, name, max) == None)
      && (max > 0 && found.Some? ==>
        var s := Get(v.data, found.value);
        Read(v, d, name, max) == if IsDirectory(Attr(s)) then None else Some(ReadRecord(v, Decode(s), max)))
  {
  }

  lemma ReadRecordIs(v: Volume, ch: Chains, rec: Record, max: nat)
    requires Shape(v) && ChainsOk(v.kind, v.fat, ch) && rec.Entry? && (rec.head >= 2 ==> rec.head in ch)
    ensures ReadRecord(v, rec, max) == Clip(Contents(v, ch, rec), max)
  {
    if rec.head >= 2 {
      WalkIs(v, ch, rec.head);
      ChainFacts(v, ch, rec.head);
    } else if rec.head in ch {
      ChainFacts(v, ch, rec.head);
    }
    hide ChainsOk, Shape, ChainOf, ChainBytes;
  }

  /** A read returns the contents of the file a name stands for. */
  lemma ReadIsContents(v: Volume, ch: Chains, t: Tree, d: nat, name: ShortName, max: nat)
    requires Inv(v, ch, t) && d in t.view && Nameable(name) && max > 0
    ensures Shape(v)
    ensures Read(v, d, name, max) ==
      if Lookup(t, d, name).Some? && Lookup(t, d, name).value.Entry? && !Lookup(t, d, name).value.directory
      then Some(Clip(Contents(v, ch, Lookup(t, d, name).value), max)) else None
  {
    hide *;
    InvParts(v, ch, t);
    var r := LocateStep(v, ch, t, d, name);
    ReadUnfold(v, d, name, max);
    if Locate(v, d, name).Some? {
      var loc := Locate(v, d, name).value;
      var s := Get(v.data, loc);
      StoredAtParts(v.data, ch, t, r, loc);
      MatchesIs(At(t, r), name);
      NotDot(v, ch, t, r, s, name);
      DecodeFields(s);
      OwnsHead(At(t, r));
      if Owns(At(t, r)) {
        OwnerHead(v, ch, t, r);
      }
      ReadRecordIs(v, ch, At(t, r), max);
    }
  }

  lemma HoldsContents(v: Volume, ch: Chains, rec: Record, bytes: seq<byte>)
    requires Holds(v, ch, rec, bytes) && ChainsOk(v.kind, v.fat, ch)
    ensures Contents(v, ch, rec) == bytes && Tight(v, ch, rec)
  {
    if bytes == [] {
      EmptyContents(v, ch, rec);
    } else {
      HeadsInRange(v, ch, rec.head);
    }
  }

  lemma ClipAll(bytes: seq<byte>, max: nat)
    requires |bytes| <= max
    ensures Clip(bytes, max) == bytes
  {
  }

  lemma WriteDoneParts(v: Volume, ch: Chains, t: Tree, d: nat, name: ShortName, mode: Mode, src: Source, out: Outcome, ch': Chains, t': Tree)
    requires WriteDone(v, ch, t, d, name, mode, src, out, ch', t')
    ensures Inv(out.v, ch', t') && t'.view.Keys == t.view.Keys && out.v.csize == v.csize
    ensures NamesKept(t, t', d, name) && OthersSame(v, ch, out.v, ch', t, HeadOf(t, d, name))
    ensures out.ok || (IsFile(t, d, name) && Given(src)) ==> WriteReached(v, ch, t, d, name, mode, src, out, ch', t')
    ensures WriteRefused(v, ch, t, d, name, src, out, ch', t') || WriteReached(v, ch, t, d, name, mode, src, out, ch', t')
  {
  }

  lemma StoredParts(v: Volume, ch: Chains, was: Record, mode: Mode, src: Source, out: Outcome, ch': Chains, rec: Record)
    requires Stored(v, ch, was, mode, src, out, ch', rec) && was.Entry?
    ensures out.ok ==> Given(src)
    ensures Given(src) && mode.ReplaceAll? ==> Holds(out.v, ch', rec, if out.ok then BytesOf(src) else [])
    ensures Given(src) && mode.AppendTo? ==> AppendResult(v, ch, was, BytesOf(src), out, ch', rec)
    ensures !Given(src) ==> rec == was
  {
  }

  lemma ResultParts(v: Volume, ch: Chains, was: Record, bytes: seq<byte>, out: Outcome, ch': Chains, rec: Record)
    requires AppendResult(v, ch, was, bytes, out, ch', rec) && was.Entry?
    ensures rec.Entry? && 0 < v.csize
    ensures out.ok && was.size + |bytes| < 0x1_0000_0000 ==>
      && rec.size <= was.size + |bytes|
      && (Contents(out.v, ch', rec) == Contents(v, ch, was) + bytes <==> AppendLands(v, ch, was, bytes))
    ensures out.ok && was.size + |bytes| < 0x1_0000_0000 && Tight(v, ch, was) ==> AppendExact(v, ch, was, bytes, out.v, ch', rec)
    ensures !out.ok ==> AppendCut(v, ch, was, bytes, out.v, ch', rec)
    ensures !out.ok && Tight(v, ch, was) ==> AppendFailed(v, ch, was, bytes, out.v, ch', rec)
  {
  }

  lemma ReachedParts(v: Volume, ch: Chains, t: Tree, d: nat, name: ShortName, mode: Mode, src: Source, out: Outcome, ch': Chains, t': Tree)
    requires WriteReached(v, ch, t, d, name, mode, src, out, ch', t')
    ensures IsFile(t', d, name) && Lookup(t', d, name).Some? && Lookup(t', d, name).value.Entry? && !Lookup(t', d, name).value.directory
    ensures Before(t, d, name).Entry? && !Before(t, d, name).directory
    ensures Stored(v, ch, Before(t, d, name), mode, src, out, ch', Lookup(t', d, name).value)
  {
  }

  /**
   Read-after-write: after a successful replace, a read with room enough returns exactly the
   bytes written, for every length.
   */
  lemma ReadAfterWrite(v: Volume, ch: Chains, t: Tree, d: nat, name: ShortName, src: Source, max: nat)
    requires Inv(v, ch, t) && d in t.view && Nameable(name) && Sized(src)
    requires Shape(v) && Write(v, d, name, ReplaceAll, src).ok
    requires max > 0 && |BytesOf(src)| <= max
    ensures Shape(Write(v, d, name, ReplaceAll, src).v)
    ensures Read(Write(v, d, name, ReplaceAll, src).v, d, name, max) == Some(BytesOf(src))
  {
    hide *;
    var out := Write(v, d, name, ReplaceAll, src);
    var ch', t' := WriteStep(v, ch, t, d, name, ReplaceAll, src);
    WriteDoneParts(v, ch, t, d, name, ReplaceAll, src, out, ch', t');
    ReachedParts(v, ch, t, d, name, ReplaceAll, src, out, ch', t');
    var rec := Lookup(t', d, name).value;
    StoredParts(v, ch, Before(t, d, name), ReplaceAll, src, out, ch', rec);
    InvParts(out.v, ch', t');
    HoldsContents(out.v, ch', rec, BytesOf(src));
    ReadIsContents(out.v, ch', t', d, name, max);
    ClipAll(BytesOf(src), max);
  }

  lemma BeforeEntry(v: Volume, ch: Chains, t: Tree, d: nat, name: ShortName)
    requires Inv(v, ch, t) && d in t.view
    ensures Before(t, d, name).Entry?
    ensures Lookup(t, d, name).Some? ==> Lookup(t, d, name).value == Before(t, d, name)
  {
    DirIsStored(v, ch, t, d);
    LookupFacts(t, d, name);
  }

  // ---------------------------------------------------------------- isolation

  /** Different names never share a chain. */
  lemma DistinctHeads(v: Volume, ch: Chains, t: Tree, d: nat, name: ShortName, e: nat, n: ShortName)
    requires Inv(v, ch, t) && d in t.view && e in t.view && Nameable(name) && Nameable(n) && (d != e || name != n)
    requires Lookup(t, e, n).Some? && Lookup(t, e, n).value.Entry? && Lookup(t, e, n).value.head >= 2
    ensures HeadOf(t, d, name) != Lookup(t, e, n).value.head
  {
    hide *;
    InvParts(v, ch, t);
    HeadOfIs(t, d, name);
    BeforeEntry(v, ch, t, d, name);
    var r := LocateStep(v, ch, t, e, n);
    var q := LocateStep(v, ch, t, d, name);
    StoredAtParts(v.data, ch, t, r, Locate(v, e, n).value);
    MatchesIs(At(t, r), n);
    NotDot(v, ch, t, r, Get(v.data, Locate(v, e, n).value), n);
    OwnsHead(At(t, r));
    OwnerHead(v, ch, t, r);
    if Lookup(t, d, name).Some? && Lookup(t, d, name).value.head == At(t, r).head {
      StoredAtParts(v.data, ch, t, q, Locate(v, d, name).value);
      MatchesIs(At(t, q), name);
      NotDot(v, ch, t, q, Get(v.data, Locate(v, d, name).value), name);
      OwnsHead(At(t, q));
      OwnerHead(v, ch, t, q);
    }
  }

  lemma SameFileContents(v: Volume, ch: Chains, v': Volume, ch': Chains, rec: Record)
    requires Shape(v) && ChainsOk(v.kind, v.fat, ch) && rec.Entry? && SameFile(v, ch, v', ch', rec.head)
    ensures Contents(v', ch', rec) == Contents(v, ch, rec)
  {
    ChainFacts(v, ch, rec.head);
    hide ChainsOk, Shape;
    ChainBytesFrame(v.data, v'.data, ch[rec.head]);
  }

  lemma OthersAt(v: Volume, ch: Chains, v': Volume, ch': Chains, t: Tree, h: nat, g: nat)
    requires OthersSame(v, ch, v', ch', t, h) && g in ch && g !in t.view && g != h
    ensures SameFile(v, ch, v', ch', g)
  {
  }

  lemma NamesAt(t: Tree, t': Tree, d: nat, name: ShortName, e: nat, n: ShortName)
    requires NamesKept(t, t', d, name) && e in t.view && e in t'.view && (e != d || n != name)
    ensures Lookup(t', e, n) == Lookup(t, e, n)
  {
  }

  lemma EmptyContents(v: Volume, ch: Chains, rec: Record)
    requires ChainsOk(v.kind, v.fat, ch) && rec.Entry? && rec.head < 2
    ensures Contents(v, ch, rec) == []
  {
    if rec.head in ch {
      HeadsInRange(v, ch, rec.head);
    }
  }

  /** A name an operation does not speak of reads the same before and after. */
  lemma OtherReadsSame(v: Volume, ch: Chains, t: Tree, v': Volume, ch': Chains, t': Tree, d: nat, name: ShortName, h: nat, e: nat, n: ShortName, max: nat)
    requires Inv(v, ch, t) && Inv(v', ch', t') && NamesKept(t, t', d, name) && OthersSame(v, ch, v', ch', t, h)
    requires d in t.view && e in t.view && e in t'.view && Nameable(name) && Nameable(n) && (e != d || n != name) && max > 0
    requires h == 0 || h == HeadOf(t, d, name)
    ensures Shape(v) && Shape(v') && Read(v', e, n, max) == Read(v, e, n, max)
  {
    hide *;
    InvParts(v, ch, t);
    InvParts(v', ch', t');
    ReadIsContents(v, ch, t, e, n, max);
    ReadIsContents(v', ch', t', e, n, max);
    NamesAt(t, t', d, name, e, n);
    BeforeEntry(v, ch, t, e, n);
    if Lookup(t, e, n).Some? && !Lookup(t, e, n).value.directory {
      var rec := Lookup(t, e, n).value;
      if rec.head >= 2 {
        var r := LocateStep(v, ch, t, e, n);
        StoredAtParts(v.data, ch, t, r, Locate(v, e, n).value);
        MatchesIs(At(t, r), n);
        NotDot(v, ch, t, r, Get(v.data, Locate(v, e, n).value), n);
        OwnsHead(rec);
        OwnerHead(v, ch, t, r);
        DistinctHeads(v, ch, t, d, name, e, n);
        OthersAt(v, ch, v', ch', t, h, rec.head);
        SameFileContents(v, ch, v', ch', rec);
      } else {
        EmptyContents(v, ch, rec);
        EmptyContents(v', ch', rec);
      }
    }
  }

  lemma RemoveDoneParts(v: Volume, ch: Chains, t: Tree, d: nat, name: ShortName, out: Outcome, ch': Chains, t': Tree)
    requires RemoveDone(v, ch, t, d, name, out, ch', t')
    ensures Inv(out.v, ch', t') && d in t'.view && t'.view.Keys <= t.view.Keys
    ensures NamesKept(t, t', d, name) && OthersSame(v, ch, out.v, ch', t, HeadOf(t, d, name))
    ensures out.ok <==> Removes(v, t, d, name)
    ensures out.ok ==> Lookup(t', d, name).None? && Lookup(t, d, name).Some? && t'.view.Keys == t.view.Keys - GoneDir(Lookup(t, d, name).value)
  {
  }

  lemma FailedRemoveSame(v: Volume, ch: Chains, t: Tree, d: nat, name: ShortName, out: Outcome, ch': Chains, t': Tree)
    requires RemoveDone(v, ch, t, d, name, out, ch', t') && !out.ok
    ensures out.v == v && ch' == ch && t' == t
  {
  }

  // ---------------------------------------------------------------- append

  /**
   Append, exactly: for a file with just the clusters it needs, a successful append makes a
   read return the old bytes followed by the new ones if and only if the file was empty or
   did not end on a cluster boundary (or nothing was appended).
   */
  lemma AppendIffInsideCluster(v: Volume, ch: Chains, t: Tree, d: nat, name: ShortName, src: Source, max: nat)
    requires Inv(v, ch, t) && d in t.view && Nameable(name) && Sized(src)
    requires Shape(v) && Write(v, d, name, AppendTo, src).ok
    requires Tight(v, ch, Before(t, d, name)) && Before(t, d, name).size + |BytesOf(src)| < 0x1_0000_0000
    requires max > 0 && Before(t, d, name).size + |BytesOf(src)| <= max
    ensures Shape(Write(v, d, name, AppendTo, src).v) && 0 < v.csize && Before(t, d, name).Entry?
    ensures Read(Write(v, d, name, AppendTo, src).v, d, name, max) == Some(Contents(v, ch, Before(t, d, name)) + BytesOf(src))
      <==> BytesOf(src) == [] || EndsInside(Before(t, d, name).size, v.csize)
  {
    hide *;
    var was, bytes := Before(t, d, name), BytesOf(src);
    var out := Write(v, d, name, AppendTo, src);
    var ch', t' := WriteStep(v, ch, t, d, name, AppendTo, src);
    WriteDoneParts(v, ch, t, d, name, AppendTo, src, out, ch', t');
    ReachedParts(v, ch, t, d, name, AppendTo, src, out, ch', t');
    var rec := Lookup(t', d, name).value;
    StoredParts(v, ch, was, AppendTo, src, out, ch', rec);
    ResultParts(v, ch, was, bytes, out, ch', rec);
    ExactParts(v, ch, was, bytes, out.v, ch', rec);
    ReadIsContents(out.v, ch', t', d, name, max);
    ContentsBound(v, ch, was);
    ContentsBound(out.v, ch', rec);
    ClipConcat(Contents(out.v, ch', rec), Contents(v, ch, was), bytes, max);
  }

  /**
   Append, exactly, for every file: a successful append makes a read return the old bytes
   followed by the new ones if and only if the data lands behind them.
   */
  lemma AppendIffLands(v: Volume, ch: Chains, t: Tree, d: nat, name: ShortName, src: Source, max: nat)
    requires Inv(v, ch, t) && d in t.view && Nameable(name) && Sized(src)
    requires Shape(v) && Write(v, d, name, AppendTo, src).ok
    requires Before(t, d, name).size + |BytesOf(src)| < 0x1_0000_0000
    requires max > 0 && Before(t, d, name).size + |BytesOf(src)| <= max
    ensures Shape(Write(v, d, name, AppendTo, src).v) && 0 < v.csize && Before(t, d, name).Entry?
    ensures Read(Write(v, d, name, AppendTo, src).v, d, name, max) == Some(Contents(v, ch, Before(t, d, name)) + BytesOf(src))
      <==> AppendLands(v, ch, Before(t, d, name), BytesOf(src))
  {
    hide *;
    var was, bytes := Before(t, d, name), BytesOf(src);
    var out := Write(v, d, name, AppendTo, src);
    var ch', t' := WriteStep(v, ch, t, d, name, AppendTo, src);
    WriteDoneParts(v, ch, t, d, name, AppendTo, src, out, ch', t');
    ReachedParts(v, ch, t, d, name, AppendTo, src, out, ch', t');
    var rec := Lookup(t', d, name).value;
    StoredParts(v, ch, was, AppendTo, src, out, ch', rec);
    ResultParts(v, ch, was, bytes, out, ch', rec);
    InvParts(out.v, ch', t');
    ReadIsContents(out.v, ch', t', d, name, max);
    ContentsBound(v, ch, was);
    ContentsBound(out.v, ch', rec);
    ClipConcat(Contents(out.v, ch', rec), Contents(v, ch, was), bytes, max);
  }

  /** A replace that fails on a file it could reach leaves the file empty. */
  lemma FailedReplaceEmpties(v: Volume, ch: Chains, t: Tree, d: nat, name: ShortName, src: Source, max: nat)
    requires Inv(v, ch, t) && d in t.view && Nameable(name) && Sized(src) && Given(src) && IsFile(t, d, name) && max > 0
    requires Shape(v) && !Write(v, d, name, ReplaceAll, src).ok
    ensures Shape(Write(v, d, name, ReplaceAll, src).v)
    ensures Read(Write(v, d, name, ReplaceAll, src).v, d, name, max) == Some([])
  {
    hide *;
    var out := Write(v, d, name, ReplaceAll, src);
    var ch', t' := WriteStep(v, ch, t, d, name, ReplaceAll, src);
    WriteDoneParts(v, ch, t, d, name, ReplaceAll, src, out, ch', t');
    ReachedParts(v, ch, t, d, name, ReplaceAll, src, out, ch', t');
    var rec := Lookup(t', d, name).value;
    StoredParts(v, ch, Before(t, d, name), ReplaceAll, src, out, ch', rec);
    InvParts(out.v, ch', t');
    HoldsContents(out.v, ch', rec, []);
    ReadIsContents(out.v, ch', t', d, name, max);
    ClipAll([], max);
  }

  /**
   An append that fails, exactly, for every file: the record stays as it was, the file reads what
   the data overlays, and it reads as before if and only if nothing was hit or what was hit repeats
   the data.  For a tight file that is: unless the file ends on a cluster boundary, where its last
   cluster holds the beginning of the data.
   */
  lemma FailedAppendReads(v: Volume, ch: Chains, t: Tree, d: nat, name: ShortName, src: Source, max: nat) returns (ch': Chains, t': Tree)
    requires Inv(v, ch, t) && d in t.view && Nameable(name) && Sized(src) && Given(src) && IsFile(t, d, name)
    requires Shape(v) && !Write(v, d, name, AppendTo, src).ok
    requires max > 0 && Before(t, d, name).size <= max
    ensures Shape(Write(v, d, name, AppendTo, src).v) && 0 < v.csize && Before(t, d, name).Entry?
    ensures Inv(Write(v, d, name, AppendTo, src).v, ch', t') && (Before(t, d, name).head >= 2 ==> Before(t', d, name) == Before(t, d, name))
    ensures var rec, bytes := Before(t, d, name), BytesOf(src);
      var was, after := Contents(v, ch, rec), Read(Write(v, d, name, AppendTo, src).v, d, name, max);
      && Read(v, d, name, max) == Some(was)
      && after == Some(CutContents(v, ch, rec, bytes))
      && (after == Read(v, d, name, max) <==> CutUnscathed(v, ch, rec, bytes))
      && (Tight(v, ch, rec) ==> after == Some(if EndsInside(rec.size, v.csize) then was else TailReplaced(was, bytes, v.csize)))
  {
    hide *;
    var was, bytes := Before(t, d, name), BytesOf(src);
    var out := Write(v, d, name, AppendTo, src);
    InvParts(v, ch, t);
    FileIsBefore(t, d, name);
    ch', t' := WriteStep(v, ch, t, d, name, AppendTo, src);
    WriteDoneParts(v, ch, t, d, name, AppendTo, src, out, ch', t');
    ReachedParts(v, ch, t, d, name, AppendTo, src, out, ch', t');
    var rec := Lookup(t', d, name).value;
    StoredParts(v, ch, was, AppendTo, src, out, ch', rec);
    ResultParts(v, ch, was, bytes, out, ch', rec);
    CutIff(v, ch, was, bytes, out.v, ch', rec);
    if Tight(v, ch, was) {
      FailedParts(v, ch, was, bytes, out.v, ch', rec);
    }
    InvParts(out.v, ch', t');
    FileIsBefore(t', d, name);
    ReadIsContents(v, ch, t, d, name, max);
    ReadIsContents(out.v, ch', t', d, name, max);
    ContentsBound(v, ch, was);
    ContentsBound(out.v, ch', rec);
    ClipAll(Contents(v, ch, was), max);
    ClipAll(Contents(out.v, ch', rec), max);
  }

  lemma FileIsBefore(t: Tree, d: nat, name: ShortName)
    requires IsFile(t, d, name)
    ensures Lookup(t, d, name) == Some(Before(t, d, name)) && Before(t, d, name).Entry? && !Before(t, d, name).directory
  {
  }

  lemma FailedParts(v: Volume, ch: Chains, was: Record, bytes: seq<byte>, v': Volume, ch': Chains, rec: Record)
    requires AppendFailed(v, ch, was, bytes, v', ch', rec)
    ensures was.Entry? && rec.Entry? && rec.size == was.size && 0 < v.csize
    ensures Contents(v', ch', rec) == if EndsInside(was.size, v.csize) then Contents(v, ch, was) else TailReplaced(Contents(v, ch, was), bytes, v.csize)
  {
  }

  lemma ExactParts(v: Volume, ch: Chains, was: Record, bytes: seq<byte>, v': Volume, ch': Chains, rec: Record)
    requires AppendExact(v, ch, was, bytes, v', ch', rec)
    ensures was.Entry? && rec.Entry? && 0 < v.csize && rec.size == was.size + |bytes|
    ensures Contents(v', ch', rec) == Contents(v, ch, was) + bytes <==> bytes == [] || EndsInside(was.size, v.csize)
    ensures bytes == [] || EndsInside(was.size, v.csize) ==> Tight(v', ch', rec)
  {
  }

  lemma ContentsBound(v: Volume, ch: Chains, rec: Record)
    ensures rec.Entry? ==> |Contents(v, ch, rec)| <= rec.size
  {
  }

  lemma ClipConcat(a: seq<byte>, b: seq<byte>, c: seq<byte>, max: nat)
    requires |b| + |c| <= max
    ensures a == b + c ==> Clip(a, max) == b + c
    ensures |a| <= max && a != b + c ==> Clip(a, max) != b + c
  {
  }
}
