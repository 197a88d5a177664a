/**
 The mount table: mounting canonical points once each, and finding the mount of a path by
 the longest match at a segment boundary.
 */
module VfsMounts {
  import opened Common
  import opened VfsPaths

  const MAX_MOUNTS: nat := 8
  const MAX_PATH: nat := 128

  /** A slot of the table: free, or a mount point with the file system behind it. */
  datatype Mount = Mount(point: string, fs: int)

  type Table = seq<Option<Mount>>

  /** The test of the original: equal up to the length of the point, then a slash or the end. */
  predicate Covers(point: string, path: string) {
    if |point| == 0 then false
    else if |point| == 1 then path != [] && path[0] == '/'
    else |point| <= |path| && path[..|point|] == point && (|path| == |point| || path[|point|] == '/')
  }

  /** The longest match at slot `i` or later, against the best so far. */
  function Search(table: Table, path: string, i: nat, best: Option<nat>): (r: Option<nat>)
    requires i <= |table| && (best.Some? ==> best.value < |table| && table[best.value].Some?)
    ensures r.Some? ==> r.value < |table| && table[r.value].Some?
    decreases |table| - i
  {
    if i == |table| then best
    else if table[i].None? || !Covers(table[i].value.point, path) then Search(table, path, i + 1, best)
    else if best.None? || |table[i].value.point| > |table[best.value].value.point| then Search(table, path, i + 1, Some(i))
    else Search(table, path, i + 1, best)
  }

  function Resolve(table: Table, path: string): (r: Option<nat>)
    ensures r.Some? ==> r.value < |table| && table[r.value].Some?
  {
    Search(table, path, 0, None)
  }

  /** What is left of the path below the mount point. */
  function Relative(point: string, path: string): string
    requires |point| <= |path|
  {
    var rest := path[|point|..];
    if rest != [] && rest[0] == '/' then rest[1..] else rest
  }

  // ---------------------------------------------------------------- what covering means

  /** `a` is a prefix of `b`, segment by segment. */
  ghost predicate Above(a: seq<string>, b: seq<string>) {
    |a| <= |b| && b[..|a|] == a
  }

  lemma {:induction false} JoinConcat(a: seq<string>, b: seq<string>)
    ensures Join(a + b) == Join(a) + Join(b)
  {
    if a == [] {
      assert a + b == b;
    } else {
      assert (a + b)[1..] == a[1..] + b;
      JoinConcat(a[1..], b);
    }
  }

  lemma JoinCovers(a: seq<string>, b: seq<string>)
    requires a != []
    ensures |Join(a)| <= |Join(a + b)| && Join(a + b)[..|Join(a)|] == Join(a)
    ensures Join(a + b)[|Join(a)|..] == Join(b)
    ensures |Join(a + b)| == |Join(a)| || Join(a + b)[|Join(a)|] == '/'
  {
    JoinConcat(a, b);
    JoinStarts(b);
  }

  lemma {:induction false} JoinLength(a: seq<string>)
    requires AllPlain(a)
    ensures a != [] ==> |Join(a)| >= 2
  {
    if a != [] {
      assert Plain(a[0]);
    }
  }

  lemma AllPlainPart(a: seq<string>, n: nat)
    requires AllPlain(a) && n <= |a|
    ensures AllPlain(a[..n]) && AllPlain(a[n..])
  {
    forall i | 0 <= i < |a[n..]|
      ensures Plain(a[n..][i])
    {
      assert a[n..][i] == a[n + i];
    }
  }

  /** On canonical paths, covering is being above in the tree of segments. */
  lemma CoversIsAbove(a: seq<string>, b: seq<string>)
    requires AllPlain(a) && AllPlain(b)
    ensures Covers(Render(a), Render(b)) <==> Above(a, b)
  {
    hide *;
    if a == [] {
      RootCovers(b);
    } else {
      if Above(a, b) {
        AboveCovers(a, b);
      }
      if Covers(Render(a), Render(b)) {
        CoveredIsAbove(a, b);
      }
    }
  }

  lemma RootCovers(b: seq<string>)
    requires AllPlain(b)
    ensures Covers(Render([]), Render(b)) && Above([], b)
  {
    SplitRender(b);
    hide Segments, Join;
    assert b[..0] == [];
  }

  lemma AboveCovers(a: seq<string>, b: seq<string>)
    requires a != [] && AllPlain(a) && Above(a, b)
    ensures Covers(Render(a), Render(b))
  {
    JoinLength(a);
    assert b == a + b[|a|..];
    JoinCovers(a, b[|a|..]);
    hide Join, AllPlain;
  }

  lemma CoveredIsAbove(a: seq<string>, b: seq<string>)
    requires AllPlain(a) && AllPlain(b) && a != [] && Covers(Render(a), Render(b))
    ensures Above(a, b)
  {
    JoinLength(a);
    var p, q := Render(a), Render(b);
    var rest := q[|p|..];
    assert q == p + rest;
    SplitRender(a);
    SplitRender(b);
    SplitConcat(a, rest);
    assert b == a + Segments(rest);
  }

  /** Splitting distributes over a canonical path followed by more. */
  lemma {:induction false} SplitConcat(a: seq<string>, rest: string)
    requires AllPlain(a) && (rest == [] || rest[0] == '/')
    ensures Segments(Join(a) + rest) == a + Segments(rest)
  {
    hide *;
    if a == [] {
      JoinNil(rest);
      assert a + Segments(rest) == Segments(rest);
    } else {
      AllPlainPart(a, 1);
      PlainHead(a);
      JoinStarts(a[1..]);
      JoinTail(a, rest);
      SplitConcat(a[1..], rest);
      SegmentsStep(a[0], Join(a[1..]) + rest);
      assert [a[0]] + (a[1..] + Segments(rest)) == a + Segments(rest);
    }
  }

  lemma JoinNil(rest: string)
    ensures Join([]) + rest == rest
  {
  }

  lemma PlainHead(a: seq<string>)
    requires AllPlain(a) && a != []
    ensures a[0] != [] && forall i :: 0 <= i < |a[0]| ==> a[0][i] != '/'
  {
    assert Plain(a[0]);
  }

  lemma JoinTail(a: seq<string>, rest: string)
    requires a != []
    ensures Join(a) + rest == "/" + a[0] + (Join(a[1..]) + rest)
  {
  }

  // ---------------------------------------------------------------- the longest match

  /** Slot `k` covers the path and no covering slot is longer. */
  ghost predicate Longest(table: Table, path: string, k: nat) {
    && k < |table| && table[k].Some? && Covers(table[k].value.point, path)
    && forall j :: 0 <= j < |table| && table[j].Some? && Covers(table[j].value.point, path) ==> |table[j].value.point| <= |table[k].value.point|
  }

  lemma {:induction false} SearchFacts(table: Table, path: string, i: nat, best: Option<nat>)
    requires i <= |table| && (best.Some? ==> best.value < |table| && table[best.value].Some?)
    requires best.None? ==> forall j :: 0 <= j < i && table[j].Some? ==> !Covers(table[j].value.point, path)
    requires best.Some? ==> Covers(table[best.value].value.point, path)
    requires best.Some? ==> forall j :: 0 <= j < i && table[j].Some? && Covers(table[j].value.point, path) ==>
      |table[j].value.point| <= |table[best.value].value.point|
    ensures var r := Search(table, path, i, best);
      && (r.None? ==> forall j :: 0 <= j < |table| && table[j].Some? ==> !Covers(table[j].value.point, path))
      && (r.Some? ==> Longest(table, path, r.value))
    decreases |table| - i
  {
    hide Covers;
    if i < |table| {
      if table[i].None? || !Covers(table[i].value.point, path) {
        SearchFacts(table, path, i + 1, best);
      } else if best.None? || |table[i].value.point| > |table[best.value].value.point| {
        SearchFacts(table, path, i + 1, Some(i));
      } else {
        SearchFacts(table, path, i + 1, best);
      }
    }
  }

  /** Every mount point is canonical and mounted once. */
  ghost predicate TableOk(table: Table) {
    && |table| == MAX_MOUNTS
    && (forall i :: 0 <= i < |table| && table[i].Some? ==> Canonical(table[i].value.point))
    && (forall i, j :: 0 <= i < j < |table| && table[i].Some? && table[j].Some? ==> table[i].value.point != table[j].value.point)
  }

  ghost predicate RootMounted(table: Table) {
    exists i :: 0 <= i < |table| && table[i].Some? && table[i].value.point == "/"
  }

  lemma SameLengthSamePoint(a: string, b: string, path: string)
    requires Canonical(a) && Canonical(b) && Canonical(path) && Covers(a, path) && Covers(b, path) && |a| == |b|
    ensures a == b
  {
    var x :| AllPlain(x) && |x| <= MAX_SEGMENTS && a == Render(x);
    var y :| AllPlain(y) && |y| <= MAX_SEGMENTS && b == Render(y);
    SplitRender(x);
    SplitRender(y);
    JoinLength(x);
    JoinLength(y);
  }

  /**
   On a canonical path the result is the one mount with the longest matching point; there is
   one whenever the root is mounted.
   */
  lemma ResolveIsLongest(table: Table, path: string)
    requires TableOk(table) && Canonical(path)
    ensures var r := Resolve(table, path);
      && (r.Some? ==> Longest(table, path, r.value))
      && (r.Some? ==> forall k :: 0 <= k < |table| && Longest(table, path, k) ==> k == r.value)
      && (r.None? <==> forall j :: 0 <= j < |table| && table[j].Some? ==> !Covers(table[j].value.point, path))
      && (RootMounted(table) ==> r.Some?)
  {
    var r := Resolve(table, path);
    SearchFacts(table, path, 0, None);
    CanonicalStarts(path);
    hide Canonical, Search;
    if r.Some? {
      forall k | 0 <= k < |table| && Longest(table, path, k)
        ensures k == r.value
      {
        SameLengthSamePoint(table[k].value.point, table[r.value].value.point, path);
      }
    }
    if RootMounted(table) {
      var i :| 0 <= i < |table| && table[i].Some? && table[i].value.point == "/";
      assert Covers(table[i].value.point, path);
    }
  }

  lemma CanonicalStarts(path: string)
    requires Canonical(path)
    ensures path != [] && path[0] == '/'
  {
    var stack :| AllPlain(stack) && |stack| <= MAX_SEGMENTS && path == Render(stack);
    SplitRender(stack);
  }

  /** Mount point and relative part rebuild the path, as text and as segments. */
  lemma RelativeRebuilds(a: seq<string>, b: seq<string>)
    requires AllPlain(a) && AllPlain(b) && Covers(Render(a), Render(b))
    ensures |Render(a)| <= |Render(b)| && |a| <= |b|
    ensures var rel := Relative(Render(a), Render(b));
      && Segments(rel) == b[|a|..] && a + Segments(rel) == b
      && Render(b) == (if rel == "" then Render(a) else if a == [] then "/" + rel else Render(a) + "/" + rel)
  {
    CoversIsAbove(a, b);
    SplitRender(a);
    SplitRender(b);
    var c := b[|a|..];
    assert b == a + c;
    AllPlainPart(b, |a|);
    SplitJoin(c);
    JoinStarts(c);
    RelativeText(a, b, c);
    SlashIgnored(Join(c));
  }

  lemma SlashIgnored(s: string)
    ensures s != [] && s[0] == '/' ==> Segments(s) == Segments(s[1..])
  {
  }

  lemma RelativeText(a: seq<string>, b: seq<string>, c: seq<string>)
    requires b == a + c && AllPlain(a) && AllPlain(c)
    ensures |Render(a)| <= |Render(b)|
    ensures Relative(Render(a), Render(b)) == if c == [] then "" else Join(c)[1..]
    ensures var rel := Relative(Render(a), Render(b));
      Render(b) == (if rel == "" then Render(a) else if a == [] then "/" + rel else Render(a) + "/" + rel)
  {
    JoinConcat(a, c);
    JoinStarts(c);
    JoinLength(c);
    hide Segments;
    if a == [] {
      assert b == c;
      if c != [] {
        var j := Join(c);
        assert j == "/" + j[1..];
        FirstLetter(c);
      }
    } else if c == [] {
      assert b == a;
    } else {
      var j := Join(c);
      assert Render(b)[|Render(a)|..] == j;
      assert j == "/" + j[1..];
    }
  }

  lemma FirstLetter(c: seq<string>)
    requires c != [] && AllPlain(c)
    ensures |Join(c)| >= 2 && Join(c)[1] != '/' && Join(c)[1..][0] != '/'
  {
    assert Plain(c[0]);
  }

  // ---------------------------------------------------------------- mounting

  function FreeSlot(table: Table, i: nat): (r: Option<nat>)
    requires i <= |table|
    ensures r.Some? ==> i <= r.value < |table| && table[r.value].None?
    decreases |table| - i
  {
    if i == |table| then None else if table[i].None? then Some(i) else FreeSlot(table, i + 1)
  }

  predicate Mounted(table: Table, point: string) {
    exists i :: 0 <= i < |table| && table[i].Some? && table[i].value.point == point
  }

  /** Mounts a file system; refuses a bad path, a point in use and a full table. */
  function Attach(table: Table, path: string, fs: int): Option<Table> {
    var point := Normalize(path, MAX_PATH);
    if point.None? || Mounted(table, point.value) then None
    else
      var slot := FreeSlot(table, 0);
      if slot.None? then None else Some(table[slot.value := Some(Mount(point.value, fs))])
  }

  /** Mounting keeps the table in order and keeps every mount that was there. */
  lemma AttachKeeps(table: Table, path: string, fs: int)
    requires TableOk(table) && Attach(table, path, fs).Some?
    ensures TableOk(Attach(table, path, fs).value) && Normalize(path, MAX_PATH).Some?
    ensures RootMounted(table) ==> RootMounted(Attach(table, path, fs).value)
    ensures Normalize(path, MAX_PATH).value == "/" ==> RootMounted(Attach(table, path, fs).value)
    ensures forall i :: 0 <= i < |table| && table[i].Some? ==> Attach(table, path, fs).value[i] == table[i]
  {
    NormalizeIsCanonical(path, MAX_PATH);
    var point, k := Normalize(path, MAX_PATH).value, FreeSlot(table, 0).value;
    hide Normalize, Canonical, Segments, PushAll, FreeSlot;
    var t := table[k := Some(Mount(point, fs))];
    if RootMounted(table) {
      var i :| 0 <= i < |table| && table[i].Some? && table[i].value.point == "/";
      assert t[i] == table[i];
    }
    assert t[k].value.point == point;
  }

  function NoMounts(): Table {
    seq(MAX_MOUNTS, i => None)
  }

  /** The table after mounting a list of paths, refused ones skipped. */
  function MountAll(table: Table, paths: seq<(string, int)>): Table
    decreases |paths|
  {
    if paths == [] then table
    else
      var next := Attach(table, paths[0].0, paths[0].1);
      MountAll(if next.Some? then next.value else table, paths[1..])
  }

  lemma {:induction false} MountAllKeeps(table: Table, paths: seq<(string, int)>)
    requires TableOk(table)
    ensures TableOk(MountAll(table, paths)) && (RootMounted(table) ==> RootMounted(MountAll(table, paths)))
    decreases |paths|
  {
    if paths != [] {
      var next := Attach(table, paths[0].0, paths[0].1);
      hide Attach, TableOk, RootMounted;
      if next.Some? {
        AttachKeeps(table, paths[0].0, paths[0].1);
        MountAllKeeps(next.value, paths[1..]);
      } else {
        MountAllKeeps(table, paths[1..]);
      }
    }
  }

  lemma NoMountsOk()
    ensures TableOk(NoMounts())
  {
  }

  /**
   Every path that normalises is dispatched, once the root is mounted: to the one mount with
   the longest point above it, and the point's segments followed by those of the relative
   part are the path's own stack.
   */
  lemma DispatchRebuilds(table: Table, path: string)
    requires TableOk(table) && RootMounted(table) && Normalize(path, MAX_PATH).Some?
    ensures var full := Normalize(path, MAX_PATH).value;
      var r := Resolve(table, full);
      && r.Some? && Longest(table, full, r.value) && |table[r.value].value.point| <= |full|
      && PushAll([], Segments(path)) == Some(Segments(table[r.value].value.point) + Segments(Relative(table[r.value].value.point, full)))
  {
    NormalizeIsCanonical(path, MAX_PATH);
    var full := Normalize(path, MAX_PATH).value;
    hide Normalize, Segments, PushAll, Relative, Resolve;
    ResolveIsLongest(table, full);
    var point := table[Resolve(table, full).value].value.point;
    var a :| AllPlain(a) && |a| <= MAX_SEGMENTS && point == Render(a);
    var b :| AllPlain(b) && |b| <= MAX_SEGMENTS && full == Render(b);
    hide Render, AllPlain;
    RelativeRebuilds(a, b);
    SplitRender(a);
    SplitRender(b);
  }
}
