/**
 Absolute paths: splitting into segments, resolving `.` and `..` on a bounded stack, and the
 canonical text of a stack.  Canonical text and segment stacks determine each other.
 */
module VfsPaths {
  import opened Common

  const MAX_SEGMENTS: nat := 32

  // ---------------------------------------------------------------- segments

  function LeadLength(s: string): (n: nat)
    ensures n <= |s| && (forall i :: 0 <= i < n ==> s[i] != '/') && (n < |s| ==> s[n] == '/')
  {
    if s == [] || s[0] == '/' then 0 else 1 + LeadLength(s[1..])
  }

  /** The parts of a path between slashes; empty parts do not count. */
  function Segments(s: string): seq<string>
    decreases |s|
  {
    if s == [] then []
    else if s[0] == '/' then Segments(s[1..])
    else
      var n := LeadLength(s);
      [s[..n]] + Segments(s[n..])
  }

  ghost predicate Plain(seg: string) {
    seg != [] && seg != "." && seg != ".." && forall i :: 0 <= i < |seg| ==> seg[i] != '/'
  }

  ghost predicate AllPlain(stack: seq<string>) {
    forall i :: 0 <= i < |stack| ==> Plain(stack[i])
  }

  // ---------------------------------------------------------------- the stack

  /** One segment: `.` stays, `..` goes up and stops at the root, a name goes down. */
  function Push(stack: seq<string>, seg: string): Option<seq<string>> {
    if seg == "." then Some(stack)
    else if seg == ".." then Some(if stack == [] then [] else stack[..|stack| - 1])
    else if |stack| >= MAX_SEGMENTS then None
    else Some(stack + [seg])
  }

  function PushAll(stack: seq<string>, segs: seq<string>): Option<seq<string>>
    decreases |segs|
  {
    if segs == [] then Some(stack)
    else
      var next := Push(stack, segs[0]);
      if next.None? then None else PushAll(next.value, segs[1..])
  }

  function Join(stack: seq<string>): string {
    if stack == [] then "" else "/" + stack[0] + Join(stack[1..])
  }

  /** The canonical text of a stack. */
  function Render(stack: seq<string>): string {
    if stack == [] then "/" else Join(stack)
  }

  /** The canonical form of an absolute path that fits into `capacity` characters with its terminator. */
  function Normalize(path: string, capacity: nat): Option<string> {
    if capacity < 2 || path == [] || path[0] != '/' then None
    else
      var stack := PushAll([], Segments(path));
      if stack.None? || |Render(stack.value)| >= capacity then None else Some(Render(stack.value))
  }

  /** A text that is the rendering of some stack of plain segments. */
  ghost predicate Canonical(path: string) {
    exists stack :: AllPlain(stack) && |stack| <= MAX_SEGMENTS && path == Render(stack)
  }

  // ---------------------------------------------------------------- splitting what was rendered

  lemma {:induction false} LeadIs(s: string, n: nat)
    requires n <= |s| && (forall i :: 0 <= i < n ==> s[i] != '/') && (n == |s| || s[n] == '/')
    ensures LeadLength(s) == n
  {
    if n > 0 {
      LeadIs(s[1..], n - 1);
    }
  }

  lemma SegmentsStep(seg: string, rest: string)
    requires seg != [] && (forall i :: 0 <= i < |seg| ==> seg[i] != '/') && (rest == [] || rest[0] == '/')
    ensures Segments("/" + seg + rest) == [seg] + Segments(rest)
  {
    var s := seg + rest;
    assert ("/" + seg + rest)[1..] == s;
    assert s[0] == seg[0];
    LeadIs(s, |seg|);
    assert s[..|seg|] == seg && s[|seg|..] == rest;
  }

  lemma JoinStarts(stack: seq<string>)
    ensures Join(stack) == [] || Join(stack)[0] == '/'
    ensures stack != [] ==> Join(stack) != [] && Join(stack)[0] == '/'
  {
  }

  lemma {:induction false} SplitJoin(stack: seq<string>)
    requires AllPlain(stack)
    ensures Segments(Join(stack)) == stack
  {
    if stack != [] {
      var rest := stack[1..];
      assert Plain(stack[0]);
      assert AllPlain(rest) by {
        forall i | 0 <= i < |rest|
          ensures Plain(rest[i])
        {
          assert rest[i] == stack[i + 1];
        }
      }
      SplitJoin(rest);
      JoinStarts(rest);
      SegmentsStep(stack[0], Join(rest));
    }
  }

  /** Splitting the rendering of a stack of plain segments gives the stack back. */
  lemma SplitRender(stack: seq<string>)
    requires AllPlain(stack)
    ensures Segments(Render(stack)) == stack && Render(stack) != [] && Render(stack)[0] == '/'
  {
    SplitJoin(stack);
    JoinStarts(stack);
    if stack == [] {
      assert "/"[1..] == [];
    }
  }

  /** So a canonical text is the rendering of exactly one stack. */
  lemma CanonicalIsUnique(a: seq<string>, b: seq<string>)
    requires AllPlain(a) && AllPlain(b) && Render(a) == Render(b)
    ensures a == b
  {
    SplitRender(a);
    SplitRender(b);
  }

  // ---------------------------------------------------------------- normalisation

  lemma {:induction false} SegmentsHaveNoSlash(s: string)
    ensures forall i :: 0 <= i < |Segments(s)| ==> Segments(s)[i] != [] && forall j :: 0 <= j < |Segments(s)[i]| ==> Segments(s)[i][j] != '/'
    decreases |s|
  {
    if s != [] {
      if s[0] == '/' {
        SegmentsHaveNoSlash(s[1..]);
      } else {
        var n := LeadLength(s);
        SegmentsHaveNoSlash(s[n..]);
        var r := Segments(s);
        assert forall i :: 0 < i < |r| ==> r[i] == Segments(s[n..])[i - 1];
        assert r[0] == s[..n];
      }
    }
  }

  ghost predicate Slashless(segs: seq<string>) {
    forall i :: 0 <= i < |segs| ==> segs[i] != [] && forall j :: 0 <= j < |segs[i]| ==> segs[i][j] != '/'
  }

  lemma PushPlain(stack: seq<string>, seg: string)
    requires AllPlain(stack) && |stack| <= MAX_SEGMENTS && seg != [] && forall j :: 0 <= j < |seg| ==> seg[j] != '/'
    ensures Push(stack, seg).Some? ==> AllPlain(Push(stack, seg).value) && |Push(stack, seg).value| <= MAX_SEGMENTS
  {
    if seg != "." && seg != ".." {
      assert Plain(seg);
    }
  }

  lemma {:induction false} StackIsPlain(stack: seq<string>, segs: seq<string>)
    requires AllPlain(stack) && |stack| <= MAX_SEGMENTS && Slashless(segs)
    ensures PushAll(stack, segs).Some? ==> AllPlain(PushAll(stack, segs).value) && |PushAll(stack, segs).value| <= MAX_SEGMENTS
    decreases |segs|
  {
    if segs != [] {
      PushPlain(stack, segs[0]);
      var next := Push(stack, segs[0]);
      hide Push, Plain;
      if next.Some? {
        assert Slashless(segs[1..]);
        StackIsPlain(next.value, segs[1..]);
      }
    }
  }

  /** Plain segments are simply pushed. */
  lemma {:induction false} PushPlainAll(stack: seq<string>, segs: seq<string>)
    requires AllPlain(segs) && |stack| + |segs| <= MAX_SEGMENTS
    ensures PushAll(stack, segs) == Some(stack + segs)
    decreases |segs|
  {
    if segs == [] {
      assert stack + segs == stack;
    } else {
      assert Plain(segs[0]);
      assert AllPlain(segs[1..]);
      PushPlainAll(stack + [segs[0]], segs[1..]);
      assert stack + [segs[0]] + segs[1..] == stack + segs;
    }
  }

  /** A normalised path is canonical, and it is the rendering of the path's segment stack. */
  lemma NormalizeIsCanonical(path: string, capacity: nat)
    requires Normalize(path, capacity).Some?
    ensures Canonical(Normalize(path, capacity).value)
    ensures PushAll([], Segments(path)).Some? && AllPlain(PushAll([], Segments(path)).value)
    ensures Normalize(path, capacity).value == Render(PushAll([], Segments(path)).value)
    ensures Segments(Normalize(path, capacity).value) == PushAll([], Segments(path)).value
  {
    SegmentsHaveNoSlash(path);
    StackIsPlain([], Segments(path));
    SplitRender(PushAll([], Segments(path)).value);
    hide Segments, PushAll;
  }

  /** A canonical path that fits is left as it is. */
  lemma CanonicalIsFixed(path: string, capacity: nat)
    requires Canonical(path) && 2 <= capacity && |path| < capacity
    ensures Normalize(path, capacity) == Some(path)
  {
    var stack :| AllPlain(stack) && |stack| <= MAX_SEGMENTS && path == Render(stack);
    SplitRender(stack);
    PushPlainAll([], stack);
    assert [] + stack == stack;
    hide Segments, PushAll;
  }

  /** Normalising twice is normalising once. */
  lemma NormalizeIdempotent(path: string, capacity: nat)
    requires Normalize(path, capacity).Some?
    ensures Normalize(Normalize(path, capacity).value, capacity) == Normalize(path, capacity)
  {
    NormalizeIsCanonical(path, capacity);
    hide Canonical;
    CanonicalIsFixed(Normalize(path, capacity).value, capacity);
  }

  /** Two paths normalise alike exactly when their stacks are the same. */
  lemma NormalizeIdentifiesStacks(a: string, b: string, capacity: nat)
    requires Normalize(a, capacity).Some? && Normalize(b, capacity).Some?
    ensures Normalize(a, capacity) == Normalize(b, capacity) <==> PushAll([], Segments(a)) == PushAll([], Segments(b))
  {
    NormalizeIsCanonical(a, capacity);
    NormalizeIsCanonical(b, capacity);
    hide Segments, PushAll, Canonical;
  }
}
