/**
 When paths that normalise alike are also dispatched alike.  Aliases are matched against the text
 of a path, so the answer is not always; it depends on the aliases the two texts go through and
 on how far the rest behind an alias climbs above it.
 */
module VfsAliasPaths {
  import opened Common
  import opened VfsPaths
  import opened VfsMounts
  import opened VfsAliases

  // ---------------------------------------------------------------- how far a path climbs

  /** A stack without its last `m` segments; the root stays the root. */
  function Cut(stack: seq<string>, m: nat): seq<string> {
    if m >= |stack| then [] else stack[..|stack| - m]
  }

  /** How many segments are taken off what was there before, and what is put behind the rest of it. */
  function Reduced(m: nat, tail: seq<string>, segs: seq<string>): (nat, seq<string>)
    decreases |segs|
  {
    if segs == [] then (m, tail)
    else if segs[0] == "." then Reduced(m, tail, segs[1..])
    else if segs[0] == ".." then if tail == [] then Reduced(m + 1, [], segs[1..]) else Reduced(m, tail[..|tail| - 1], segs[1..])
    else Reduced(m, tail + [segs[0]], segs[1..])
  }

  function Climb(segs: seq<string>): nat { Reduced(0, [], segs).0 }

  function Tail(segs: seq<string>): seq<string> { Reduced(0, [], segs).1 }

  lemma CutOnce(stack: seq<string>, m: nat)
    ensures Cut(stack, m + 1) == if Cut(stack, m) == [] then [] else Cut(stack, m)[..|Cut(stack, m)| - 1]
  {
  }

  lemma DropLast(a: seq<string>, b: seq<string>)
    requires b != []
    ensures a + b != [] && (a + b)[..|a + b| - 1] == a + b[..|b| - 1]
  {
  }

  lemma {:induction false} PushReduced(base: seq<string>, m: nat, tail: seq<string>, segs: seq<string>)
    requires PushAll(Cut(base, m) + tail, segs).Some?
    ensures var r := Reduced(m, tail, segs); PushAll(Cut(base, m) + tail, segs).value == Cut(base, r.0) + r.1
    decreases |segs|
  {
    if segs != [] {
      var stack := Cut(base, m) + tail;
      if segs[0] == "." {
        PushReduced(base, m, tail, segs[1..]);
      } else if segs[0] == ".." {
        if tail == [] {
          assert Cut(base, m) + [] == Cut(base, m);
          CutOnce(base, m);
          assert Cut(base, m + 1) + [] == Cut(base, m + 1);
          PushReduced(base, m + 1, [], segs[1..]);
        } else {
          DropLast(Cut(base, m), tail);
          PushReduced(base, m, tail[..|tail| - 1], segs[1..]);
        }
      } else {
        assert stack + [segs[0]] == Cut(base, m) + (tail + [segs[0]]);
        PushReduced(base, m, tail + [segs[0]], segs[1..]);
      }
    }
  }

  /** Segments pushed on a stack take some off and put some on, the same for every stack. */
  lemma PushIsCutAndTail(base: seq<string>, segs: seq<string>)
    requires PushAll(base, segs).Some?
    ensures PushAll(base, segs).value == Cut(base, Climb(segs)) + Tail(segs)
  {
    assert Cut(base, 0) + [] == base;
    hide PushAll, Reduced, Cut;
    PushReduced(base, 0, [], segs);
  }

  lemma {:induction false} PushConcat(stack: seq<string>, a: seq<string>, b: seq<string>)
    requires AllPlain(a) && |stack| + |a| <= MAX_SEGMENTS
    ensures PushAll(stack, a + b) == PushAll(stack + a, b)
    decreases |a|
  {
    if a == [] {
      assert a + b == b && stack + a == stack;
    } else {
      assert Plain(a[0]);
      assert AllPlain(a[1..]);
      assert (a + b)[1..] == a[1..] + b && (a + b)[0] == a[0];
      PushConcat(stack + [a[0]], a[1..], b);
      assert stack + [a[0]] + a[1..] == stack + a;
    }
  }

  lemma {:induction false} PlainReduced(tail: seq<string>, segs: seq<string>)
    requires AllPlain(segs)
    ensures Reduced(0, tail, segs) == (0, tail + segs)
    decreases |segs|
  {
    if segs == [] {
      assert tail + segs == tail;
    } else {
      assert Plain(segs[0]);
      assert AllPlain(segs[1..]);
      PlainReduced(tail + [segs[0]], segs[1..]);
      assert tail + [segs[0]] + segs[1..] == tail + segs;
    }
  }

  // ---------------------------------------------------------------- the route of a path

  /** The alias a path is replaced through; one whose result would be too long does not count. */
  function Through(aliases: Aliases, path: string): (r: Option<nat>)
    ensures r.Some? ==> r.value < |aliases| && aliases[r.value].Some? && Starts(aliases[r.value].value, path)
  {
    var i := FirstMatch(aliases, path, 0);
    if i.None? || |Substituted(aliases[i.value].value, path)| + 1 >= MAX_PATH then None else i
  }

  /** What stands in front of a path, and what it is replaced with. */
  datatype Route = Route(from: seq<string>, to: seq<string>)

  /** The alias a path goes through, less the segments its rest climbs above; nothing in front if there is none. */
  function RouteOf(aliases: Aliases, path: string): Route {
    var i := Through(aliases, path);
    if i.None? then Route([], [])
    else
      var alias := aliases[i.value].value;
      var m := Climb(Segments(path[|alias.from|..]));
      Route(Cut(Segments(alias.from), m), Cut(Segments(alias.to), m))
  }

  /** One route goes on where the other one leads. */
  ghost predicate Continues(a: Route, b: Route) {
    |a.from| <= |b.from| && b.from[..|a.from|] == a.from && b.to == a.to + b.from[|a.from|..]
  }

  ghost predicate SameWay(a: Route, b: Route) {
    Continues(a, b) || Continues(b, a)
  }

  lemma AliasStacks(aliases: Aliases, i: nat)
    requires AliasesOk(aliases) && i < |aliases| && aliases[i].Some?
    ensures var alias := aliases[i].value;
      && AllPlain(Segments(alias.from)) && |Segments(alias.from)| <= MAX_SEGMENTS && Segments(alias.from) != [] && alias.from == Render(Segments(alias.from))
      && AllPlain(Segments(alias.to)) && |Segments(alias.to)| <= MAX_SEGMENTS && alias.to == Render(Segments(alias.to))
      && Segments(alias.from) != Segments(alias.to)
  {
    var alias := aliases[i].value;
    assert Canonical(alias.from) && Canonical(alias.to) && |alias.from| > 1 && alias.from != alias.to;
    CanonicalStack(alias.from);
    CanonicalStack(alias.to);
    hide AliasesOk, Canonical;
  }

  lemma CanonicalStack(text: string)
    requires Canonical(text)
    ensures AllPlain(Segments(text)) && |Segments(text)| <= MAX_SEGMENTS && text == Render(Segments(text))
    ensures |text| > 1 ==> Segments(text) != []
  {
    var stack :| AllPlain(stack) && |stack| <= MAX_SEGMENTS && text == Render(stack);
    SplitRender(stack);
    hide Segments, AllPlain;
  }

  /** Before and after the replacement, a path is its route and the same tail. */
  lemma RouteLeads(aliases: Aliases, path: string) returns (tail: seq<string>)
    requires AliasesOk(aliases) && Normalize(path, MAX_PATH).Some? && Normalize(Resolved(aliases, path), MAX_PATH).Some?
    ensures PushAll([], Segments(path)) == Some(RouteOf(aliases, path).from + tail)
    ensures PushAll([], Segments(Resolved(aliases, path))) == Some(RouteOf(aliases, path).to + tail)
  {
    hide *;
    NormalizeIsCanonical(path, MAX_PATH);
    NormalizeIsCanonical(Resolved(aliases, path), MAX_PATH);
    var i := Through(aliases, path);
    RouteIs(aliases, path);
    if i.None? {
      tail := PushAll([], Segments(path)).value;
      assert [] + tail == tail;
    } else {
      var alias := aliases[i.value].value;
      AliasStacks(aliases, i.value);
      AliasIs(aliases, i.value);
      SubstitutesNames(alias, path);
      StartsIs(alias, path);
      var rest := Segments(path[|alias.from|..]);
      tail := Tail(rest);
      PushConcat([], Segments(alias.from), rest);
      PushConcat([], Segments(alias.to), rest);
      assert [] + Segments(alias.from) == Segments(alias.from) && [] + Segments(alias.to) == Segments(alias.to);
      PushIsCutAndTail(Segments(alias.from), rest);
      PushIsCutAndTail(Segments(alias.to), rest);
    }
  }

  lemma RouteIs(aliases: Aliases, path: string)
    ensures var i := Through(aliases, path);
      if i.None? then RouteOf(aliases, path) == Route([], []) && Resolved(aliases, path) == path
      else
        var alias := aliases[i.value].value;
        && |alias.from| <= |path| && Resolved(aliases, path) == Substituted(alias, path)
        && RouteOf(aliases, path) == (var m := Climb(Segments(path[|alias.from|..])); Route(Cut(Segments(alias.from), m), Cut(Segments(alias.to), m)))
  {
    hide Segments, Climb, Cut, FirstMatch, Substituted;
  }

  lemma AliasIs(aliases: Aliases, i: nat)
    requires AliasesOk(aliases) && i < |aliases| && aliases[i].Some?
    ensures Canonical(aliases[i].value.from) && Canonical(aliases[i].value.to) && |aliases[i].value.from| > 1
  {
    hide Canonical;
  }

  /** Two ways to write one stack give the same stack after the replacement exactly when the routes fit together. */
  lemma RoutesFit(a: Route, s: seq<string>, b: Route, t: seq<string>)
    requires a.from + s == b.from + t
    ensures a.to + s == b.to + t <==> SameWay(a, b)
  {
    if |a.from| <= |b.from| {
      OneWay(a, s, b, t);
      if Continues(b, a) {
        assert a.from == b.from + a.from[|b.from|..];
        assert a.from == b.from && a.to == b.to + [];
      }
    } else {
      OneWay(b, t, a, s);
      assert !Continues(a, b);
    }
  }

  lemma OneWay(a: Route, s: seq<string>, b: Route, t: seq<string>)
    requires a.from + s == b.from + t && |a.from| <= |b.from|
    ensures a.to + s == b.to + t <==> Continues(a, b)
  {
    var n := |b.from| - |a.from|;
    assert b.from == (b.from + t)[..|b.from|] && a.from == (a.from + s)[..|a.from|];
    assert b.from[..|a.from|] == a.from;
    assert t == (b.from + t)[|b.from|..] && s == (a.from + s)[|a.from|..];
    assert s == s[..n] + t && s[..n] == b.from[|a.from|..];
    assert a.to + s == (a.to + s[..n]) + t;
    if a.to + s == b.to + t {
      assert a.to + s[..n] == (a.to + s)[..|b.to|];
    }
  }

  /**
   Paths that normalise alike are dispatched alike if and only if the aliases they go through, less
   what their rests climb above, are the same or one continues the other.
   */
  lemma AlikeIff(aliases: Aliases, p: string, q: string)
    requires AliasesOk(aliases) && Normalize(p, MAX_PATH).Some? && Normalize(p, MAX_PATH) == Normalize(q, MAX_PATH)
    requires Normalize(Resolved(aliases, p), MAX_PATH).Some? && Normalize(Resolved(aliases, q), MAX_PATH).Some?
    ensures Normalize(Resolved(aliases, p), MAX_PATH) == Normalize(Resolved(aliases, q), MAX_PATH)
      <==> SameWay(RouteOf(aliases, p), RouteOf(aliases, q))
  {
    hide *;
    var s := RouteLeads(aliases, p);
    var t := RouteLeads(aliases, q);
    NormalizeIdentifiesStacks(p, q, MAX_PATH);
    NormalizeIdentifiesStacks(Resolved(aliases, p), Resolved(aliases, q), MAX_PATH);
    RoutesFit(RouteOf(aliases, p), s, RouteOf(aliases, q), t);
  }

  /** Without dots nothing climbs: the route is the alias itself. */
  lemma PlainRoute(aliases: Aliases, path: string)
    requires AliasesOk(aliases) && AllPlain(Segments(path))
    ensures var i := Through(aliases, path);
      i.Some? ==> RouteOf(aliases, path) == Route(Segments(aliases[i.value].value.from), Segments(aliases[i.value].value.to))
  {
    hide *;
    RouteIs(aliases, path);
    var i := Through(aliases, path);
    if i.Some? {
      var alias := aliases[i.value].value;
      AliasIs(aliases, i.value);
      SubstitutesNames(alias, path);
      var a, rest := Segments(alias.from), Segments(path[|alias.from|..]);
      PlainRest(a, rest);
      PlainReduced([], rest);
      NothingCut(a, Segments(alias.to), rest);
    }
  }

  lemma PlainRest(a: seq<string>, b: seq<string>)
    requires AllPlain(a + b)
    ensures AllPlain(b)
  {
    AllPlainPart(a + b, |a|);
    assert (a + b)[|a|..] == b;
  }

  lemma NothingCut(a: seq<string>, b: seq<string>, rest: seq<string>)
    requires Reduced(0, [], rest) == (0, [] + rest)
    ensures Climb(rest) == 0 && Cut(a, 0) == a && Cut(b, 0) == b
  {
  }

  /**
   Paths without dot segments: through the same alias, or both through none, they are dispatched
   alike; with an alias for one of them only they never are; through two different aliases they are
   if and only if one alias continues the other.
   */
  lemma PlainAlikeIff(aliases: Aliases, p: string, q: string)
    requires AliasesOk(aliases) && Normalize(p, MAX_PATH).Some? && Normalize(p, MAX_PATH) == Normalize(q, MAX_PATH)
    requires Normalize(Resolved(aliases, p), MAX_PATH).Some? && Normalize(Resolved(aliases, q), MAX_PATH).Some?
    requires AllPlain(Segments(p)) && AllPlain(Segments(q))
    ensures var i, j := Through(aliases, p), Through(aliases, q);
      var alike := Normalize(Resolved(aliases, p), MAX_PATH) == Normalize(Resolved(aliases, q), MAX_PATH);
      && (i == j ==> alike)
      && (i.None? != j.None? ==> !alike)
      && (i.Some? && j.Some? ==> (alike <==> SameWay(Whole(aliases[i.value].value), Whole(aliases[j.value].value))))
  {
    hide *;
    AlikeIff(aliases, p, q);
    PlainRoute(aliases, p);
    PlainRoute(aliases, q);
    RouteIs(aliases, p);
    RouteIs(aliases, q);
    var i, j := Through(aliases, p), Through(aliases, q);
    if i.Some? {
      AliasStacks(aliases, i.value);
      WaysOf(aliases[i.value].value);
    }
    if j.Some? {
      AliasStacks(aliases, j.value);
      WaysOf(aliases[j.value].value);
    }
    NoWay();
  }

  function Whole(alias: Alias): Route { Route(Segments(alias.from), Segments(alias.to)) }

  lemma WaysOf(alias: Alias)
    requires Segments(alias.from) != Segments(alias.to)
    ensures Whole(alias) == Route(Segments(alias.from), Segments(alias.to))
    ensures SameWay(Whole(alias), Whole(alias)) && !SameWay(Route([], []), Whole(alias)) && !SameWay(Whole(alias), Route([], []))
  {
    hide Segments;
    var a := Whole(alias);
    assert a.to == a.to + a.from[|a.from|..];
    assert [] + a.from[0..] == a.from;
  }

  lemma NoWay()
    ensures SameWay(Route([], []), Route([], []))
  {
    assert Continues(Route([], []), Route([], []));
  }

  // ---------------------------------------------------------------- inputs

  /** The table before anything is registered. */
  function Unused(): Aliases {
    seq(MAX_ALIASES, i => None)
  }

  lemma UnusedOk()
    ensures AliasesOk(Unused())
  {
  }

  lemma NamesOf()
    ensures Segments("/a") == ["a"] && Segments("//a") == ["a"] && Segments("/c") == ["c"] && Segments("/x/y") == ["x", "y"]
    ensures Segments("/a/../c") == ["a", "..", "c"] && Segments("/x/y/../c") == ["x", "y", "..", "c"]
  {
    hide *;
    Name("a", "", "/a");
    Name("c", "", "/c");
    Name("y", "", "/y");
    Name("x", "/y", "/x/y");
    Name("..", "/c", "/../c");
    Name("a", "/../c", "/a/../c");
    Name("y", "/../c", "/y/../c");
    Name("x", "/y/../c", "/x/y/../c");
    SlashIgnored("//a");
    assert "//a"[1..] == "/a";
  }

  lemma Name(seg: string, rest: string, text: string)
    requires seg != [] && (forall i :: 0 <= i < |seg| ==> seg[i] != '/') && (rest == [] || rest[0] == '/') && text == "/" + seg + rest
    ensures Segments(text) == [seg] + Segments(rest) && Segments("") == []
  {
    SegmentsStep(seg, rest);
  }

  lemma Down(stack: seq<string>, seg: string, rest: seq<string>, next: seq<string>, segs: seq<string>)
    requires |seg| == 1 && seg[0] != '.' && |stack| < 4 && next == stack + [seg] && segs == [seg] + rest
    ensures PushAll(stack, segs) == PushAll(next, rest)
  {
    assert segs[1..] == rest;
  }

  lemma Up(stack: seq<string>, rest: seq<string>, next: seq<string>, segs: seq<string>)
    requires stack != [] && next == stack[..|stack| - 1] && segs == [".."] + rest
    ensures PushAll(stack, segs) == PushAll(next, rest)
  {
    assert segs[1..] == rest;
  }

  lemma Done(stack: seq<string>)
    ensures PushAll(stack, []) == Some(stack)
  {
  }

  lemma StacksOf()
    ensures PushAll([], ["a"]) == Some(["a"]) && PushAll([], ["c"]) == Some(["c"]) && PushAll([], ["x", "y"]) == Some(["x", "y"])
    ensures PushAll([], ["a", "..", "c"]) == Some(["c"]) && PushAll([], ["x", "y", "..", "c"]) == Some(["x", "c"])
  {
    hide *;
    Down([], "a", [], ["a"], ["a"]);
    Done(["a"]);
    Down([], "c", [], ["c"], ["c"]);
    Done(["c"]);
    Down([], "x", ["y"], ["x"], ["x", "y"]);
    Down(["x"], "y", [], ["x", "y"], ["y"]);
    Done(["x", "y"]);
    Down([], "a", ["..", "c"], ["a"], ["a", "..", "c"]);
    Up(["a"], ["c"], [], ["..", "c"]);
    Down([], "x", ["y", "..", "c"], ["x"], ["x", "y", "..", "c"]);
    Down(["x"], "y", ["..", "c"], ["x", "y"], ["y", "..", "c"]);
    Up(["x", "y"], ["c"], ["x"], ["..", "c"]);
    Down(["x"], "c", [], ["x", "c"], ["c"]);
    Done(["x", "c"]);
  }

  lemma TextsOf()
    ensures Render(["a"]) == "/a" && Render(["c"]) == "/c" && Render(["x", "y"]) == "/x/y" && Render(["x", "c"]) == "/x/c"
  {
    assert ["a"][1..] == [] && ["c"][1..] == [] && ["x", "y"][1..] == ["y"] && ["x", "c"][1..] == ["c"] && ["y"][1..] == [];
    assert Join(["y"]) == "/y" && Join(["c"]) == "/c";
  }

  lemma Normals()
    ensures Normalize("/a", MAX_PATH) == Some("/a") && Normalize("//a", MAX_PATH) == Some("/a") && Normalize("/c", MAX_PATH) == Some("/c")
    ensures Normalize("/x/y", MAX_PATH) == Some("/x/y") && Normalize("/a/../c", MAX_PATH) == Some("/c")
    ensures Normalize("/x/y/../c", MAX_PATH) == Some("/x/c")
  {
    NamesOf();
    StacksOf();
    TextsOf();
    hide Segments, PushAll, Render;
  }

  /** What registering "/a" for "/x/y" in the empty table gives. */
  lemma Registered()
    ensures Register(Unused(), "/a", "/x/y") == Some(Unused()[0 := Some(Alias("/a", "/x/y"))])
  {
    Normals();
    hide Normalize;
    assert NamedSlot(Unused(), "/a", 0).None?;
    assert UnusedSlot(Unused(), 0) == Some(0);
  }

  lemma OnlyAlias(path: string)
    ensures var alias := Alias("/a", "/x/y");
      Resolved(Unused()[0 := Some(alias)], path) ==
        if Starts(alias, path) && |Substituted(alias, path)| + 1 < MAX_PATH then Substituted(alias, path) else path
  {
    var alias := Alias("/a", "/x/y");
    var aliases := Unused()[0 := Some(alias)];
    if Starts(alias, path) {
      assert FirstMatch(aliases, path, 0) == Some(0);
    } else {
      assert FirstMatch(aliases, path, 0).None?;
    }
  }

  lemma Texts()
    ensures var alias := Alias("/a", "/x/y");
      && Starts(alias, "/a") && Substituted(alias, "/a") == "/x/y" && !Starts(alias, "//a") && !Starts(alias, "/c")
      && Starts(alias, "/a/../c") && Substituted(alias, "/a/../c") == "/x/y/../c"
  {
    assert "/a"[..2] == "/a" && "/a"[2..] == "" && "//a"[..2] == "//" && "/c"[..2] == "/c";
    assert "/a/../c"[..2] == "/a" && "/a/../c"[2..] == "/../c" && "/../c"[1..] == "../c";
    assert "/x/y" + "/" + "../c" == "/x/y/../c";
  }

  /**
   With "/a" registered for "/x/y": "//a" stands for "/a" and is not replaced; "/a/../c" stands for
   "/c" and is replaced, and the rest climbs above the target instead.
   */
  lemma AliasSeesText()
    ensures var r := Register(Unused(), "/a", "/x/y");
      && r.Some? && AliasesOk(r.value)
      && Normalize("//a", MAX_PATH) == Normalize("/a", MAX_PATH)
      && Normalize(Resolved(r.value, "/a"), MAX_PATH) == Some("/x/y") && Normalize(Resolved(r.value, "//a"), MAX_PATH) == Some("/a")
      && Normalize("/a/../c", MAX_PATH) == Normalize("/c", MAX_PATH)
      && Normalize(Resolved(r.value, "/c"), MAX_PATH) == Some("/c") && Normalize(Resolved(r.value, "/a/../c"), MAX_PATH) == Some("/x/c")
  {
    hide *;
    UnusedOk();
    Registered();
    RegisterKeeps(Unused(), "/a", "/x/y");
    Normals();
    Texts();
    Limits();
    OnlyAlias("/a");
    OnlyAlias("//a");
    OnlyAlias("/c");
    OnlyAlias("/a/../c");
  }

  lemma Limits()
    ensures |"/x/y"| + 1 < MAX_PATH && |"/x/y/../c"| + 1 < MAX_PATH
  {
  }
}
