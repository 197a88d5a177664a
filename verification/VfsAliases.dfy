/**
 Aliases: the first registered alias whose name a path begins with is replaced by its target,
 before the path is normalised.
 */
module VfsAliases {
  import opened Common
  import opened VfsPaths
  import opened VfsMounts

  const MAX_ALIASES: nat := 8

  datatype Alias = Alias(from: string, to: string)

  type Aliases = seq<Option<Alias>>

  /** The path begins with the alias's name, and a segment ends there. */
  predicate Starts(alias: Alias, path: string) {
    |alias.from| > 0 && |alias.from| <= |path| && path[..|alias.from|] == alias.from && (|path| == |alias.from| || path[|alias.from|] == '/')
  }

  /** The target followed by the rest of the path, one slash between them. */
  function Substituted(alias: Alias, path: string): string
    requires Starts(alias, path)
  {
    var rest := path[|alias.from|..];
    var suffix := if rest != [] && rest[0] == '/' then rest[1..] else rest;
    var slash := if suffix != [] && alias.to != [] && alias.to[|alias.to| - 1] != '/' then "/" else "";
    alias.to + slash + suffix
  }

  /** The first alias at slot `i` or later that the path starts with. */
  function FirstMatch(aliases: Aliases, path: string, i: nat): (r: Option<nat>)
    requires i <= |aliases|
    ensures r.Some? ==> i <= r.value < |aliases| && aliases[r.value].Some? && Starts(aliases[r.value].value, path)
    ensures r.Some? ==> forall j :: i <= j < r.value && aliases[j].Some? ==> !Starts(aliases[j].value, path)
    ensures r.None? ==> forall j :: i <= j < |aliases| && aliases[j].Some? ==> !Starts(aliases[j].value, path)
    decreases |aliases| - i
  {
    if i == |aliases| then None
    else if aliases[i].Some? && Starts(aliases[i].value, path) then Some(i)
    else FirstMatch(aliases, path, i + 1)
  }

  /** The path to use instead; one that would be too long stays as it is. */
  function Resolved(aliases: Aliases, path: string): string {
    var i := FirstMatch(aliases, path, 0);
    if i.None? then path
    else
      var text := Substituted(aliases[i.value].value, path);
      if |text| + 1 >= MAX_PATH then path else text
  }

  // ---------------------------------------------------------------- the table

  /** Names and targets are canonical, no alias is the root or its own target, and each name is there once. */
  ghost predicate AliasesOk(aliases: Aliases) {
    && |aliases| == MAX_ALIASES
    && (forall i :: 0 <= i < |aliases| && aliases[i].Some? ==>
      Canonical(aliases[i].value.from) && Canonical(aliases[i].value.to) && |aliases[i].value.from| > 1 && aliases[i].value.from != aliases[i].value.to)
    && (forall i, j :: 0 <= i < j < |aliases| && aliases[i].Some? && aliases[j].Some? ==> aliases[i].value.from != aliases[j].value.from)
  }

  function NamedSlot(aliases: Aliases, from: string, i: nat): (r: Option<nat>)
    requires i <= |aliases|
    ensures r.Some? ==> i <= r.value < |aliases| && aliases[r.value].Some? && aliases[r.value].value.from == from
    ensures r.None? ==> forall j :: i <= j < |aliases| && aliases[j].Some? ==> aliases[j].value.from != from
    decreases |aliases| - i
  {
    if i == |aliases| then None
    else if aliases[i].Some? && aliases[i].value.from == from then Some(i)
    else NamedSlot(aliases, from, i + 1)
  }

  function UnusedSlot(aliases: Aliases, i: nat): (r: Option<nat>)
    requires i <= |aliases|
    ensures r.Some? ==> i <= r.value < |aliases| && aliases[r.value].None?
    ensures r.None? ==> forall j :: i <= j < |aliases| ==> aliases[j].Some?
    decreases |aliases| - i
  {
    if i == |aliases| then None else if aliases[i].None? then Some(i) else UnusedSlot(aliases, i + 1)
  }

  /** The slot for a name: its own, else the first unused one. */
  function SlotFor(aliases: Aliases, from: string): (r: Option<nat>)
    ensures r.Some? ==> r.value < |aliases|
  {
    var named := NamedSlot(aliases, from, 0);
    if named.Some? then named else UnusedSlot(aliases, 0)
  }

  /** Registers an alias; a bad path, the root, an alias of itself and a full table are refused. */
  function Register(aliases: Aliases, from: string, to: string): Option<Aliases> {
    var a, b := Normalize(from, MAX_PATH), Normalize(to, MAX_PATH);
    if a.None? || b.None? || |a.value| <= 1 || a.value == b.value then None
    else
      var slot := SlotFor(aliases, a.value);
      if slot.None? then None else Some(aliases[slot.value := Some(Alias(a.value, b.value))])
  }

  /** Registering keeps the table in order; the name has the new target and the others keep theirs. */
  lemma RegisterKeeps(aliases: Aliases, from: string, to: string)
    requires AliasesOk(aliases) && Register(aliases, from, to).Some?
    ensures Normalize(from, MAX_PATH).Some? && Normalize(to, MAX_PATH).Some? && AliasesOk(Register(aliases, from, to).value)
    ensures var r, name := Register(aliases, from, to).value, Normalize(from, MAX_PATH).value;
      && (exists k :: 0 <= k < |r| && r[k] == Some(Alias(name, Normalize(to, MAX_PATH).value)))
      && (forall i :: 0 <= i < |aliases| && aliases[i].Some? && aliases[i].value.from != name ==> r[i] == aliases[i])
  {
    hide *;
    RegisterIs(aliases, from, to);
    NormalizeIsCanonical(from, MAX_PATH);
    NormalizeIsCanonical(to, MAX_PATH);
    var a, b := Normalize(from, MAX_PATH).value, Normalize(to, MAX_PATH).value;
    SlotIs(aliases, a);
    PutAlias(aliases, SlotFor(aliases, a).value, a, b);
  }

  lemma RegisterIs(aliases: Aliases, from: string, to: string)
    requires Register(aliases, from, to).Some?
    ensures Normalize(from, MAX_PATH).Some? && Normalize(to, MAX_PATH).Some?
    ensures var a, b := Normalize(from, MAX_PATH).value, Normalize(to, MAX_PATH).value;
      && |a| > 1 && a != b && SlotFor(aliases, a).Some?
      && Register(aliases, from, to).value == aliases[SlotFor(aliases, a).value := Some(Alias(a, b))]
  {
    hide Normalize, SlotFor;
  }

  lemma SlotIs(aliases: Aliases, from: string)
    requires SlotFor(aliases, from).Some?
    ensures var k := SlotFor(aliases, from).value;
      && k < |aliases|
      && (if aliases[k].Some? then aliases[k].value.from == from else forall j :: 0 <= j < |aliases| && aliases[j].Some? ==> aliases[j].value.from != from)
  {
    hide NamedSlot, UnusedSlot;
  }

  lemma PutAlias(aliases: Aliases, k: nat, a: string, b: string)
    requires AliasesOk(aliases) && k < |aliases| && Canonical(a) && Canonical(b) && |a| > 1 && a != b
    requires if aliases[k].Some? then aliases[k].value.from == a else forall j :: 0 <= j < |aliases| && aliases[j].Some? ==> aliases[j].value.from != a
    ensures var r := aliases[k := Some(Alias(a, b))];
      && AliasesOk(r)
      && (exists j :: 0 <= j < |r| && r[j] == Some(Alias(a, b)))
      && (forall i :: 0 <= i < |aliases| && aliases[i].Some? && aliases[i].value.from != a ==> r[i] == aliases[i])
  {
    hide Canonical;
    var r := aliases[k := Some(Alias(a, b))];
    assert r[k] == Some(Alias(a, b));
  }

  // ---------------------------------------------------------------- what a substitution does

  lemma SplitPrefix(a: seq<string>, path: string)
    requires AllPlain(a) && a != [] && |Render(a)| <= |path| && path[..|Render(a)|] == Render(a)
    requires |path| == |Render(a)| || path[|Render(a)|] == '/'
    ensures Segments(path) == a + Segments(path[|Render(a)|..])
  {
    var rest := path[|Render(a)|..];
    assert path == Join(a) + rest;
    SplitConcat(a, rest);
  }

  lemma SplitJoined(b: seq<string>, suffix: string)
    requires AllPlain(b)
    ensures suffix == "" ==> Segments(Render(b)) == b + Segments("")
    ensures b != [] ==> Segments(Render(b) + "/" + suffix) == b + Segments(suffix)
    ensures b == [] ==> Segments(Render(b) + suffix) == b + Segments(suffix)
  {
    SplitRender(b);
    if b != [] {
      SplitConcat(b, "/" + suffix);
      assert Render(b) + "/" + suffix == Join(b) + ("/" + suffix);
      assert ("/" + suffix)[1..] == suffix;
      SlashIgnored("/" + suffix);
    } else {
      assert ("/" + suffix)[1..] == suffix;
      SlashIgnored("/" + suffix);
    }
    assert Segments("") == [];
    assert b + [] == b;
  }

  lemma LastLetter(b: seq<string>)
    requires AllPlain(b) && b != []
    ensures Join(b) != [] && Join(b)[|Join(b)| - 1] != '/'
    decreases |b|
  {
    assert Plain(b[0]);
    if |b| > 1 {
      AllPlainPart(b, 1);
      LastLetter(b[1..]);
    } else {
      assert b[1..] == [];
    }
  }

  /**
   A path that starts with an alias has the alias's names in front; after the substitution it has
   the target's names in front of the same rest, whatever dots and slashes the rest contains.
   */
  lemma SubstitutesNames(alias: Alias, path: string)
    requires Canonical(alias.from) && Canonical(alias.to) && |alias.from| > 1 && Starts(alias, path)
    ensures var rest := Segments(path[|alias.from|..]);
      && Segments(path) == Segments(alias.from) + rest
      && Segments(Substituted(alias, path)) == Segments(alias.to) + rest
  {
    var a :| AllPlain(a) && |a| <= MAX_SEGMENTS && alias.from == Render(a);
    var b :| AllPlain(b) && |b| <= MAX_SEGMENTS && alias.to == Render(b);
    hide *;
    NotRoot(a);
    SplitRender(a);
    SplitRender(b);
    StartsIs(alias, path);
    SplitPrefix(a, path);
    var rest := path[|alias.from|..];
    SlashIgnored(rest);
    var suffix := if rest != [] && rest[0] == '/' then rest[1..] else rest;
    SplitJoined(b, suffix);
    TargetEnds(b);
    SubstitutedIs(alias, path, suffix);
    assert suffix == "" ==> Render(b) + suffix == Render(b);
  }

  lemma NotRoot(a: seq<string>)
    requires |Render(a)| > 1
    ensures a != []
  {
  }

  lemma StartsIs(alias: Alias, path: string)
    requires Starts(alias, path)
    ensures |alias.from| <= |path| && path[..|alias.from|] == alias.from && (|path| == |alias.from| || path[|alias.from|] == '/')
  {
  }

  /** A canonical text ends with a slash only if it is the root's. */
  lemma TargetEnds(b: seq<string>)
    requires AllPlain(b)
    ensures Render(b) != [] && (Render(b)[|Render(b)| - 1] == '/' <==> b == [])
  {
    hide Plain;
    if b != [] {
      LastLetter(b);
    }
  }

  lemma SubstitutedIs(alias: Alias, path: string, suffix: string)
    requires Starts(alias, path) && |alias.from| <= |path| && alias.to != []
    requires var rest := path[|alias.from|..]; suffix == if rest != [] && rest[0] == '/' then rest[1..] else rest
    ensures suffix == "" ==> Substituted(alias, path) == alias.to
    ensures suffix != "" && alias.to[|alias.to| - 1] != '/' ==> Substituted(alias, path) == alias.to + "/" + suffix
    ensures suffix != "" && alias.to[|alias.to| - 1] == '/' ==> Substituted(alias, path) == alias.to + suffix
  {
  }

  /**
   Dispatch with aliases: the path that is dispatched has the stack of the target's names followed
   by the rest, and goes to the mount with the longest point above that.
   */
  lemma DispatchThroughAlias(aliases: Aliases, table: Table, path: string, i: nat)
    requires AliasesOk(aliases) && TableOk(table) && RootMounted(table)
    requires FirstMatch(aliases, path, 0) == Some(i) && |Substituted(aliases[i].value, path)| + 1 < MAX_PATH
    requires Normalize(Resolved(aliases, path), MAX_PATH).Some?
    ensures var alias, full := aliases[i].value, Normalize(Resolved(aliases, path), MAX_PATH).value;
      var r := Resolve(table, full);
      && r.Some? && Longest(table, full, r.value) && |table[r.value].value.point| <= |full|
      && PushAll([], Segments(alias.to) + Segments(path[|alias.from|..]))
        == Some(Segments(table[r.value].value.point) + Segments(Relative(table[r.value].value.point, full)))
  {
    SubstitutesNames(aliases[i].value, path);
    hide *;
    ResolvedIs(aliases, path, i);
    DispatchRebuilds(table, Resolved(aliases, path));
  }

  lemma ResolvedIs(aliases: Aliases, path: string, i: nat)
    requires FirstMatch(aliases, path, 0) == Some(i) && i < |aliases| && aliases[i].Some? && Starts(aliases[i].value, path)
    requires |Substituted(aliases[i].value, path)| + 1 < MAX_PATH
    ensures Resolved(aliases, path) == Substituted(aliases[i].value, path)
  {
  }

  /** On a canonical path, an alias applies exactly when its name is the path or above it. */
  lemma StartsIffAbove(alias: Alias, a: seq<string>, b: seq<string>)
    requires AllPlain(a) && AllPlain(b) && alias.from == Render(a) && |alias.from| > 1
    ensures Starts(alias, Render(b)) <==> Above(a, b)
  {
    CoversIsAbove(a, b);
    hide Render, AllPlain, Above;
  }
}
