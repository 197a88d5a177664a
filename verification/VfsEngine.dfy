/** Path normalisation into a character buffer, and the mount table as it is searched and filled. */
module VfsEngine {
  import opened Common
  import opened VfsPaths
  import opened VfsMounts
  import opened VfsAliases

  /** The segment table: where each segment of the stack lies in the input. */
  ghost predicate Marks(input: string, starts: seq<nat>, lengths: seq<nat>, stack: seq<string>) {
    && |starts| == |lengths| == MAX_SEGMENTS && |stack| <= MAX_SEGMENTS
    && forall k :: 0 <= k < |stack| ==> starts[k] + lengths[k] <= |input| && stack[k] == input[starts[k]..starts[k] + lengths[k]]
  }

  lemma SkipSlash(input: string, i: nat)
    requires i < |input| && input[i] == '/'
    ensures Segments(input[i..]) == Segments(input[i + 1..])
  {
    assert input[i..][1..] == input[i + 1..];
  }

  lemma TakeSegment(input: string, start: nat, i: nat)
    requires start < i <= |input| && (forall j :: start <= j < i ==> input[j] != '/') && (i == |input| || input[i] == '/')
    ensures Segments(input[start..]) == [input[start..i]] + Segments(input[i..])
  {
    var s := input[start..];
    LeadIs(s, i - start);
    assert s[..i - start] == input[start..i] && s[i - start..] == input[i..];
  }

  lemma PushStep(stack: seq<string>, seg: string, rest: seq<string>)
    ensures PushAll(stack, [seg] + rest) == if Push(stack, seg).None? then None else PushAll(Push(stack, seg).value, rest)
  {
    assert ([seg] + rest)[1..] == rest;
  }

  /** Adds a segment to the table. */
  lemma MarkPushed(input: string, starts: seq<nat>, lengths: seq<nat>, stack: seq<string>, start: nat, i: nat)
    requires Marks(input, starts, lengths, stack) && |stack| < MAX_SEGMENTS && start <= i <= |input|
    ensures Marks(input, starts[|stack| := start], lengths[|stack| := i - start], stack + [input[start..i]])
  {
  }

  lemma MarkPopped(input: string, starts: seq<nat>, lengths: seq<nat>, stack: seq<string>)
    requires Marks(input, starts, lengths, stack) && stack != []
    ensures Marks(input, starts, lengths, stack[..|stack| - 1])
  {
  }

  lemma JoinNext(stack: seq<string>, k: nat)
    requires k < |stack|
    ensures Join(stack[..k + 1]) == Join(stack[..k]) + "/" + stack[k]
    ensures |Join(stack)| >= |Join(stack[..k + 1])|
  {
    assert stack[..k + 1] == stack[..k] + [stack[k]];
    JoinConcat(stack[..k], [stack[k]]);
    assert [stack[k]][1..] == [] && Join([stack[k]]) == "/" + stack[k];
    assert stack == stack[..k + 1] + stack[k + 1..];
    JoinConcat(stack[..k + 1], stack[k + 1..]);
  }

  lemma MarksNone(input: string, starts: seq<nat>, lengths: seq<nat>)
    requires |starts| == |lengths| == MAX_SEGMENTS
    ensures Marks(input, starts, lengths, [])
  {
  }

  lemma PushCases(stack: seq<string>, seg: string)
    ensures seg == "." ==> Push(stack, seg) == Some(stack)
    ensures seg == ".." ==> Push(stack, seg) == Some(if stack == [] then [] else stack[..|stack| - 1])
    ensures seg != "." && seg != ".." ==> Push(stack, seg) == if |stack| >= MAX_SEGMENTS then None else Some(stack + [seg])
  {
  }

  method PastSlashes(input: string, from: nat) returns (i: nat)
    requires from <= |input|
    ensures from <= i <= |input| && Segments(input[i..]) == Segments(input[from..]) && (i < |input| ==> input[i] != '/')
  {
    i := from;
    while i < |input| && input[i] == '/'
      invariant from <= i <= |input| && Segments(input[i..]) == Segments(input[from..])
    {
      SkipSlash(input, i);
      i := i + 1;
    }
  }

  method SegmentStop(input: string, start: nat) returns (i: nat)
    requires start < |input| && input[start] != '/'
    ensures start < i <= |input| && (forall j :: start <= j < i ==> input[j] != '/') && (i == |input| || input[i] == '/')
  {
    i := start;
    while i < |input| && input[i] != '/'
      invariant start <= i <= |input| && forall j :: start <= j < i ==> input[j] != '/'
    {
      i := i + 1;
    }
  }

  lemma DotsAre(input: string, start: nat, i: nat)
    requires start < i <= |input|
    ensures input[start..i] == "." <==> i - start == 1 && input[start] == '.'
    ensures input[start..i] == ".." <==> i - start == 2 && input[start] == '.' && input[start + 1] == '.'
  {
    var seg := input[start..i];
    if i - start == 2 {
      assert seg == [input[start], input[start + 1]];
    }
  }

  /** Splits the input and resolves its segments; false if the stack overflows. */
  method SplitPath(input: string, starts: array<nat>, lengths: array<nat>) returns (ok: bool, count: nat, ghost stack: seq<string>)
    requires starts.Length == MAX_SEGMENTS && lengths.Length == MAX_SEGMENTS && starts != lengths
    modifies starts, lengths
    ensures ok ==> PushAll([], Segments(input)) == Some(stack) && count == |stack| && Marks(input, starts[..], lengths[..], stack)
    ensures !ok ==> PushAll([], Segments(input)) == None
  {
    hide *;
    count, stack := 0, [];
    MarksNone(input, starts[..], lengths[..]);
    var i := 0;
    ghost var all := PushAll([], Segments(input));
    assert input[0..] == input;
    while i < |input|
      invariant i <= |input| && count == |stack| && Marks(input, starts[..], lengths[..], stack)
      invariant all == PushAll(stack, Segments(input[i..]))
    {
      i := PastSlashes(input, i);
      if i == |input| {
        break;
      }
      var start := i;
      i := SegmentStop(input, start);
      ghost var seg := input[start..i];
      TakeSegment(input, start, i);
      PushStep(stack, seg, Segments(input[i..]));
      PushCases(stack, seg);
      DotsAre(input, start, i);
      var len := i - start;
      if len == 1 && input[start] == '.' {
      } else if len == 2 && input[start] == '.' && input[start + 1] == '.' {
        if count > 0 {
          MarkPopped(input, starts[..], lengths[..], stack);
          count := count - 1;
          stack := stack[..count];
        }
      } else {
        if count >= MAX_SEGMENTS {
          return false, count, stack;
        }
        MarkPushed(input, starts[..], lengths[..], stack, start, i);
        starts[count] := start;
        lengths[count] := len;
        count := count + 1;
        stack := stack + [seg];
      }
    }
    assert input[i..] == [];
    NothingToPush(stack);
    ok := true;
  }

  lemma NothingToPush(stack: seq<string>)
    ensures PushAll(stack, Segments([])) == Some(stack)
  {
  }

  /** Writes a slash and a segment at position `pos`. */
  method WriteSegment(out: array<char>, pos: nat, input: string, start: nat, len: nat)
    requires pos + len + 1 < out.Length && start + len <= |input|
    modifies out
    ensures out[..pos + len + 1] == old(out[..pos]) + "/" + input[start..start + len]
  {
    ghost var before := out[..pos];
    out[pos] := '/';
    var j := 0;
    while j < len
      invariant j <= len && out[..pos + 1 + j] == before + "/" + input[start..start + j]
    {
      out[pos + 1 + j] := input[start + j];
      assert input[start..start + j + 1] == input[start..start + j] + [input[start + j]];
      j := j + 1;
    }
  }

  /** Writes the canonical form of a path to the buffer; -1 on error, else its length. */
  method NormalizePath(input: string, out: array<char>) returns (n: int)
    modifies out
    ensures n == -1 <==> Normalize(input, out.Length).None?
    ensures n != -1 ==> 0 <= n < out.Length && Normalize(input, out.Length) == Some(out[..n]) && out[n] == '\0'
  {
    hide *;
    NormalizeIs(input, out.Length);
    if out.Length < 2 || |input| == 0 || input[0] != '/' {
      return -1;
    }
    var starts := new nat[MAX_SEGMENTS];
    var lengths := new nat[MAX_SEGMENTS];
    var ok, count, stack := SplitPath(input, starts, lengths);
    if !ok {
      return -1;
    }
    RenderIs(stack);
    if count == 0 {
      out[0], out[1] := '/', '\0';
      assert out[..1] == "/";
      return 1;
    }
    var pos: nat := 0;
    var k := 0;
    JoinEmpty(stack);
    while k < count
      invariant k <= count && pos < out.Length && out[..pos] == Join(stack[..k]) && Marks(input, starts[..], lengths[..], stack)
    {
      JoinNext(stack, k);
      MarksAt(input, starts[..], lengths[..], stack, k);
      var len := lengths[k];
      if pos + len + 1 >= out.Length {
        return -1;
      }
      WriteSegment(out, pos, input, starts[k], len);
      pos := pos + len + 1;
      k := k + 1;
    }
    assert stack[..k] == stack;
    out[pos] := '\0';
    return pos;
  }

  lemma NormalizeIs(path: string, capacity: nat)
    ensures capacity < 2 || path == [] || path[0] != '/' ==> Normalize(path, capacity) == None
    ensures capacity >= 2 && path != [] && path[0] == '/' ==>
      var stack := PushAll([], Segments(path));
      Normalize(path, capacity) == if stack.None? || |Render(stack.value)| >= capacity then None else Some(Render(stack.value))
  {
    hide PushAll, Segments, Render;
  }

  lemma RenderIs(stack: seq<string>)
    ensures Render(stack) == if stack == [] then "/" else Join(stack)
  {
    hide Join;
  }

  lemma MarksAt(input: string, starts: seq<nat>, lengths: seq<nat>, stack: seq<string>, k: nat)
    requires Marks(input, starts, lengths, stack) && k < |stack|
    ensures |starts| == |lengths| == MAX_SEGMENTS && |stack| <= MAX_SEGMENTS
    ensures starts[k] + lengths[k] <= |input| && stack[k] == input[starts[k]..starts[k] + lengths[k]]
  {
  }

  lemma JoinEmpty(stack: seq<string>)
    ensures Join(stack[..0]) == []
  {
  }

  class MountTable {
    const slots: array<Option<Mount>>

    ghost predicate Valid()
      reads this, slots
    {
      slots.Length == MAX_MOUNTS && TableOk(slots[..])
    }

    constructor ()
      ensures Valid() && fresh(slots) && slots[..] == NoMounts()
    {
      slots := new Option<Mount>[MAX_MOUNTS](_ => None);
      new;
      NoMountsOk();
      assert slots[..] == NoMounts();
    }

    /** The slot with the longest matching mount point, and the rest of the path. */
    method ResolveMount(path: string) returns (best: int, relative: string)
      requires Valid()
      ensures if Resolve(slots[..], path).None? then best == -1 else Resolve(slots[..], path) == Some(best)
      ensures best >= 0 ==> best < slots.Length && slots[best].Some? && |slots[best].value.point| <= |path| && relative == Relative(slots[best].value.point, path)
    {
      best := -1;
      var i := 0;
      while i < slots.Length
        invariant i <= slots.Length && -1 <= best < slots.Length && (best >= 0 ==> slots[best].Some? && Covers(slots[best].value.point, path))
        invariant Resolve(slots[..], path) == Search(slots[..], path, i, if best < 0 then None else Some(best))
      {
        if slots[i].Some? && Covers(slots[i].value.point, path) {
          if best < 0 || |slots[i].value.point| > |slots[best].value.point| {
            best := i;
          }
        }
        i := i + 1;
      }
      relative := "";
      if best >= 0 {
        var rest := path[|slots[best].value.point|..];
        relative := if rest != [] && rest[0] == '/' then rest[1..] else rest;
      }
    }

    /** Mounts a file system at a path. */
    method MountAt(path: string, fs: int) returns (ok: bool)
      requires Valid()
      modifies slots
      ensures Valid() && ok == Attach(old(slots[..]), path, fs).Some?
      ensures slots[..] == if ok then Attach(old(slots[..]), path, fs).value else old(slots[..])
    {
      hide Normalize, TableOk;
      var buffer := new char[MAX_PATH];
      var n := NormalizePath(path, buffer);
      if n < 0 {
        return false;
      }
      var point := buffer[..n];
      var i := 0;
      while i < slots.Length
        invariant i <= slots.Length && slots[..] == old(slots[..])
        invariant forall j :: 0 <= j < i && slots[j].Some? ==> slots[j].value.point != point
        modifies {}
      {
        if slots[i].Some? && slots[i].value.point == point {
          assert old(slots[..])[i].value.point == point;
          return false;
        }
        i := i + 1;
      }
      assert !Mounted(old(slots[..]), point);
      i := 0;
      while i < slots.Length && slots[i].Some?
        invariant i <= slots.Length && slots[..] == old(slots[..])
        invariant FreeSlot(old(slots[..]), 0) == FreeSlot(old(slots[..]), i)
        modifies {}
      {
        assert old(slots[..])[i] == slots[i];
        i := i + 1;
      }
      if i == slots.Length {
        return false;
      }
      assert old(slots[..])[i] == slots[i];
      ghost var before := slots[..];
      slots[i] := Some(Mount(point, fs));
      assert slots[..] == before[i := Some(Mount(point, fs))];
      AttachKeeps(before, path, fs);
      return true;
    }
  }

  class AliasTable {
    const slots: array<Option<Alias>>

    ghost predicate Valid()
      reads this, slots
    {
      slots.Length == MAX_ALIASES && AliasesOk(slots[..])
    }

    constructor ()
      ensures Valid() && fresh(slots) && forall i :: 0 <= i < slots.Length ==> slots[i].None?
    {
      slots := new Option<Alias>[MAX_ALIASES](_ => None);
    }

    /** The path with the first matching alias replaced. */
    method ApplyAlias(path: string) returns (r: string)
      requires Valid()
      ensures r == Resolved(slots[..], path)
    {
      hide AliasesOk, Starts, Substituted;
      var i := 0;
      while i < slots.Length
        invariant i <= slots.Length && FirstMatch(slots[..], path, 0) == FirstMatch(slots[..], path, i)
      {
        if slots[i].Some? && Starts(slots[i].value, path) {
          var text := WriteTarget(slots[i].value, path);
          return if |text| + 1 >= MAX_PATH then path else text;
        }
        i := i + 1;
      }
      return path;
    }

    method WriteTarget(alias: Alias, path: string) returns (text: string)
      requires Starts(alias, path)
      ensures text == Substituted(alias, path)
    {
      var suffix := path[|alias.from|..];
      if suffix != [] && suffix[0] == '/' {
        suffix := suffix[1..];
      }
      text := alias.to;
      if suffix != [] && alias.to != [] && alias.to[|alias.to| - 1] != '/' {
        text := text + "/";
      }
      text := text + suffix;
    }

    /** Registers an alias, in the slot of its name or the first unused one. */
    method RegisterAlias(from: string, to: string) returns (ok: bool)
      requires Valid()
      modifies slots
      ensures Valid() && ok == Register(old(slots[..]), from, to).Some?
      ensures slots[..] == if ok then Register(old(slots[..]), from, to).value else old(slots[..])
    {
      hide Normalize, AliasesOk;
      var buffer := new char[MAX_PATH];
      var n := NormalizePath(from, buffer);
      if n < 0 {
        return false;
      }
      var a := buffer[..n];
      n := NormalizePath(to, buffer);
      if n < 0 {
        return false;
      }
      var b := buffer[..n];
      if |a| <= 1 || a == b {
        return false;
      }
      var slot := FindSlot(a);
      if slot < 0 {
        return false;
      }
      ghost var before := slots[..];
      slots[slot] := Some(Alias(a, b));
      assert slots[..] == before[slot := Some(Alias(a, b))];
      RegisterKeeps(before, from, to);
      return true;
    }

    method FindSlot(from: string) returns (slot: int)
      requires slots.Length == MAX_ALIASES
      ensures if SlotFor(slots[..], from).None? then slot == -1 else SlotFor(slots[..], from) == Some(slot)
    {
      slot := -1;
      var i := 0;
      while i < slots.Length
        invariant i <= slots.Length && -1 <= slot < i
        invariant NamedSlot(slots[..], from, 0) == NamedSlot(slots[..], from, i)
        invariant slot < 0 ==> UnusedSlot(slots[..], 0) == UnusedSlot(slots[..], i)
        invariant slot >= 0 ==> UnusedSlot(slots[..], 0) == Some(slot)
      {
        if slots[i].None? {
          if slot < 0 {
            slot := i;
          }
        } else if slots[i].value.from == from {
          return i;
        }
        i := i + 1;
      }
    }
  }
}
