/** The loops over path text: splitting off segments and folding them to 8.3 names. */
module FatWalks {
  import opened Common
  import opened Bytes
  import opened FatSlots
  import opened FatPaths

  /** Folds at most `n` characters to upper case; fails on a character or a length 8.3 does not allow. */
  method FoldPart(s: string, n: nat) returns (r: Option<seq<byte>>)
    ensures r.Some? <==> |s| <= n && AllValid(s)
    ensures r.Some? ==> |r.value| == n && forall i :: 0 <= i < n ==> r.value[i] == if i < |s| then ToUpper(s[i]) as int else BLANK
  {
    var out: seq<byte> := seq(n, i => BLANK);
    var i := 0;
    while i < |s| && i < n
      invariant i <= |s| && i <= n && |out| == n
      invariant forall j :: 0 <= j < i ==> IsValidChar(ToUpper(s[j]))
      invariant forall j :: 0 <= j < n ==> out[j] == if j < i then ToUpper(s[j]) as int else BLANK
    {
      var c := ToUpper(s[i]);
      if !IsValidChar(c) {
        return None;
      }
      out := out[i := c as int];
      i := i + 1;
    }
    if i < |s| {
      return None;
    }
    return Some(out);
  }

  /** Index of the last occurrence of `c`, or -1. */
  method FindLast(s: string, c: char) returns (r: int)
    ensures r == LastIndex(s, c, |s|)
  {
    r := -1;
    var i := 0;
    while i < |s|
      invariant i <= |s| && r == LastIndex(s, c, i)
    {
      if s[i] == c {
        r := i;
      }
      i := i + 1;
    }
  }

  /** The 8.3 name of a segment: the text before the last dot and the text after it. */
  method MakeShortName(segment: string) returns (r: Option<ShortName>)
    ensures r == ShortNameOf(segment)
  {
    var dot := FindLast(segment, '.');
    var base := if dot >= 0 then segment[..dot] else segment;
    var ext := if dot >= 0 then segment[dot + 1..] else [];
    var head := FoldPart(base, 8);
    if head.None? {
      return None;
    }
    var tail := FoldPart(ext, 3);
    if tail.None? || |base| == 0 {
      return None;
    }
    assert head.value == Padded(base, 8) && tail.value == Padded(ext, 3);
    return Some(head.value + tail.value);
  }

  method CheckSegment(s: string) returns (ok: bool)
    ensures ok == ValidSegment(s)
  {
    if s == [] {
      return false;
    }
    var i := 0;
    while i < |s|
      invariant i <= |s| && forall j :: 0 <= j < i ==> s[j] == '.' || IsValidChar(ToUpper(s[j]))
    {
      if s[i] != '.' && !IsValidChar(ToUpper(s[i])) {
        return false;
      }
      i := i + 1;
    }
    return true;
  }

  method PrepareShortName(s: string) returns (r: Option<ShortName>)
    ensures r == PrepareName(s)
  {
    hide ShortNameOf, ValidSegment;
    var ok := CheckSegment(s);
    if !ok {
      return None;
    }
    r := MakeShortName(s);
  }

  /** A run of non-slashes has its end where the slash or the text ends. */
  lemma {:induction false} SegmentEndAt(path: string, i: nat, end: nat)
    requires i <= end <= |path| && forall j :: i <= j < end ==> path[j] != '/'
    requires end == |path| || path[end] == '/'
    ensures SegmentEnd(path, i) == end
    decreases end - i
  {
    if i < end {
      SegmentEndAt(path, i + 1, end);
    }
  }

  lemma {:induction false} SegmentEndBeyond(path: string, i: nat, end: nat)
    requires i <= end < |path| && forall j :: i <= j <= end ==> path[j] != '/'
    ensures SegmentEnd(path, i) > end
    decreases end - i
  {
    if i < end {
      SegmentEndBeyond(path, i + 1, end);
    }
  }

  /** Splits off the next segment, giving up as soon as it does not fit its buffer. */
  method NextPathSegment(path: string, start: nat) returns (r: Segment)
    requires start <= |path|
    ensures r == NextSegment(path, start)
  {
    var i := start;
    while i < |path| && path[i] == '/'
      invariant start <= i <= |path| && SkipSlashes(path, start) == SkipSlashes(path, i)
    {
      i := i + 1;
    }
    if i == |path| {
      return Done;
    }
    var first := i;
    while i < |path| && path[i] != '/'
      invariant first <= i <= |path| && i - first <= MAX_SEGMENT
      invariant forall j :: first <= j < i ==> path[j] != '/'
    {
      if i - first >= MAX_SEGMENT {
        SegmentEndBeyond(path, first, i);
        return Overlong;
      }
      i := i + 1;
    }
    SegmentEndAt(path, first, i);
    return Segment(path[first..i], i);
  }
}
