/** Listing a directory of the RAM file system into a bounded buffer. */
module RamfsList {
  import opened Common
  import opened RamfsNames
  import opened RamfsModel

  /** The line of a direct child: its own name, a slash for a directory, a newline. */
  function Line(dir: string, e: Entry): string
    requires ChildOf(dir, e.name)
  {
    ChildName(dir, e.name) + (if e.directory then "/" else "") + "\n"
  }

  /** The lines of all direct children from slot `i` on, in table order. */
  function Lines(table: Table, dir: string, i: nat): seq<string>
    requires i <= |table|
    decreases |table| - i
  {
    if i == |table| then []
    else (if table[i].Some? && ChildOf(dir, table[i].value.name) then [Line(dir, table[i].value)] else []) + Lines(table, dir, i + 1)
  }

  /** The lines that fit, up to the first that does not. */
  function Fit(lines: seq<string>, written: nat, capacity: nat): seq<string>
    decreases |lines|
  {
    if lines == [] || written + |lines[0]| >= capacity then []
    else [lines[0]] + Fit(lines[1..], written + |lines[0]|, capacity)
  }

  function Concat(lines: seq<string>): string {
    if lines == [] then "" else lines[0] + Concat(lines[1..])
  }

  /** The text without its last newline. */
  function Chop(text: string): string {
    if text == "" then "" else text[..|text| - 1]
  }

  predicate Listable(table: Table, dir: string) {
    dir == "" || (ValidName(dir) && IsDirectory(table, dir))
  }

  /** The listing of a directory; none is an error. */
  function List(table: Table, dir: string, capacity: nat): Option<string> {
    if capacity == 0 || !Listable(table, dir) then None
    else Some(Chop(Concat(Fit(Lines(table, dir, 0), 0, capacity))))
  }

  /** The slots of the direct children: the entries whose parent is the directory. */
  function Children(table: Table, dir: string, i: nat): seq<nat>
    requires i <= |table|
    decreases |table| - i
  {
    if i == |table| then []
    else
      var rest := Children(table, dir, i + 1);
      if table[i].None? then rest
      else
        var name := table[i].value.name;
        if (if dir == "" then !HasParent(name) else HasParent(name) && Parent(name) == dir) then [i] + rest else rest
  }

  ghost predicate IsLine(table: Table, dir: string, c: nat, line: string) {
    c < |table| && table[c].Some? && ChildOf(dir, table[c].value.name) && line == Line(dir, table[c].value)
  }

  /** The lines are those of the given slots, in order. */
  ghost predicate LinesOf(table: Table, dir: string, slots: seq<nat>, lines: seq<string>) {
    |lines| == |slots| && forall k :: 0 <= k < |slots| ==> IsLine(table, dir, slots[k], lines[k])
  }

  lemma LinesOfCons(table: Table, dir: string, c: nat, line: string, slots: seq<nat>, lines: seq<string>)
    requires IsLine(table, dir, c, line) && LinesOf(table, dir, slots, lines)
    ensures LinesOf(table, dir, [c] + slots, [line] + lines)
  {
  }

  /** Every line is a direct child, and every direct child has its line, in order. */
  lemma {:induction false} LinesAreChildren(table: Table, dir: string, i: nat)
    requires TableOk(table) && i <= |table|
    ensures LinesOf(table, dir, Children(table, dir, i), Lines(table, dir, i))
    decreases |table| - i
  {
    if i < |table| {
      LinesAreChildren(table, dir, i + 1);
      if table[i].Some? {
        var e := table[i].value;
        assert ValidName(e.name) by { assert EntryOk(table, i); }
        ChildIsParent(dir, e.name);
        hide ChildOf, HasParent, Parent, Line, LinesOf, TableOk;
        if ChildOf(dir, e.name) {
          LinesOfCons(table, dir, i, Line(dir, e), Children(table, dir, i + 1), Lines(table, dir, i + 1));
        }
      }
    }
  }

  lemma {:induction false} FitIsPrefix(lines: seq<string>, written: nat, capacity: nat)
    ensures Fit(lines, written, capacity) <= lines
    decreases |lines|
  {
    if lines != [] && written + |lines[0]| < capacity {
      FitIsPrefix(lines[1..], written + |lines[0]|, capacity);
      assert lines == [lines[0]] + lines[1..];
    }
  }

  /** Everything fits if and only if the whole text is shorter than the buffer. */
  lemma {:induction false} FitsIffShort(lines: seq<string>, written: nat, capacity: nat)
    requires written < capacity
    ensures Fit(lines, written, capacity) == lines <==> written + |Concat(lines)| < capacity
    decreases |lines|
  {
    hide *;
    FitUnfold(lines, written, capacity);
    if lines != [] && written + |lines[0]| < capacity {
      FitsIffShort(lines[1..], written + |lines[0]|, capacity);
      ConsSame(lines, Fit(lines[1..], written + |lines[0]|, capacity));
    }
  }

  lemma FitUnfold(lines: seq<string>, written: nat, capacity: nat)
    ensures lines == [] ==> Fit(lines, written, capacity) == [] && Concat(lines) == ""
    ensures lines != [] ==> |Concat(lines)| == |lines[0]| + |Concat(lines[1..])|
    ensures lines != [] && written + |lines[0]| >= capacity ==> Fit(lines, written, capacity) == []
    ensures lines != [] && written + |lines[0]| < capacity ==> Fit(lines, written, capacity) == [lines[0]] + Fit(lines[1..], written + |lines[0]|, capacity)
  {
  }

  lemma ConsSame(lines: seq<string>, rest: seq<string>)
    requires lines != []
    ensures [lines[0]] + rest == lines <==> rest == lines[1..]
  {
    if [lines[0]] + rest == lines {
      assert ([lines[0]] + rest)[1..] == rest;
    } else {
      assert lines == [lines[0]] + lines[1..];
    }
  }

  /**
   A listing shows direct children only, in table order, and shows all of them if and only
   if their lines are shorter than the buffer.
   */
  lemma ListShowsChildren(table: Table, dir: string, capacity: nat)
    requires TableOk(table) && capacity > 0 && Listable(table, dir)
    ensures var lines := Lines(table, dir, 0);
      && List(table, dir, capacity) == Some(Chop(Concat(Fit(lines, 0, capacity))))
      && Fit(lines, 0, capacity) <= lines && LinesOf(table, dir, Children(table, dir, 0), lines)
      && (Fit(lines, 0, capacity) == lines <==> |Concat(lines)| < capacity)
      && (|Concat(lines)| < capacity ==> List(table, dir, capacity) == Some(Chop(Concat(lines))))
  {
    var lines := Lines(table, dir, 0);
    LinesAreChildren(table, dir, 0);
    FitIsPrefix(lines, 0, capacity);
    FitsIffShort(lines, 0, capacity);
  }
}
