/**
 The RAM file system: a flat table of named entries that behaves as a tree.  Names are
 unique, every entry's parent is a live directory, and removing a directory removes exactly
 its subtree.
 */
module RamfsModel {
  import opened Common
  import opened RamfsNames

  const MAX_FILES: nat := 32
  const MAX_SIZE: nat := 1024

  datatype Entry = Entry(name: string, directory: bool, data: string)

  type Table = seq<Option<Entry>>

  // ---------------------------------------------------------------- operations

  function Find(table: Table, name: string, i: nat): (r: Option<nat>)
    requires i <= |table|
    ensures r.Some? ==> i <= r.value < |table| && table[r.value].Some? && table[r.value].value.name == name
    ensures r.None? ==> forall j :: i <= j < |table| && table[j].Some? ==> table[j].value.name != name
    decreases |table| - i
  {
    if i == |table| then None
    else if table[i].Some? && table[i].value.name == name then Some(i)
    else Find(table, name, i + 1)
  }

  function Lookup(table: Table, name: string): Option<Entry> {
    var i := Find(table, name, 0);
    if i.None? then None else table[i.value]
  }

  predicate IsDirectory(table: Table, name: string) {
    Lookup(table, name).Some? && Lookup(table, name).value.directory
  }

  /** The parent of a name, if it has one, must be a live directory. */
  predicate ParentOk(table: Table, name: string) {
    HasParent(name) ==> LastSlash(name, |name|) > 0 && IsDirectory(table, Parent(name))
  }

  function FreeSlot(table: Table, i: nat): (r: Option<nat>)
    requires i <= |table|
    ensures r.Some? ==> i <= r.value < |table| && table[r.value].None?
    ensures r.None? ==> forall j :: i <= j < |table| ==> table[j].Some?
    decreases |table| - i
  {
    if i == |table| then None else if table[i].None? then Some(i) else FreeSlot(table, i + 1)
  }

  datatype Made = Made(table: Table, slot: Option<nat>)

  /** The slot of an entry of that name and kind, made if needed; none if that cannot be. */
  function Create(table: Table, name: string, directory: bool): (r: Made)
    ensures |r.table| == |table| && (r.slot.Some? ==> r.slot.value < |table| && r.table[r.slot.value].Some?)
    ensures r.slot.Some? ==> r.table[r.slot.value].value.name == name && r.table[r.slot.value].value.directory == directory
  {
    if !ValidName(name) then Made(table, None)
    else
      var found := Find(table, name, 0);
      if found.Some? then
        Made(table, if table[found.value].value.directory == directory then found else None)
      else if !ParentOk(table, name) then Made(table, None)
      else
        var free := FreeSlot(table, 0);
        if free.None? then Made(table, None) else Made(table[free.value := Some(Entry(name, directory, ""))], free)
  }

  /** A table and a return value, -1 on error. */
  datatype Outcome = Outcome(table: Table, result: int)

  function SetData(table: Table, i: nat, data: string): Table
    requires i < |table| && table[i].Some?
  {
    table[i := Some(table[i].value.(data := data))]
  }

  /** Replaces the contents; data beyond the limit is cut off, no data empties the file. */
  function Write(table: Table, name: string, data: Option<string>): Outcome {
    var made := Create(table, name, false);
    if made.slot.None? then Outcome(made.table, -1)
    else
      var text := if data.None? then "" else if |data.value| >= MAX_SIZE then data.value[..MAX_SIZE - 1] else data.value;
      Outcome(SetData(made.table, made.slot.value, text), |text|)
  }

  /** Appends; a file that would get too long stays as it is, though it may have been made. */
  function Append(table: Table, name: string, data: string): Outcome {
    if data == "" then Outcome(table, -1)
    else
      var made := Create(table, name, false);
      if made.slot.None? then Outcome(made.table, -1)
      else
        var was := made.table[made.slot.value].value.data;
        if |was| + |data| >= MAX_SIZE then Outcome(made.table, -1)
        else Outcome(SetData(made.table, made.slot.value, was + data), |data|)
  }

  function Mkdir(table: Table, name: string): Outcome {
    var made := Create(table, name, true);
    if made.slot.None? then Outcome(made.table, -1) else Outcome(SetData(made.table, made.slot.value, ""), 0)
  }

  /** Clears the entries under a directory from slot `i` on. */
  function ClearUnder(table: Table, dir: string, i: nat): (r: Table)
    requires i <= |table|
    ensures |r| == |table|
    ensures forall j :: 0 <= j < |table| ==> r[j] == if j >= i && table[j].Some? && Under(dir, table[j].value.name) then None else table[j]
    decreases |table| - i
  {
    if i == |table| then table
    else if table[i].Some? && Under(dir, table[i].value.name) then ClearUnder(table[i := None], dir, i + 1)
    else ClearUnder(table, dir, i + 1)
  }

  function Remove(table: Table, name: string): Outcome {
    if !ValidName(name) || Find(table, name, 0).None? then Outcome(table, -1)
    else
      var i := Find(table, name, 0).value;
      var rest := table[i := None];
      Outcome(if table[i].value.directory then ClearUnder(rest, name, 0) else rest, 0)
  }

  // ---------------------------------------------------------------- the invariant

  ghost predicate Unique(table: Table) {
    forall i, j :: 0 <= i < j < |table| && table[i].Some? && table[j].Some? ==> table[i].value.name != table[j].value.name
  }

  ghost predicate EntryOk(table: Table, i: nat)
    requires i < |table| && table[i].Some?
  {
    && ValidName(table[i].value.name) && |table[i].value.data| < MAX_SIZE
    && ParentOk(table, table[i].value.name)
  }

  ghost predicate TableOk(table: Table) {
    && |table| == MAX_FILES && Unique(table)
    && forall i :: 0 <= i < |table| && table[i].Some? ==> EntryOk(table, i)
  }

  /** With unique names, a lookup finds the entry wherever it is. */
  lemma LookupAt(table: Table, i: nat)
    requires Unique(table) && i < |table| && table[i].Some?
    ensures Lookup(table, table[i].value.name) == table[i]
  {
    var name := table[i].value.name;
    var k := Find(table, name, 0);
    assert k.Some?;
  }

  /** A parent stays if its entry stays a directory under the same name. */
  lemma ParentStays(table: Table, table': Table, name: string)
    requires Unique(table) && Unique(table') && |table| == |table'| && ParentOk(table, name)
    requires HasParent(name) ==> forall k :: 0 <= k < |table| && table[k].Some? && table[k].value.name == Parent(name) ==>
      table'[k].Some? && table'[k].value.name == table[k].value.name && table'[k].value.directory == table[k].value.directory
    ensures ParentOk(table', name)
  {
    if HasParent(name) {
      var k := Find(table, Parent(name), 0).value;
      LookupAt(table', k);
      LookupAt(table, k);
    }
  }

  /** Changing the data of an entry keeps the table in order. */
  lemma SetDataKeeps(table: Table, i: nat, data: string)
    requires TableOk(table) && i < |table| && table[i].Some? && |data| < MAX_SIZE
    ensures TableOk(SetData(table, i, data))
  {
    var t := SetData(table, i, data);
    assert Unique(t);
    forall j | 0 <= j < |t| && t[j].Some?
      ensures EntryOk(t, j)
    {
      assert EntryOk(table, j);
      ParentStays(table, t, t[j].value.name);
    }
  }

  lemma CreateKeeps(table: Table, name: string, directory: bool)
    requires TableOk(table)
    ensures TableOk(Create(table, name, directory).table)
    ensures forall i :: 0 <= i < |table| && table[i].Some? ==> Create(table, name, directory).table[i] == table[i]
  {
    var made := Create(table, name, directory);
    if ValidName(name) && Find(table, name, 0).None? && ParentOk(table, name) && FreeSlot(table, 0).Some? {
      var k := FreeSlot(table, 0).value;
      var t := table[k := Some(Entry(name, directory, ""))];
      hide Find, FreeSlot, Create;
      assert Unique(t);
      forall j | 0 <= j < |t| && t[j].Some?
        ensures EntryOk(t, j)
      {
        if j == k {
          ParentStays(table, t, name);
        } else {
          assert EntryOk(table, j);
          ParentStays(table, t, t[j].value.name);
        }
      }
      CreateMakes(table, name, directory, k);
    }
  }

  lemma CreateMakes(table: Table, name: string, directory: bool, k: nat)
    requires ValidName(name) && Find(table, name, 0).None? && ParentOk(table, name) && FreeSlot(table, 0) == Some(k)
    ensures k < |table| && Create(table, name, directory) == Made(table[k := Some(Entry(name, directory, ""))], Some(k))
  {
  }

  lemma WriteKeeps(table: Table, name: string, data: Option<string>)
    requires TableOk(table)
    ensures TableOk(Write(table, name, data).table)
  {
    var made := Create(table, name, false);
    CreateKeeps(table, name, false);
    hide Create, TableOk;
    if made.slot.Some? {
      var text := if data.None? then "" else if |data.value| >= MAX_SIZE then data.value[..MAX_SIZE - 1] else data.value;
      TableParts(made.table);
      SetDataKeeps(made.table, made.slot.value, text);
    }
  }

  lemma TableParts(table: Table)
    requires TableOk(table)
    ensures |table| == MAX_FILES
  {
  }

  lemma AppendKeeps(table: Table, name: string, data: string)
    requires TableOk(table)
    ensures TableOk(Append(table, name, data).table)
  {
    var made := Create(table, name, false);
    CreateKeeps(table, name, false);
    hide Create, TableOk;
    if made.slot.Some? && |made.table[made.slot.value].value.data| + |data| < MAX_SIZE {
      SetDataKeeps(made.table, made.slot.value, made.table[made.slot.value].value.data + data);
    }
  }

  lemma MkdirKeeps(table: Table, name: string)
    requires TableOk(table)
    ensures TableOk(Mkdir(table, name).table)
  {
    var made := Create(table, name, true);
    CreateKeeps(table, name, true);
    hide Create, TableOk;
    if made.slot.Some? {
      SetDataKeeps(made.table, made.slot.value, "");
    }
  }

  /** What a successful removal leaves: everything but the entry and, for a directory, its subtree. */
  lemma RemoveExact(table: Table, name: string)
    requires TableOk(table) && Remove(table, name).result == 0
    ensures var t := Remove(table, name).table;
      && |t| == |table| && Lookup(table, name).Some?
      && forall j :: 0 <= j < |table| && table[j].Some? ==>
        t[j] == if table[j].value.name == name || (Lookup(table, name).value.directory && Ancestor(name, table[j].value.name)) then None else table[j]
  {
    var i := Find(table, name, 0).value;
    var t := Remove(table, name).table;
    LookupAt(table, i);
    forall j | 0 <= j < |table| && table[j].Some?
      ensures t[j] == if table[j].value.name == name || (table[i].value.directory && Ancestor(name, table[j].value.name)) then None else table[j]
    {
      UnderIsAncestor(name, table[j].value.name);
      hide Ancestor;
      if j != i {
        assert table[j].value.name != name;
      } else {
        assert !Under(name, name);
      }
    }
  }

  lemma RemoveKeeps(table: Table, name: string)
    requires TableOk(table)
    ensures TableOk(Remove(table, name).table)
  {
    if Remove(table, name).result == 0 {
      var t := Remove(table, name).table;
      RemoveExact(table, name);
      RemoveClears(table, name);
      hide Remove, Ancestor, ClearUnder, Lookup;
      assert Unique(t);
      forall j | 0 <= j < |t| && t[j].Some?
        ensures EntryOk(t, j)
      {
        assert EntryOk(table, j);
        SurvivorsParent(table, name, t, j);
      }
    }
  }

  lemma RemoveClears(table: Table, name: string)
    requires Remove(table, name).result == 0
    ensures |Remove(table, name).table| == |table|
    ensures forall j :: 0 <= j < |table| && table[j].None? ==> Remove(table, name).table[j].None?
    ensures forall j :: 0 <= j < |table| ==> Remove(table, name).table[j] == table[j] || Remove(table, name).table[j].None?
  {
  }

  /** The parent of an entry that survives a removal survives too. */
  lemma SurvivorsParent(table: Table, name: string, t: Table, j: nat)
    requires TableOk(table) && |t| == |table| && Unique(t) && j < |t| && t[j].Some? && t[j] == table[j] && Lookup(table, name).Some?
    requires forall i :: 0 <= i < |table| && table[i].Some? ==>
      t[i] == if table[i].value.name == name || (Lookup(table, name).value.directory && Ancestor(name, table[i].value.name)) then None else table[i]
    ensures ParentOk(t, t[j].value.name)
  {
    var n := t[j].value.name;
    assert EntryOk(table, j);
    if HasParent(n) {
      var k := Find(table, Parent(n), 0).value;
      LookupAt(table, k);
      ParentIsUnder(n);
      UnderIsAncestor(name, Parent(n));
      UnderIsAncestor(name, n);
      hide Ancestor, Find;
      var p := table[k].value;
      assert p.name == Parent(n) && p.directory;
      assert p.name == name ==> Under(name, n);
      if Under(name, p.name) {
        UnderTrans(name, p.name, n);
      }
      assert t[k] == table[k];
      LookupAt(t, k);
    }
  }

  // ---------------------------------------------------------------- runs

  datatype Op =
    | WriteFile(name: string, data: Option<string>)
    | AppendFile(name: string, more: string)
    | MakeDir(name: string)
    | RemoveEntry(name: string)

  function Apply(table: Table, op: Op): Outcome {
    match op
    case WriteFile(name, data) => Write(table, name, data)
    case AppendFile(name, data) => Append(table, name, data)
    case MakeDir(name) => Mkdir(table, name)
    case RemoveEntry(name) => Remove(table, name)
  }

  function ApplyAll(table: Table, ops: seq<Op>): Table
    decreases |ops|
  {
    if ops == [] then table else ApplyAll(Apply(table, ops[0]).table, ops[1..])
  }

  function Empty(): Table {
    seq(MAX_FILES, i => None)
  }

  lemma EmptyOk()
    ensures TableOk(Empty())
  {
  }

  /** Every run keeps names unique and every entry's parent a live directory. */
  lemma {:induction false} RunKeepsTree(table: Table, ops: seq<Op>)
    requires TableOk(table)
    ensures TableOk(ApplyAll(table, ops))
    decreases |ops|
  {
    if ops != [] {
      match ops[0] {
        case WriteFile(name, data) => WriteKeeps(table, name, data);
        case AppendFile(name, data) => AppendKeeps(table, name, data);
        case MakeDir(name) => MkdirKeeps(table, name);
        case RemoveEntry(name) => RemoveKeeps(table, name);
      }
      hide TableOk, Write, Append, Mkdir, Remove;
      RunKeepsTree(Apply(table, ops[0]).table, ops[1..]);
    }
  }

  /**
   What was written can be looked up, the first 1023 characters of it if it is longer, the result
   counts what was stored, and no other entry changes.
   */
  lemma WriteThenLookup(table: Table, name: string, data: string)
    requires TableOk(table) && Write(table, name, Some(data)).result >= 0
    ensures var stored := if |data| < MAX_SIZE then data else data[..MAX_SIZE - 1];
      Lookup(Write(table, name, Some(data)).table, name) == Some(Entry(name, false, stored)) && Write(table, name, Some(data)).result == |stored|
    ensures forall i :: 0 <= i < |table| && table[i].Some? && table[i].value.name != name ==> Write(table, name, Some(data)).table[i] == table[i]
  {
    var made := Create(table, name, false);
    CreateKeeps(table, name, false);
    WriteKeeps(table, name, Some(data));
    LookupAt(Write(table, name, Some(data)).table, made.slot.value);
  }

  /** A successful append turns the contents into the old contents followed by the data. */
  lemma AppendThenLookup(table: Table, name: string, data: string)
    requires TableOk(table) && Append(table, name, data).result >= 0
    ensures var was := if Lookup(table, name).Some? then Lookup(table, name).value.data else "";
      Lookup(Append(table, name, data).table, name) == Some(Entry(name, false, was + data))
    ensures forall i :: 0 <= i < |table| && table[i].Some? && table[i].value.name != name ==> Append(table, name, data).table[i] == table[i]
  {
    var made := Create(table, name, false);
    CreateKeeps(table, name, false);
    AppendKeeps(table, name, data);
    LookupAt(Append(table, name, data).table, made.slot.value);
    if Lookup(table, name).Some? {
      LookupAt(table, made.slot.value);
    }
  }
}
