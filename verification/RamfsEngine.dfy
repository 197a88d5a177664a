/** The RAM file system on its table of entries. */
module RamfsEngine {
  import opened Common
  import opened RamfsNames
  import opened RamfsModel
  import opened RamfsList

  class Volume {
    const files: array<Option<Entry>>

    ghost predicate Valid()
      reads this, files
    {
      files.Length == MAX_FILES && TableOk(files[..])
    }

    constructor ()
      ensures Valid() && fresh(files) && files[..] == Empty()
    {
      files := new Option<Entry>[MAX_FILES](_ => None);
      new;
      EmptyOk();
      assert files[..] == Empty();
    }

    method FindEntry(name: string) returns (r: int)
      ensures if Find(files[..], name, 0).None? then r == -1 else Find(files[..], name, 0) == Some(r)
      ensures -1 <= r < files.Length
    {
      var i := 0;
      while i < files.Length
        invariant i <= files.Length && Find(files[..], name, 0) == Find(files[..], name, i)
      {
        if files[i].Some? && files[i].value.name == name {
          return i;
        }
        i := i + 1;
      }
      return -1;
    }

    /** Whether the parent of a name is a live directory, or the name is at the top. */
    method EnsureParent(name: string) returns (ok: bool)
      ensures ok == ParentOk(files[..], name)
    {
      var slash := -1;
      var i := 0;
      while i < |name|
        invariant i <= |name| && slash == LastSlash(name, i)
      {
        if name[i] == '/' {
          slash := i;
        }
        i := i + 1;
      }
      if slash == -1 {
        return true;
      }
      if slash == 0 {
        return false;
      }
      var k := FindEntry(name[..slash]);
      if k < 0 {
        return false;
      }
      return files[k].value.directory;
    }

    /** The slot of an entry of that name and kind, made if needed; -1 if that cannot be. */
    method CreateEntry(name: string, directory: bool) returns (r: int)
      requires Valid()
      modifies files
      ensures Valid() && -1 <= r < files.Length
      ensures files[..] == Create(old(files[..]), name, directory).table
      ensures if r < 0 then Create(old(files[..]), name, directory).slot.None? else Create(old(files[..]), name, directory).slot == Some(r)
      ensures r >= 0 ==> files[r].Some?
    {
      ghost var before := files[..];
      CreateKeeps(before, name, directory);
      hide TableOk;
      if !ValidName(name) {
        return -1;
      }
      var found := FindEntry(name);
      if found >= 0 {
        return if files[found].value.directory == directory then found else -1;
      }
      var ok := EnsureParent(name);
      if !ok {
        return -1;
      }
      var i := 0;
      while i < files.Length
        invariant i <= files.Length && files[..] == before && FreeSlot(before, 0) == FreeSlot(before, i)
      {
        if files[i].None? {
          files[i] := Some(Entry(name, directory, ""));
          assert files[..] == before[i := Some(Entry(name, directory, ""))];
          return i;
        }
        i := i + 1;
      }
      return -1;
    }

    method WriteFile(name: string, data: Option<string>) returns (result: int)
      requires Valid()
      modifies files
      ensures Valid() && Outcome(files[..], result) == Write(old(files[..]), name, data)
    {
      ghost var before := files[..];
      WriteKeeps(before, name, data);
      hide TableOk, Create;
      var k := CreateEntry(name, false);
      if k < 0 {
        return -1;
      }
      if data.None? {
        files[k] := Some(files[k].value.(data := ""));
        return 0;
      }
      var text := if |data.value| >= MAX_SIZE then data.value[..MAX_SIZE - 1] else data.value;
      files[k] := Some(files[k].value.(data := text));
      return |text|;
    }

    method AppendFile(name: string, data: string) returns (result: int)
      requires Valid()
      modifies files
      ensures Valid() && Outcome(files[..], result) == Append(old(files[..]), name, data)
    {
      ghost var before := files[..];
      AppendKeeps(before, name, data);
      hide TableOk, Create;
      if data == "" {
        return -1;
      }
      var k := CreateEntry(name, false);
      if k < 0 {
        return -1;
      }
      if |files[k].value.data| + |data| >= MAX_SIZE {
        return -1;
      }
      files[k] := Some(files[k].value.(data := files[k].value.data + data));
      return |data|;
    }

    method MakeDir(name: string) returns (result: int)
      requires Valid()
      modifies files
      ensures Valid() && Outcome(files[..], result) == Mkdir(old(files[..]), name)
    {
      ghost var before := files[..];
      MkdirKeeps(before, name);
      hide TableOk, Create;
      var k := CreateEntry(name, true);
      if k < 0 {
        return -1;
      }
      files[k] := Some(files[k].value.(data := ""));
      return 0;
    }

    /** Removes an entry and, if it is a directory, everything under it. */
    method RemoveEntry(name: string) returns (result: int)
      requires Valid()
      modifies files
      ensures Valid() && Outcome(files[..], result) == Remove(old(files[..]), name)
    {
      ghost var before := files[..];
      RemoveKeeps(before, name);
      hide TableOk;
      if !ValidName(name) {
        return -1;
      }
      var k := FindEntry(name);
      if k < 0 {
        return -1;
      }
      var directory := files[k].value.directory;
      files[k] := None;
      ghost var rest := files[..];
      if directory {
        var i := 0;
        while i < files.Length
          invariant i <= files.Length && ClearUnder(files[..], name, i) == ClearUnder(rest, name, 0)
        {
          if files[i].Some? && Under(name, files[i].value.name) {
            ghost var t := files[..];
            files[i] := None;
            assert files[..] == t[i := None];
          }
          i := i + 1;
        }
      }
      return 0;
    }

    /** Writes a text at a position of the buffer. */
    method Emit(buffer: array<char>, pos: nat, text: string)
      requires pos + |text| <= buffer.Length
      modifies buffer
      ensures buffer[..pos + |text|] == old(buffer[..pos]) + text
    {
      ghost var before := buffer[..pos];
      var j := 0;
      while j < |text|
        invariant j <= |text| && buffer[..pos + j] == before + text[..j]
      {
        buffer[pos + j] := text[j];
        assert text[..j + 1] == text[..j] + [text[j]];
        j := j + 1;
      }
      assert text[..j] == text;
    }

    /** Lists a directory into the buffer; -1 on error, else the length of the text. */
    method ListDir(dir: string, buffer: array<char>) returns (n: int)
      requires Valid()
      modifies buffer
      ensures n == -1 <==> List(old(files[..]), dir, buffer.Length).None?
      ensures n != -1 ==> 0 <= n < buffer.Length && List(old(files[..]), dir, buffer.Length) == Some(buffer[..n]) && buffer[n] == '\0'
    {
      ghost var table := files[..];
      hide TableOk;
      if buffer.Length == 0 {
        return -1;
      }
      if dir != "" {
        if !ValidName(dir) {
          return -1;
        }
        var k := FindEntry(dir);
        if k < 0 || !files[k].value.directory {
          return -1;
        }
      }
      var written := FillLines(dir, buffer);
      ghost var text := Concat(Fit(Lines(table, dir, 0), 0, buffer.Length));
      if written > 0 {
        written := written - 1;
      }
      assert buffer[..written] == Chop(text);
      buffer[written] := '\0';
      return written;
    }

    /** Writes the lines of the direct children that fit. */
    method FillLines(dir: string, buffer: array<char>) returns (written: nat)
      requires buffer.Length > 0
      modifies buffer
      ensures written < buffer.Length && buffer[..written] == Concat(Fit(Lines(old(files[..]), dir, 0), 0, buffer.Length))
    {
      hide Lines, Fit, ChildOf;
      ghost var table := files[..];
      ghost var all := Concat(Fit(Lines(table, dir, 0), 0, buffer.Length));
      written := 0;
      var i := 0;
      assert buffer[..0] == "";
      while i < files.Length
        invariant i <= files.Length && written < buffer.Length && files[..] == table
        invariant all == buffer[..written] + Concat(Fit(Lines(table, dir, i), written, buffer.Length))
      {
        LinesStep(table, dir, i, written, buffer.Length);
        if files[i].Some? && ChildOf(dir, files[i].value.name) {
          var line := Line(dir, files[i].value);
          if written + |line| >= buffer.Length {
            return;
          }
          ghost var before := buffer[..written];
          Emit(buffer, written, line);
          assert before + (line + Concat(Fit(Lines(table, dir, i + 1), written + |line|, buffer.Length))) ==
            buffer[..written + |line|] + Concat(Fit(Lines(table, dir, i + 1), written + |line|, buffer.Length));
          written := written + |line|;
        }
        i := i + 1;
      }
      LinesEnd(table, dir, written, buffer.Length);
    }
  }

  lemma LinesStep(table: Table, dir: string, i: nat, written: nat, capacity: nat)
    requires i < |table|
    ensures !(table[i].Some? && ChildOf(dir, table[i].value.name)) ==> Lines(table, dir, i) == Lines(table, dir, i + 1)
    ensures table[i].Some? && ChildOf(dir, table[i].value.name) ==>
      var line := Line(dir, table[i].value);
      if written + |line| >= capacity then Concat(Fit(Lines(table, dir, i), written, capacity)) == ""
      else Concat(Fit(Lines(table, dir, i), written, capacity)) == line + Concat(Fit(Lines(table, dir, i + 1), written + |line|, capacity))
  {
    hide *;
    LinesUnfold(table, dir, i);
    if table[i].Some? && ChildOf(dir, table[i].value.name) {
      FitCons(Line(dir, table[i].value), Lines(table, dir, i + 1), written, capacity);
    }
  }

  lemma LinesUnfold(table: Table, dir: string, i: nat)
    requires i < |table|
    ensures !(table[i].Some? && ChildOf(dir, table[i].value.name)) ==> Lines(table, dir, i) == Lines(table, dir, i + 1)
    ensures table[i].Some? && ChildOf(dir, table[i].value.name) ==> Lines(table, dir, i) == [Line(dir, table[i].value)] + Lines(table, dir, i + 1)
  {
    hide ChildOf, Line;
  }

  lemma FitCons(line: string, rest: seq<string>, written: nat, capacity: nat)
    ensures Concat(Fit([line] + rest, written, capacity)) ==
      if written + |line| >= capacity then "" else line + Concat(Fit(rest, written + |line|, capacity))
  {
    assert ([line] + rest)[1..] == rest;
    if written + |line| < capacity {
      var f := Fit(rest, written + |line|, capacity);
      assert ([line] + f)[1..] == f;
    }
  }

  lemma LinesEnd(table: Table, dir: string, written: nat, capacity: nat)
    ensures Concat(Fit(Lines(table, dir, |table|), written, capacity)) == ""
  {
  }
}
