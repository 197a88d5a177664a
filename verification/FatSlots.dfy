/**
 Directory slots: the 32-byte records of a directory, their fields, and the meaning of a
 directory as the sequence of its slots.
 */
module FatSlots {
  import opened Common
  import opened Arith
  import opened Bytes

  const MARK_END: byte := 0x00
  const MARK_FREE: byte := 0xE5
  const ATTR_FILE: byte := 0x20
  const ATTR_DIRECTORY: byte := 0x10
  const ATTR_LFN: byte := 0x0F

  type Slot = s: seq<byte> | |s| == 32 witness Zeros(32)
  type ShortName = s: seq<byte> | |s| == 11 witness Zeros(11)

  function Name(s: Slot): ShortName { s[..11] }
  function Attr(s: Slot): byte { s[11] }
  function Head(s: Slot): nat { Le32(s[26], s[27], s[20], s[21]) }
  function Size(s: Slot): nat { Le32(s[28], s[29], s[30], s[31]) }

  // bit 3 marks the volume label, bit 4 a directory
  predicate IsSkipped(attr: byte) { attr == ATTR_LFN || Rem(attr, 16) >= 8 }
  predicate IsDirectory(attr: byte) { Rem(attr, 32) >= 16 }

  /** The names of the `.` and `..` records of a subdirectory. */
  predicate IsDot(name: ShortName) {
    name[0] == '.' as int && ((name[1] == '.' as int && name[2] == ' ' as int) || name[1] == ' ' as int)
  }

  /** What a slot says: END and FREE marks, records a scan skips, and file or directory records. */
  datatype Record =
    | End
    | Free
    | Skipped
    | Entry(name: ShortName, dot: bool, directory: bool, head: nat, size: nat)

  function Decode(s: Slot): Record {
    if s[0] == MARK_END then End
    else if s[0] == MARK_FREE then Free
    else if IsSkipped(Attr(s)) then Skipped
    else Entry(Name(s), IsDot(Name(s)), IsDirectory(Attr(s)), Head(s), Size(s))
  }

  /** A record whose chain belongs to it. */
  predicate Owns(r: Record) { r.Entry? && !r.dot && r.head >= 2 }

  function WithHead(s: Slot, head: nat): Slot {
    s[20 := Byte2(head)][21 := Byte3(head)][26 := Byte0(head)][27 := Byte1(head)]
  }

  function WithSize(s: Slot, size: nat): Slot {
    s[28 := Byte0(size)][29 := Byte1(size)][30 := Byte2(size)][31 := Byte3(size)]
  }

  function Erased(s: Slot): Slot { s[0 := MARK_FREE] }

  function Fresh(name: ShortName, attr: byte): Slot { name + [attr] + Zeros(20) }

  /** Slots that agree outside the head and size fields decode alike. */
  lemma SameDecode(s: Slot, s': Slot)
    requires Decode(s).Entry? && Name(s') == Name(s) && Attr(s') == Attr(s)
    ensures Decode(s') == Decode(s).(head := Head(s'), size := Size(s'))
  {
    hide Head, Size;
    assert s[0] == Name(s)[0] && s'[0] == Name(s')[0];
  }

  /** Setting the head changes only the head. */
  lemma DecodeWithHead(s: Slot, head: nat)
    requires Decode(s).Entry? && head < 0x1_0000_0000
    ensures Decode(WithHead(s, head)) == Decode(s).(head := head)
  {
    hide Byte0, Byte1, Byte2, Byte3, Le32, Decode;
    Le32RoundTrip(head);
    var s' := WithHead(s, head);
    assert Name(s') == Name(s);
    SameDecode(s, s');
    SameDecode(s, s);
  }

  /** Setting the size changes only the size, kept to 32 bits. */
  lemma DecodeWithSize(s: Slot, size: nat)
    requires Decode(s).Entry?
    ensures Decode(WithSize(s, size)) == Decode(s).(size := Wrap32(size))
  {
    hide Byte0, Byte1, Byte2, Byte3, Le32, Decode;
    var s' := WithSize(s, size);
    assert Name(s') == Name(s);
    SameDecode(s, s');
    SameDecode(s, s);
  }

  /** A name that can be given to a new record. */
  predicate Nameable(name: ShortName) {
    name[0] != MARK_END && name[0] != MARK_FREE && name[0] != '.' as int
  }

  lemma FreshBytes(name: ShortName, attr: byte)
    ensures var s := Fresh(name, attr);
      s[..11] == name && s[0] == name[0] && s[11] == attr && forall i :: 12 <= i < 32 ==> s[i] == 0
  {
  }

  lemma DecodeFresh(name: ShortName, attr: byte)
    requires Nameable(name) && !IsSkipped(attr)
    ensures Decode(Fresh(name, attr)) == Entry(name, false, IsDirectory(attr), 0, 0)
  {
    FreshBytes(name, attr);
    hide Fresh;
    assert Name(Fresh(name, attr)) == name;
  }

  // ---------------------------------------------------------------- slots of a block

  function SlotCount(block: seq<byte>): nat { |block| / 32 }

  function SlotAt(block: seq<byte>, i: nat): Slot
    requires i < SlotCount(block)
  {
    block[32 * i..32 * i + 32]
  }

  function PutSlot(block: seq<byte>, i: nat, s: Slot): seq<byte>
    requires i < SlotCount(block)
  {
    block[..32 * i] + s + block[32 * i + 32..]
  }

  lemma PutSlotAt(block: seq<byte>, i: nat, s: Slot, j: nat)
    requires i < SlotCount(block) && j < SlotCount(block)
    ensures |PutSlot(block, i, s)| == |block|
    ensures SlotAt(PutSlot(block, i, s), j) == if i == j then s else SlotAt(block, j)
  {
    if i < j {
      assert 32 * i + 32 <= 32 * j;
    } else if j < i {
      assert 32 * j + 32 <= 32 * i;
    }
  }

  function BlockRecords(block: seq<byte>): Dir {
    seq(SlotCount(block), i requires 0 <= i < SlotCount(block) => Decode(SlotAt(block, i)))
  }

  lemma PutSlotBlock(block: seq<byte>, i: nat, s: Slot)
    requires i < SlotCount(block)
    ensures |PutSlot(block, i, s)| == |block|
    ensures BlockRecords(PutSlot(block, i, s)) == BlockRecords(block)[i := Decode(s)]
  {
    forall j | 0 <= j < SlotCount(block)
      ensures Decode(SlotAt(PutSlot(block, i, s), j)) == BlockRecords(block)[i := Decode(s)][j]
    {
      PutSlotAt(block, i, s, j);
    }
  }

  /** A cleared block holds END marks only. */
  lemma ZeroBlock(n: nat)
    ensures forall k :: 0 <= k < |BlockRecords(Zeros(n))| ==> BlockRecords(Zeros(n))[k] == End
  {
  }

  // ---------------------------------------------------------------- directories

  type Dir = seq<Record>

  predicate Matches(r: Record, name: ShortName) { r.Entry? && r.name == name }

  /** First slot matching `name` at index `i` or later, the search ending at the END mark. */
  function FindFrom(dir: Dir, name: ShortName, i: nat): Option<nat>
    requires i <= |dir|
    decreases |dir| - i
  {
    if i == |dir| || dir[i].End? then None
    else if Matches(dir[i], name) then Some(i)
    else FindFrom(dir, name, i + 1)
  }

  function Find(dir: Dir, name: ShortName): Option<nat> { FindFrom(dir, name, 0) }

  /** Where a new record goes: the first FREE slot, else the END slot, else past the last slot. */
  function RoomFrom(dir: Dir, i: nat): nat
    requires i <= |dir|
    decreases |dir| - i
  {
    if i == |dir| || dir[i].Free? then i
    else if dir[i].End? then i
    else RoomFrom(dir, i + 1)
  }

  function Room(dir: Dir): nat { RoomFrom(dir, 0) }

  /** Everything after the END mark is END. */
  ghost predicate TailEnds(dir: Dir) {
    forall i, j :: 0 <= i < j < |dir| && dir[i].End? ==> dir[j].End?
  }

  ghost predicate NamesUnique(dir: Dir) {
    forall i, j :: 0 <= i < j < |dir| && dir[i].Entry? && dir[j].Entry? ==> dir[i].name != dir[j].name
  }

  ghost predicate DirOk(dir: Dir) { TailEnds(dir) && NamesUnique(dir) }

  lemma {:induction false} FindFromFacts(dir: Dir, name: ShortName, i: nat)
    requires i <= |dir| && TailEnds(dir)
    ensures FindFrom(dir, name, i).Some? ==> i <= FindFrom(dir, name, i).value < |dir| && Matches(dir[FindFrom(dir, name, i).value], name)
    ensures FindFrom(dir, name, i).None? ==> forall k :: i <= k < |dir| ==> !Matches(dir[k], name)
    decreases |dir| - i
  {
    if i < |dir| && !dir[i].End? && !Matches(dir[i], name) {
      FindFromFacts(dir, name, i + 1);
    }
  }

  lemma {:induction false} FindInRange(dir: Dir, name: ShortName, i: nat)
    requires i <= |dir|
    ensures FindFrom(dir, name, i).Some? ==> i <= FindFrom(dir, name, i).value < |dir| && Matches(dir[FindFrom(dir, name, i).value], name)
    decreases |dir| - i
  {
    if i < |dir| && !dir[i].End? && !Matches(dir[i], name) {
      FindInRange(dir, name, i + 1);
    }
  }

  /** A scan finds a name exactly when some slot in use carries it, and finds that slot. */
  lemma FindIsLookup(dir: Dir, name: ShortName, k: nat)
    requires DirOk(dir) && k < |dir|
    ensures Find(dir, name) == Some(k) <==> Matches(dir[k], name)
  {
    FindFromFacts(dir, name, 0);
  }

  lemma FindNone(dir: Dir, name: ShortName)
    requires DirOk(dir)
    ensures Find(dir, name).Some? ==> Find(dir, name).value < |dir| && Matches(dir[Find(dir, name).value], name)
    ensures Find(dir, name).None? <==> forall k :: 0 <= k < |dir| ==> !Matches(dir[k], name)
  {
    FindFromFacts(dir, name, 0);
  }

  lemma {:induction false} RoomFromFacts(dir: Dir, i: nat)
    requires i <= |dir|
    requires forall j :: 0 <= j < i ==> !dir[j].End?
    ensures i <= RoomFrom(dir, i) <= |dir|
    ensures RoomFrom(dir, i) < |dir| ==> dir[RoomFrom(dir, i)].Free? || dir[RoomFrom(dir, i)].End?
    ensures forall j :: 0 <= j < RoomFrom(dir, i) ==> !dir[j].End?
    decreases |dir| - i
  {
    if i < |dir| && !dir[i].Free? && !dir[i].End? {
      RoomFromFacts(dir, i + 1);
    }
  }

  /** Rewriting one slot keeps a directory well-formed. */
  lemma SetRecordOk(dir: Dir, k: nat, r: Record)
    requires DirOk(dir) && k < |dir| && !r.End?
    requires forall j :: 0 <= j < k ==> !dir[j].End?
    requires r.Entry? ==> forall j :: 0 <= j < |dir| && j != k && dir[j].Entry? ==> dir[j].name != r.name
    ensures DirOk(dir[k := r])
  {
  }

  /** Adding END slots keeps a directory well-formed. */
  lemma GrowOk(dir: Dir, more: Dir)
    requires DirOk(dir)
    requires forall j :: 0 <= j < |more| ==> more[j].End?
    ensures DirOk(dir + more)
  {
  }
}
