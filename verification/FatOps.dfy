/**
 What the volume operations do, as functions on volumes: directory lookup, whole-file
 replace, append, remove, mkdir and read.  Success and every failure path are included.
 */
module FatOps {
  import opened Common
  import opened Arith
  import opened Bytes
  import opened FatTable
  import opened FatChains
  import opened FatSlots
  import opened FatStore

  datatype Outcome = Outcome(v: Volume, ok: bool)

  /** The blocks of directory `d`; 0 is the fixed root area of a FAT16 volume. */
  function DirChain(v: Volume, d: nat): (chain: seq<nat>)
    requires Shape(v)
    ensures BlocksIn(v.data, chain)
  {
    if d == 0 && v.kind.Fat16? then [0] else ChainOf(v.kind, v.fat, d)
  }

  function DirOf(v: Volume, d: nat): Dir
    requires Shape(v)
  {
    Records(v.data, DirChain(v, d))
  }

  // ---------------------------------------------------------------- taking a slot

  datatype Taken = Taken(v: Volume, loc: Option<Loc>)

  /** The volume with cluster `c`, taken from the free list, cleared and linked behind `last`. */
  function GrowBy(v: Volume, last: nat, c: nat): Volume
    requires c < |v.data|
  {
    v.(fat := Attach(v.kind, v.fat, last, [c]), data := v.data[c := Zeros(v.csize)])
  }

  /**
   Room for a new record in directory `d`: a reusable slot, the END slot, or the first slot
   of a fresh cluster linked behind the directory.
   */
  function TakeSlot(v: Volume, d: nat): (r: Taken)
    requires Shape(v)
    ensures r.loc.Some? ==> IsLoc(r.v.data, r.loc.value)
    ensures |r.v.data| == |v.data| && r.v.csize == v.csize
  {
    var chain := DirChain(v, d);
    var dir := Records(v.data, chain);
    RoomFromFacts(dir, 0);
    var free := FreeList(v.fat);
    if Room(dir) < |dir| then
      LocOfFacts(v.data, chain, Room(dir));
      Taken(v, Some(LocOf(v.data, chain, Room(dir))))
    else if d < 2 || chain == [] || free == [] then Taken(v, None)
    else
      FreeListFacts(v.fat);
      Taken(GrowBy(v, Last(chain), free[0]), Some(Loc(free[0], 0)))
  }

  /** The volume with the slot at `loc` rewritten. */
  function PutAt(v: Volume, loc: Loc, s: Slot): Volume {
    if IsLoc(v.data, loc) then v.(data := Put(v.data, loc, s)) else v
  }

  function Create(v: Volume, d: nat, s: Slot): (r: Taken)
    requires Shape(v)
    ensures r.loc.Some? ==> IsLoc(r.v.data, r.loc.value)
    ensures |r.v.data| == |v.data| && r.v.csize == v.csize
  {
    var taken := TakeSlot(v, d);
    if taken.loc.None? then taken
    else
      PutSlotBlock(taken.v.data[taken.loc.value.c], taken.loc.value.i, s);
      Taken(PutAt(taken.v, taken.loc.value, s), taken.loc)
  }

  // ---------------------------------------------------------------- file data

  function Prefix(s: seq<nat>, n: nat): seq<nat> {
    if n <= |s| then s[..n] else s
  }

  function Emptied(s: Slot): Slot { WithSize(WithHead(s, 0), 0) }

  /** Releases the chain of the record `s` at `loc` and empties the record. */
  function Truncate(v: Volume, loc: Loc, s: Slot): Volume {
    PutAt(v.(fat := Release(v.kind, v.fat, Head(s))), loc, Emptied(s))
  }

  /** Writes `bytes` to the clusters `t`, which stay unlinked. */
  function FillIn(v: Volume, t: seq<nat>, bytes: seq<byte>): Volume {
    v.(data := Fill(v.data, t, bytes, v.csize))
  }

  /** Links the clusters `t` as a chain and stores the record `s`, which names its head. */
  function Adopt(v: Volume, t: seq<nat>, loc: Loc, s: Slot): Volume {
    PutAt(v.(fat := Link(v.kind, v.fat, t)), loc, s)
  }

  /** Replaces the contents of the file whose record `s` is at `loc`. */
  function Replace(v: Volume, loc: Loc, s: Slot, bytes: seq<byte>): Outcome
    requires 0 < v.csize
  {
    var v1 := Truncate(v, loc, s);
    var need, free := Clusters(|bytes|, v.csize), FreeList(v1.fat);
    var t := Prefix(free, need);
    var v2 := FillIn(v1, t, bytes);
    if t == [] || need > |free| then Outcome(v2, need == 0)
    else Outcome(Adopt(v2, t, loc, WithSize(WithHead(Emptied(s), t[0]), |bytes|)), true)
  }

  function Overwrite(block: seq<byte>, offset: nat, bytes: seq<byte>): seq<byte> {
    if offset + |bytes| <= |block| then block[..offset] + bytes + block[offset + |bytes|..] else block
  }

  function PatchBlock(v: Volume, c: nat, offset: nat, bytes: seq<byte>): Volume {
    if c < |v.data| then v.(data := v.data[c := Overwrite(v.data[c], offset, bytes)]) else v
  }

  /** Links the clusters `t` behind cluster `last`. */
  function AttachTo(v: Volume, last: nat, t: seq<nat>): Volume {
    v.(fat := Attach(v.kind, v.fat, last, t))
  }

  /** Appends the part of the data that does not fit into the tail cluster `last`. */
  function AppendRest(v: Volume, loc: Loc, s: Slot, last: nat, rest: seq<byte>): Outcome
    requires 0 < v.csize
  {
    var need, free := Clusters(|rest|, v.csize), FreeList(v.fat);
    var t := Prefix(free, need);
    var v1 := FillIn(AttachTo(v, last, t), t, rest);
    if need > |free| then Outcome(v1, false) else Outcome(PutAt(v1, loc, s), true)
  }

  /** Appends `bytes` from `offset` in the tail cluster `last` of the file. */
  function AppendTail(v: Volume, loc: Loc, s: Slot, last: nat, offset: nat, bytes: seq<byte>): Outcome
    requires offset < v.csize
  {
    var n := if |bytes| < v.csize - offset then |bytes| else v.csize - offset;
    var v1 := PatchBlock(v, last, offset, bytes[..n]);
    if offset + n < v.csize then Outcome(PutAt(v1, loc, WithSize(s, Size(s) + n)), true)
    else AppendRest(v1, loc, WithSize(s, Size(s) + |bytes|), last, bytes[n..])
  }

  /** Appends to the file whose record `s` is at `loc`. */
  function Append(v: Volume, loc: Loc, s: Slot, bytes: seq<byte>): Outcome
    requires 0 < v.csize
  {
    if bytes == [] then Outcome(v, true)
    else if Head(s) < 2 then
      var free := FreeList(v.fat);
      if free == [] then Outcome(v, false)
      else
        var s1 := WithSize(WithHead(s, free[0]), 0);
        AppendTail(Adopt(FillIn(v, [free[0]], []), [free[0]], loc, s1), loc, s1, free[0], 0, bytes)
    else
      var chain := ChainOf(v.kind, v.fat, Head(s));
      if chain == [] then Outcome(v, false)
      else AppendTail(v, loc, s, Last(chain), Rem(Size(s), v.csize), bytes)
  }

  // ---------------------------------------------------------------- operations on a directory

  datatype Mode = ReplaceAll | AppendTo

  /** The caller's buffer; a null pointer may come with any length. */
  datatype Source = Null(length: nat) | Buffer(bytes: seq<byte>)

  function Store(v: Volume, loc: Loc, s: Slot, mode: Mode, src: Source): Outcome
    requires 0 < v.csize
  {
    if IsDirectory(Attr(s)) || (src.Null? && src.length > 0) then Outcome(v, false)
    else
      var bytes := if src.Null? then [] else src.bytes;
      if mode.ReplaceAll? then Replace(v, loc, s, bytes) else Append(v, loc, s, bytes)
  }

  /** Where the record of `name` in directory `d` is stored. */
  function Locate(v: Volume, d: nat, name: ShortName): (r: Option<Loc>)
    requires Shape(v)
    ensures r.Some? ==> IsLoc(v.data, r.value)
  {
    var found := Find(DirOf(v, d), name);
    if found.None? then None
    else
      FindInRange(DirOf(v, d), name, 0);
      LocOfFacts(v.data, DirChain(v, d), found.value);
      Some(LocOf(v.data, DirChain(v, d), found.value))
  }

  function Write(v: Volume, d: nat, name: ShortName, mode: Mode, src: Source): Outcome
    requires Shape(v)
  {
    var found := Locate(v, d, name);
    if found.Some? then Store(v, found.value, Get(v.data, found.value), mode, src)
    else
      var s := Fresh(name, ATTR_FILE);
      var made := Create(v, d, s);
      if made.loc.None? then Outcome(made.v, false) else Store(made.v, made.loc.value, s, mode, src)
  }

  /** A directory with no records but the dot records. */
  predicate VacantFrom(dir: Dir, i: nat)
    requires i <= |dir|
    decreases |dir| - i
  {
    i == |dir| || dir[i].End? || (!(dir[i].Entry? && !dir[i].dot) && VacantFrom(dir, i + 1))
  }

  function Remove(v: Volume, d: nat, name: ShortName): Outcome
    requires Shape(v)
  {
    var found := Locate(v, d, name);
    if found.None? then Outcome(v, false)
    else
      var s := Get(v.data, found.value);
      var chain := ChainOf(v.kind, v.fat, Head(s));
      if IsDirectory(Attr(s)) && Head(s) < 2 && v.kind.Fat16? then Outcome(v, false)
      else if IsDirectory(Attr(s)) && !VacantFrom(Records(v.data, chain), 0) then Outcome(v, false)
      else Outcome(PutAt(v.(fat := Release(v.kind, v.fat, Head(s))), found.value, Erased(s)), true)
  }

  // '.' and '..', padded with blanks
  const DOT: ShortName := [46, 32, 32, 32, 32, 32, 32, 32, 32, 32, 32]
  const DOTDOT: ShortName := [46, 46, 32, 32, 32, 32, 32, 32, 32, 32, 32]

  /** The first cluster of a new directory. */
  function DotBlock(csize: nat, self: nat, parent: nat): seq<byte>
    requires 64 <= csize
  {
    WithHead(Fresh(DOT, ATTR_DIRECTORY), self) + WithHead(Fresh(DOTDOT, ATTR_DIRECTORY), parent) + Zeros(csize - 64)
  }

  function Mkdir(v: Volume, d: nat, name: ShortName): Outcome
    requires Shape(v)
  {
    var s := Fresh(name, ATTR_DIRECTORY);
    if Find(DirOf(v, d), name).Some? then Outcome(v, false)
    else
      var made := Create(v, d, s);
      if made.loc.None? then Outcome(made.v, false)
      else
        var free := FreeList(made.v.fat);
        if free == [] then Outcome(made.v, false)
        else
          var block := DotBlock(v.csize, free[0], if d < 2 && v.kind.Fat16? then 0 else d);
          Outcome(Adopt(FillIn(made.v, [free[0]], block), [free[0]], made.loc.value, WithHead(s, free[0])), true)
  }

  /** Reads at most `max` bytes of a file. */
  function Read(v: Volume, d: nat, name: ShortName, max: nat): Option<seq<byte>>
    requires Shape(v)
  {
    var found := Locate(v, d, name);
    if max == 0 || found.None? then None
    else
      var s := Get(v.data, found.value);
      if IsDirectory(Attr(s)) then None else Some(ReadRecord(v, Decode(s), max))
  }

  function Clip(bytes: seq<byte>, n: nat): seq<byte> {
    if n <= |bytes| then bytes[..n] else bytes
  }

  /** The bytes of the file a record describes, `max` at most. */
  function ReadRecord(v: Volume, r: Record, max: nat): seq<byte>
    requires Shape(v)
  {
    if !r.Entry? || r.head < 2 then []
    else Clip(Clip(ChainBytes(v.data, ChainOf(v.kind, v.fat, r.head)), r.size), max)
  }
}
