/**
 Shared regions: a global table of records, linked from the owner's and from the target's
 own table.  The two sides always agree, a failed share leaves no trace, and an exiting
 process leaves no link behind.
 */
module IpcShare {
  import opened Common

  const MAX_RECORDS: nat := 64
  const MAX_LINKS: nat := 8
  const FREE: int := -1

  datatype Share = Share(owner: int, target: int, addr: nat, pages: nat)

  type Links = seq<int>

  /** The record table, and the link table of every live process. */
  datatype State = State(records: seq<Option<Share>>, links: map<int, Links>)

  // ---------------------------------------------------------------- link tables

  /** How often a table links to record `id`. */
  function Count(slots: Links, id: int): nat {
    if slots == [] then 0 else (if slots[0] == id then 1 else 0) + Count(slots[1..], id)
  }

  function IndexFrom(slots: Links, x: int, i: nat): (r: Option<nat>)
    requires i <= |slots|
    ensures r.Some? ==> i <= r.value < |slots| && slots[r.value] == x && forall j :: i <= j < r.value ==> slots[j] != x
    ensures r.None? ==> forall j :: i <= j < |slots| ==> slots[j] != x
    decreases |slots| - i
  {
    if i == |slots| then None else if slots[i] == x then Some(i) else IndexFrom(slots, x, i + 1)
  }

  /** Takes the first free slot; none if the table is full. */
  function Attach(slots: Links, id: int): Option<Links> {
    var i := IndexFrom(slots, FREE, 0);
    if i.None? then None else Some(slots[i.value := id])
  }

  /** Frees the first slot that links to `id`. */
  function Detach(slots: Links, id: int): Links {
    var i := IndexFrom(slots, id, 0);
    if i.None? then slots else slots[i.value := FREE]
  }

  lemma {:induction false} CountUpdate(slots: Links, i: nat, x: int, id: int)
    requires i < |slots|
    ensures Count(slots[i := x], id) == Count(slots, id) - (if slots[i] == id then 1 else 0) + (if x == id then 1 else 0)
  {
    if i == 0 {
      assert slots[0 := x][1..] == slots[1..];
    } else {
      assert slots[i := x][1..] == slots[1..][i - 1 := x];
      CountUpdate(slots[1..], i - 1, x, id);
    }
  }

  lemma {:induction false} CountZero(slots: Links, id: int)
    ensures Count(slots, id) == 0 <==> forall j :: 0 <= j < |slots| ==> slots[j] != id
  {
    if slots != [] {
      CountZero(slots[1..], id);
      assert forall j :: 0 <= j < |slots[1..]| ==> slots[1..][j] == slots[j + 1];
      if Count(slots, id) == 0 {
        assert forall j :: 0 < j < |slots| ==> slots[j] == slots[1..][j - 1];
      }
    }
  }

  lemma AttachFacts(slots: Links, id: int)
    requires id >= 0
    ensures Attach(slots, id).Some? ==> |Attach(slots, id).value| == |slots|
    ensures Attach(slots, id).Some? ==> forall x :: x >= 0 ==> Count(Attach(slots, id).value, x) == Count(slots, x) + if x == id then 1 else 0
  {
    var i := IndexFrom(slots, FREE, 0);
    if i.Some? {
      forall x | x >= 0
        ensures Count(slots[i.value := id], x) == Count(slots, x) + if x == id then 1 else 0
      {
        CountUpdate(slots, i.value, id, x);
      }
    }
  }

  lemma DetachFacts(slots: Links, id: int)
    requires id >= 0
    ensures |Detach(slots, id)| == |slots|
    ensures forall x :: x >= 0 && x != id ==> Count(Detach(slots, id), x) == Count(slots, x)
    ensures Count(Detach(slots, id), id) == if Count(slots, id) == 0 then 0 else Count(slots, id) - 1
    ensures Count(slots, id) == 0 ==> Detach(slots, id) == slots
  {
    var i := IndexFrom(slots, id, 0);
    CountZero(slots, id);
    if i.Some? {
      forall x | x >= 0
        ensures Count(slots[i.value := FREE], x) == Count(slots, x) - if x == id then 1 else 0
      {
        CountUpdate(slots, i.value, FREE, x);
      }
    }
  }

  /** Detaching what was just attached restores the table. */
  lemma AttachThenDetach(slots: Links, id: int)
    requires id >= 0 && Count(slots, id) == 0 && Attach(slots, id).Some?
    ensures Detach(Attach(slots, id).value, id) == slots
  {
    CountZero(slots, id);
    var i := IndexFrom(slots, FREE, 0).value;
    var t := slots[i := id];
    var k := IndexFrom(t, id, 0);
    assert t[i] == id;
    assert k == Some(i);
    assert t[i := FREE] == slots;
  }

  // ---------------------------------------------------------------- sharing

  function FreeRecord(records: seq<Option<Share>>, i: nat): (r: Option<nat>)
    requires i <= |records|
    ensures r.Some? ==> i <= r.value < |records| && records[r.value].None?
    decreases |records| - i
  {
    if i == |records| then None else if records[i].None? then Some(i) else FreeRecord(records, i + 1)
  }

  /** The links of `p` changed; a process that is not live has none. */
  function WithLinks(s: State, p: int, slots: Links): State {
    if p in s.links then s.(links := s.links[p := slots]) else s
  }

  function DetachFrom(s: State, p: int, id: int): State {
    if p in s.links then WithLinks(s, p, Detach(s.links[p], id)) else s
  }

  function Forget(s: State, id: nat): State {
    if id < |s.records| then s.(records := s.records[id := None]) else s
  }

  /** Undoes a share that could not be linked on both sides. */
  function RollBack(s: State, owner: int, target: int, id: nat): State {
    Forget(DetachFrom(DetachFrom(s, owner, id), target, id), id)
  }

  /** Records a share and links it on both sides, or undoes what was done. */
  function MakeShare(s: State, share: Share): (State, bool)
    requires share.owner in s.links
  {
    var id := FreeRecord(s.records, 0);
    if share.target !in s.links || id.None? then (s, false)
    else
      var s1 := s.(records := s.records[id.value := Some(share)]);
      var own := Attach(s1.links[share.owner], id.value);
      if own.None? then (RollBack(s1, share.owner, share.target, id.value), false)
      else
        var s2 := WithLinks(s1, share.owner, own.value);
        var other := Attach(s2.links[share.target], id.value);
        if other.None? then (RollBack(s2, share.owner, share.target, id.value), false)
        else (WithLinks(s2, share.target, other.value), true)
  }

  predicate Involves(r: Option<Share>, p: int) {
    r.Some? && (r.value.owner == p || r.value.target == p)
  }

  /** Drops the shares of process `p` from record `i` on. */
  function DropFrom(s: State, p: int, i: nat): State
    requires i <= |s.records|
    decreases |s.records| - i
  {
    if i == |s.records| then s
    else if Involves(s.records[i], p) then
      var r := s.records[i].value;
      DropFrom(RollBack(s, r.owner, r.target, i), p, i + 1)
    else DropFrom(s, p, i + 1)
  }

  /** A process exits: its shares are dropped and its table goes away. */
  function Exit(s: State, p: int): State {
    var s1 := DropFrom(s, p, 0);
    s1.(links := s1.links - {p})
  }

  function Start(s: State, p: int): State {
    s.(links := s.links[p := seq(MAX_LINKS, i => FREE)])
  }

  // ---------------------------------------------------------------- agreement

  function Ends(r: Option<Share>, p: int): nat {
    if r.None? then 0 else (if r.value.owner == p then 1 else 0) + (if r.value.target == p then 1 else 0)
  }

  /** Process `p` links to record `id` once for each end of it that `p` is. */
  ghost predicate AgreeAt(s: State, p: int, id: nat)
    requires p in s.links && id < |s.records|
  {
    Count(s.links[p], id) == Ends(s.records[id], p)
  }

  ghost predicate Agree(s: State) {
    && |s.records| == MAX_RECORDS
    && (forall p :: p in s.links ==> |s.links[p]| == MAX_LINKS)
    && (forall p, id :: p in s.links && 0 <= id < |s.records| ==> AgreeAt(s, p, id))
    && (forall id :: 0 <= id < |s.records| && s.records[id].Some? ==> s.records[id].value.owner in s.links && s.records[id].value.target in s.links)
  }

  /** Undoing a share on both sides makes everybody agree that the record is free. */
  lemma RollBackAt(s: State, owner: int, target: int, id: nat, p: int, x: nat)
    requires p in s.links && id < |s.records| && x < |s.records|
    ensures var s' := RollBack(s, owner, target, id);
      && s'.links.Keys == s.links.Keys && |s'.links[p]| == |s.links[p]|
      && s'.records == s.records[id := None]
      && (x != id ==> Count(s'.links[p], x) == Count(s.links[p], x))
      && (Count(s.links[p], id) == Ends(Some(Share(owner, target, 0, 0)), p) ==> Count(s'.links[p], id) == 0)
  {
    DetachFacts(s.links[p], id);
    DetachFacts(Detach(s.links[p], id), id);
    hide Detach, Count;
  }

  lemma FailedAttach(s: State, s1: State, share: Share, id: nat)
    requires Agree(s) && id < |s.records| && s.records[id].None? && s1 == s.(records := s.records[id := Some(share)])
    requires share.owner in s.links && share.target in s.links
    ensures RollBack(s1, share.owner, share.target, id) == s
  {
    assert AgreeAt(s, share.owner, id) && AgreeAt(s, share.target, id);
    DetachFacts(s.links[share.owner], id);
    DetachFacts(s.links[share.target], id);
    hide Detach, Count;
    assert s1.records[id := None] == s.records;
    assert s.links[share.owner := s.links[share.owner]] == s.links;
    assert s.links[share.target := s.links[share.target]] == s.links;
  }

  lemma FailedSecond(s: State, s2: State, share: Share, id: nat)
    requires Agree(s) && id < |s.records| && s.records[id].None? && share.owner in s.links && share.target in s.links
    requires Attach(s.links[share.owner], id).Some?
    requires s2 == s.(records := s.records[id := Some(share)], links := s.links[share.owner := Attach(s.links[share.owner], id).value])
    ensures RollBack(s2, share.owner, share.target, id) == s
  {
    assert AgreeAt(s, share.owner, id) && AgreeAt(s, share.target, id);
    AttachThenDetach(s.links[share.owner], id);
    DetachFacts(s.links[share.target], id);
    hide Detach, Attach, Count;
    var s3 := DetachFrom(s2, share.owner, id);
    assert s3.links == s.links;
    assert s.links[share.target := s.links[share.target]] == s.links;
    assert s2.records[id := None] == s.records;
  }

  lemma MadeAgrees(s: State, share: Share, id: nat, s': State)
    requires Agree(s) && id < |s.records| && s.records[id].None? && share.owner in s.links && share.target in s.links
    requires s'.records == s.records[id := Some(share)] && s'.links.Keys == s.links.Keys
    requires forall p :: p in s.links ==> |s'.links[p]| == MAX_LINKS
    requires forall p, x :: p in s.links && x >= 0 ==> Count(s'.links[p], x) == Count(s.links[p], x) + if x == id then Ends(Some(share), p) else 0
    ensures Agree(s')
  {
    forall p, x | p in s'.links && 0 <= x < |s'.records|
      ensures AgreeAt(s', p, x)
    {
      assert AgreeAt(s, p, x);
    }
  }

  /** A share is recorded and linked on both sides, or nothing changes at all. */
  lemma ShareKeeps(s: State, share: Share)
    requires Agree(s) && share.owner in s.links
    ensures Agree(MakeShare(s, share).0)
    ensures !MakeShare(s, share).1 ==> MakeShare(s, share).0 == s
    ensures MakeShare(s, share).1 ==>
      exists id :: 0 <= id < |s.records| && s.records[id].None? && MakeShare(s, share).0.records == s.records[id := Some(share)]
  {
    var free := FreeRecord(s.records, 0);
    if share.target in s.links && free.Some? {
      var id := free.value;
      var s1 := s.(records := s.records[id := Some(share)]);
      var own := Attach(s1.links[share.owner], id);
      if own.None? {
        FailedAttach(s, s1, share, id);
      } else {
        var s2 := WithLinks(s1, share.owner, own.value);
        var other := Attach(s2.links[share.target], id);
        if other.None? {
          FailedSecond(s, s2, share, id);
        } else {
          var s3 := WithLinks(s2, share.target, other.value);
          AttachFacts(s.links[share.owner], id);
          AttachFacts(s2.links[share.target], id);
          hide Attach, Count, FreeRecord;
          MadeAgrees(s, share, id, s3);
        }
      }
    }
  }

  /** Every process agrees except about the records of `p` below `i`, which are gone. */
  lemma {:induction false} DropKeeps(s: State, p: int, i: nat)
    requires Agree(s) && i <= |s.records| && forall j :: 0 <= j < i ==> !Involves(s.records[j], p)
    ensures var s' := DropFrom(s, p, i);
      && Agree(s') && s'.links.Keys == s.links.Keys
      && (forall j :: 0 <= j < |s'.records| ==> s'.records[j] == if Involves(s.records[j], p) then None else s.records[j])
    decreases |s.records| - i
  {
    if i < |s.records| {
      if Involves(s.records[i], p) {
        var r := s.records[i].value;
        var s1 := RollBack(s, r.owner, r.target, i);
        DropOneKeeps(s, i);
        hide RollBack;
        DropKeeps(s1, p, i + 1);
      } else {
        DropKeeps(s, p, i + 1);
      }
    }
  }

  lemma DropOneKeeps(s: State, i: nat)
    requires Agree(s) && i < |s.records| && s.records[i].Some?
    ensures var r := s.records[i].value;
      var s' := RollBack(s, r.owner, r.target, i);
      Agree(s') && s'.links.Keys == s.links.Keys && s'.records == s.records[i := None]
  {
    var r := s.records[i].value;
    var s' := RollBack(s, r.owner, r.target, i);
    RollBackAt(s, r.owner, r.target, i, r.owner, i);
    forall p, x | p in s'.links && 0 <= x < |s'.records|
      ensures AgreeAt(s', p, x)
    {
      assert AgreeAt(s, p, x) && AgreeAt(s, p, i);
      RollBackAt(s, r.owner, r.target, i, p, x);
    }
    forall p | p in s'.links
      ensures |s'.links[p]| == MAX_LINKS
    {
      RollBackAt(s, r.owner, r.target, i, p, i);
    }
    hide RollBack;
  }

  /** An exiting process leaves no record and no link behind, and takes nobody else's. */
  lemma ExitKeeps(s: State, p: int)
    requires Agree(s)
    ensures Agree(Exit(s, p)) && Exit(s, p).links.Keys == s.links.Keys - {p}
    ensures forall j :: 0 <= j < |s.records| ==> !Involves(Exit(s, p).records[j], p)
    ensures forall j :: 0 <= j < |s.records| && !Involves(s.records[j], p) ==> Exit(s, p).records[j] == s.records[j]
  {
    DropKeeps(s, p, 0);
    var s1 := DropFrom(s, p, 0);
    var s2 := Exit(s, p);
    hide DropFrom;
    forall q, x | q in s2.links && 0 <= x < |s2.records|
      ensures AgreeAt(s2, q, x)
    {
      assert AgreeAt(s1, q, x);
    }
  }

  lemma {:induction false} NoneLinked(n: nat, id: int)
    requires id >= 0
    ensures Count(seq(n, i => FREE), id) == 0
  {
    CountZero(seq(n, i => FREE), id);
  }

  lemma StartKeeps(s: State, p: int)
    requires Agree(s) && p !in s.links
    ensures Agree(Start(s, p))
  {
    var s' := Start(s, p);
    forall q, x | q in s'.links && 0 <= x < |s'.records|
      ensures AgreeAt(s', q, x)
    {
      if q == p {
        NoneLinked(MAX_LINKS, x);
      } else {
        assert AgreeAt(s, q, x);
      }
    }
  }

  // ---------------------------------------------------------------- runs

  datatype Step = Begin(p: int) | Offer(share: Share) | Leave(p: int)

  predicate Enabled(s: State, step: Step) {
    match step
    case Begin(p) => p !in s.links
    case Offer(share) => share.owner in s.links
    case Leave(p) => p in s.links
  }

  function Next(s: State, step: Step): State
    requires Enabled(s, step)
  {
    match step
    case Begin(p) => Start(s, p)
    case Offer(share) => MakeShare(s, share).0
    case Leave(p) => Exit(s, p)
  }

  ghost predicate Run(s: State, steps: seq<Step>, t: State)
    decreases |steps|
  {
    if steps == [] then t == s else Enabled(s, steps[0]) && Run(Next(s, steps[0]), steps[1..], t)
  }

  function Initial(): State {
    State(seq(MAX_RECORDS, i => None), map[])
  }

  /** Over every run, a record is live exactly when its owner and its target link to it. */
  lemma {:induction false} TwoSidesAgree(s: State, steps: seq<Step>, t: State)
    requires Agree(s) && Run(s, steps, t)
    ensures Agree(t)
    decreases |steps|
  {
    if steps != [] {
      match steps[0] {
        case Begin(p) => StartKeeps(s, p);
        case Offer(share) => ShareKeeps(s, share);
        case Leave(p) => ExitKeeps(s, p);
      }
      hide Agree, Start, MakeShare, Exit;
      TwoSidesAgree(Next(s, steps[0]), steps[1..], t);
    }
  }

  lemma InitialAgrees()
    ensures Agree(Initial())
  {
  }

  /** So they do in every state that a run reaches from the empty tables. */
  lemma AgreeFromStart(steps: seq<Step>, t: State)
    requires Run(Initial(), steps, t)
    ensures Agree(t)
  {
    hide Agree, Run, Initial;
    InitialAgrees();
    TwoSidesAgree(Initial(), steps, t);
  }
}
