/**
 The file allocation table as a sequence of entries, indexed by cluster number: the
 end-of-chain encoding, the first-fit allocator, linked cluster chains and the walk that
 releases them.  Clusters 0 and 1 are reserved; data clusters are 2 .. |fat|-1.
 */
module FatTable {
  import opened Common
  import opened Arith

  datatype Kind = Fat16 | Fat32

  type Table = seq<nat>

  function Eoc(kind: Kind): nat {
    if kind.Fat32? then 0x0FFF_FFF8 else 0xFFF8
  }

  predicate IsEoc(kind: Kind, value: nat) {
    if kind.Fat32? then Rem(value, 0x1000_0000) >= 0x0FFF_FFF8 else value >= 0xFFF8
  }

  /** Small enough that no cluster number reads as an end-of-chain mark. */
  predicate Bounded(kind: Kind, fat: Table) {
    2 <= |fat| <= Eoc(kind)
  }

  lemma ClusterIsNotEoc(kind: Kind, fat: Table, c: nat)
    requires Bounded(kind, fat) && c < |fat|
    ensures !IsEoc(kind, c)
  {
  }

  // ---------------------------------------------------------------- free clusters

  /** The free clusters numbered `c` or higher, in ascending order. */
  function FreeFrom(fat: Table, c: nat): seq<nat>
    requires c <= |fat|
    decreases |fat| - c
  {
    if c == |fat| then []
    else if fat[c] == 0 then [c] + FreeFrom(fat, c + 1)
    else FreeFrom(fat, c + 1)
  }

  /** All free data clusters in the order the first-fit allocator hands them out. */
  function FreeList(fat: Table): seq<nat> {
    if |fat| < 2 then [] else FreeFrom(fat, 2)
  }

  ghost predicate Disjoint(s: seq<nat>, t: seq<nat>) {
    forall x :: x in s ==> x !in t
  }

  /** Every element of `s` numbers a data cluster of the table. */
  ghost predicate InRange(fat: Table, s: seq<nat>) {
    forall i :: 0 <= i < |s| ==> 2 <= s[i] < |fat|
  }

  lemma {:induction false} FreeFromFacts(fat: Table, c: nat)
    requires c <= |fat|
    ensures forall x :: x in FreeFrom(fat, c) <==> c <= x < |fat| && fat[x] == 0
    ensures Distinct(FreeFrom(fat, c))
    ensures forall i :: 0 <= i < |FreeFrom(fat, c)| ==> c <= FreeFrom(fat, c)[i]
    decreases |fat| - c
  {
    if c < |fat| {
      FreeFromFacts(fat, c + 1);
    }
  }

  /** The free list holds exactly the zero entries, each once. */
  lemma FreeListFacts(fat: Table)
    ensures forall x :: x in FreeList(fat) <==> 2 <= x < |fat| && fat[x] == 0
    ensures Distinct(FreeList(fat))
    ensures InRange(fat, FreeList(fat))
  {
    if |fat| >= 2 {
      FreeFromFacts(fat, 2);
      assert forall i :: 0 <= i < |FreeList(fat)| ==> FreeList(fat)[i] in FreeList(fat);
    }
  }

  lemma {:induction false} FreeFromSame(fat: Table, fat': Table, c: nat)
    requires c <= |fat| == |fat'|
    requires forall x :: c <= x < |fat| ==> (fat[x] == 0 <==> fat'[x] == 0)
    ensures FreeFrom(fat, c) == FreeFrom(fat', c)
    decreases |fat| - c
  {
    if c < |fat| {
      FreeFromSame(fat, fat', c + 1);
    }
  }

  /** Tables with the same zero entries have the same free list. */
  lemma FreeListSame(fat: Table, fat': Table)
    requires |fat| == |fat'|
    requires forall x :: 2 <= x < |fat| ==> (fat[x] == 0 <==> fat'[x] == 0)
    ensures FreeList(fat) == FreeList(fat')
  {
    if |fat| >= 2 {
      FreeFromSame(fat, fat', 2);
    }
  }

  lemma {:induction false} TakeFirstFrom(fat: Table, c: nat, value: nat)
    requires c <= |fat| && FreeFrom(fat, c) != [] && value != 0
    ensures FreeFrom(fat, c)[0] < |fat|
    ensures FreeFrom(fat[FreeFrom(fat, c)[0] := value], c) == FreeFrom(fat, c)[1..]
    decreases |fat| - c
  {
    FreeFromFacts(fat, c);
    var first := FreeFrom(fat, c)[0];
    assert first in FreeFrom(fat, c);
    if fat[c] == 0 {
      FreeFromSame(fat, fat[c := value], c + 1);
    } else {
      TakeFirstFrom(fat, c + 1, value);
    }
  }

  /** Taking the first free cluster leaves the rest of the free list. */
  lemma TakeFirst(fat: Table, value: nat)
    requires FreeList(fat) != [] && value != 0
    ensures 2 <= FreeList(fat)[0] < |fat| && fat[FreeList(fat)[0]] == 0
    ensures FreeList(fat[FreeList(fat)[0] := value]) == FreeList(fat)[1..]
  {
    FreeListFacts(fat);
    assert FreeList(fat)[0] in FreeList(fat);
    TakeFirstFrom(fat, 2, value);
  }

  // ---------------------------------------------------------------- chains

  ghost predicate IsChain(kind: Kind, fat: Table, s: seq<nat>) {
    && s != []
    && InRange(fat, s)
    && Distinct(s)
    && (forall i :: 0 <= i < |s| - 1 ==> fat[s[i]] == s[i + 1])
    && IsEoc(kind, fat[s[|s| - 1]])
  }

  function Last(s: seq<nat>): nat
    requires s != []
  {
    s[|s| - 1]
  }

  /** The table after linking the clusters `t`, one by one, behind cluster `last`. */
  function Attach(kind: Kind, fat: Table, last: nat, t: seq<nat>): Table
    decreases |t|
  {
    if t == [] then fat
    else if last < |fat| && t[0] < |fat| then
      Attach(kind, fat[t[0] := Eoc(kind)][last := t[0]], t[0], t[1..])
    else fat
  }

  /** The table after allocating `t` and linking it as a new chain. */
  function Link(kind: Kind, fat: Table, t: seq<nat>): Table {
    if t == [] || t[0] >= |fat| then fat
    else Attach(kind, fat[t[0] := Eoc(kind)], t[0], t[1..])
  }

  ghost predicate AllFree(fat: Table, t: seq<nat>) {
    forall i :: 0 <= i < |t| ==> 2 <= t[i] < |fat| && fat[t[i]] == 0
  }

  /** Linking one free cluster behind a chain makes a chain one longer. */
  lemma ExtendByOne(kind: Kind, fat: Table, s: seq<nat>, c: nat)
    requires IsChain(kind, fat, s) && c !in s && 2 <= c < |fat|
    ensures IsChain(kind, fat[c := Eoc(kind)][Last(s) := c], s + [c])
  {
    var fat' := fat[c := Eoc(kind)][Last(s) := c];
    forall i | 0 <= i < |s|
      ensures fat'[s[i]] == (s + [c])[i + 1]
    {
      assert s[i] in s;
    }
  }

  lemma RestStaysFree(kind: Kind, fat: Table, s: seq<nat>, t: seq<nat>)
    requires s != [] && InRange(fat, s) && t != []
    requires AllFree(fat, t) && Distinct(t) && Disjoint(s, t)
    ensures AllFree(fat[t[0] := Eoc(kind)][Last(s) := t[0]], t[1..])
    ensures Distinct(t[1..]) && Disjoint(s + [t[0]], t[1..])
  {
    assert Last(s) in s;
    var r := t[1..];
    forall i | 0 <= i < |r|
      ensures r[i] != t[0] && r[i] != Last(s) && r[i] in t
    {
      assert r[i] == t[i + 1];
      assert Last(s) !in t;
    }
  }

  lemma AttachCons(kind: Kind, fat: Table, last: nat, t: seq<nat>)
    requires t != [] && last < |fat| && t[0] < |fat|
    ensures Attach(kind, fat, last, t) == Attach(kind, fat[t[0] := Eoc(kind)][last := t[0]], t[0], t[1..])
  {
  }

  lemma FirstOfFree(kind: Kind, fat: Table, s: seq<nat>, t: seq<nat>)
    requires IsChain(kind, fat, s) && t != [] && AllFree(fat, t) && Disjoint(s, t)
    ensures 2 <= t[0] < |fat| && t[0] !in s && 2 <= Last(s) < |fat| && InRange(fat, s) && Last(s + [t[0]]) == t[0]
  {
    assert t[0] in t;
    assert forall x :: x in s ==> x != t[0];
  }

  lemma InTail(t: seq<nat>, x: nat)
    requires t != []
    ensures x in t <==> x == t[0] || x in t[1..]
  {
    assert t == [t[0]] + t[1..];
  }

  lemma LastOfAppend(s: seq<nat>, c: nat)
    ensures Last(s + [c]) == c
  {
  }

  lemma {:induction false} AttachExtends(kind: Kind, fat: Table, s: seq<nat>, t: seq<nat>)
    requires s != [] && IsChain(kind, fat, s)
    requires AllFree(fat, t) && Distinct(t) && Disjoint(s, t)
    ensures |Attach(kind, fat, Last(s), t)| == |fat|
    ensures IsChain(kind, Attach(kind, fat, Last(s), t), s + t)
    ensures forall x :: 0 <= x < |fat| && x !in t && x != Last(s) ==> Attach(kind, fat, Last(s), t)[x] == fat[x]
    decreases |t|
  {
    if t == [] {
      assert s + t == s;
    } else {
      hide *;
      var c, last := t[0], Last(s);
      FirstOfFree(kind, fat, s, t);
      ExtendByOne(kind, fat, s, c);
      RestStaysFree(kind, fat, s, t);
      AttachCons(kind, fat, last, t);
      var fat1 := fat[c := Eoc(kind)][last := c];
      LastOfAppend(s, c);
      AttachExtends(kind, fat1, s + [c], t[1..]);
      assert s + [c] + t[1..] == s + t;
      forall x | 0 <= x < |fat| && x !in t && x != last
        ensures Attach(kind, fat, last, t)[x] == fat[x]
      {
        InTail(t, x);
        assert fat1[x] == fat[x];
      }
    }
  }

  /** Linking distinct free clusters makes them a chain and touches nothing else. */
  lemma LinkMakesChain(kind: Kind, fat: Table, t: seq<nat>)
    requires t != [] && Bounded(kind, fat)
    requires AllFree(fat, t) && Distinct(t)
    ensures |Link(kind, fat, t)| == |fat|
    ensures IsChain(kind, Link(kind, fat, t), t)
    ensures forall x :: 0 <= x < |fat| && x !in t ==> Link(kind, fat, t)[x] == fat[x]
  {
    hide *;
    FirstLinked(kind, fat, t);
    var fat' := fat[t[0] := Eoc(kind)];
    AttachExtends(kind, fat', [t[0]], t[1..]);
    assert [t[0]] + t[1..] == t;
    LinkUnfold(kind, fat, t);
    forall x | 0 <= x < |fat| && x !in t
      ensures Link(kind, fat, t)[x] == fat[x]
    {
      InTail(t, x);
    }
  }

  lemma FirstLinked(kind: Kind, fat: Table, t: seq<nat>)
    requires t != [] && Bounded(kind, fat) && AllFree(fat, t) && Distinct(t)
    ensures t[0] < |fat| && Last([t[0]]) == t[0] && IsChain(kind, fat[t[0] := Eoc(kind)], [t[0]])
    ensures AllFree(fat[t[0] := Eoc(kind)], t[1..]) && Distinct(t[1..]) && Disjoint([t[0]], t[1..])
  {
  }

  lemma LinkUnfold(kind: Kind, fat: Table, t: seq<nat>)
    requires t != [] && t[0] < |fat|
    ensures Link(kind, fat, t) == Attach(kind, fat[t[0] := Eoc(kind)], t[0], t[1..])
  {
  }

  /** Chain members are never free. */
  lemma ChainIsNonzero(kind: Kind, fat: Table, s: seq<nat>)
    requires IsChain(kind, fat, s)
    ensures forall x :: x in s ==> fat[x] != 0
  {
    forall x | x in s
      ensures fat[x] != 0
    {
      var i :| 0 <= i < |s| && s[i] == x;
      if i < |s| - 1 {
        assert s[i + 1] in s;
      }
    }
  }

  // ---------------------------------------------------------------- release

  ghost function Nonzero(fat: Table): set<nat> {
    set c | 0 <= c < |fat| && fat[c] != 0
  }

  /**
   The table after the releasing walk from `c`: read the link, clear the entry, stop at an
   end-of-chain link, otherwise follow the link.  Total on every table content.
   */
  function Release(kind: Kind, fat: Table, c: nat): Table
    decreases Nonzero(fat), if c >= 2 then 1 else 0
  {
    if c < 2 || c >= |fat| then fat
    else
      var next := fat[c];
      var fat' := fat[c := 0];
      assert next != 0 ==> c in Nonzero(fat) && c !in Nonzero(fat');
      assert next == 0 ==> fat' == fat;
      if IsEoc(kind, next) then fat' else Release(kind, fat', next)
  }

  /** The `k`-th cluster the walk from `c` visits in an unchanging table, or 0. */
  function Visit(kind: Kind, fat: Table, c: nat, k: nat): nat
    decreases k
  {
    if c < 2 || c >= |fat| then 0
    else if k == 0 then c
    else if IsEoc(kind, fat[c]) then 0
    else Visit(kind, fat, fat[c], k - 1)
  }

  /** Cluster `x` lies on the walk from `c`. */
  ghost predicate Reaches(kind: Kind, fat: Table, c: nat, x: nat) {
    x >= 2 && exists k: nat :: Visit(kind, fat, c, k) == x
  }

  /** A visit that never meets `z` is the same when entry `z` is cleared. */
  lemma {:induction false} VisitAvoiding(kind: Kind, fat: Table, c: nat, k: nat, z: nat)
    requires z < |fat|
    requires forall j: nat :: j < k ==> Visit(kind, fat, c, j) != z
    ensures Visit(kind, fat[z := 0], c, k) == Visit(kind, fat, c, k)
    decreases k
  {
    if k > 0 && 2 <= c < |fat| && !IsEoc(kind, fat[c]) {
      assert Visit(kind, fat, c, 0) == c;
      forall j: nat | j < k - 1
        ensures Visit(kind, fat, fat[c], j) != z
      {
        assert Visit(kind, fat, c, j + 1) == Visit(kind, fat, fat[c], j);
      }
      VisitAvoiding(kind, fat, fat[c], k - 1, z);
    }
  }

  /** Once the walk meets `z` it continues as the walk from `z`. */
  lemma {:induction false} VisitSplit(kind: Kind, fat: Table, c: nat, j: nat, k: nat)
    requires j <= k && Visit(kind, fat, c, j) != 0
    ensures Visit(kind, fat, c, k) == Visit(kind, fat, Visit(kind, fat, c, j), k - j)
    decreases j
  {
    if j > 0 {
      VisitSplit(kind, fat, fat[c], j - 1, k - 1);
    }
  }

  lemma {:induction false} ReachOneStep(kind: Kind, fat: Table, c: nat, x: nat, k: nat)
    requires 2 <= c < |fat| && x >= 2
    requires Visit(kind, fat, c, k) == x && x != c
    ensures !IsEoc(kind, fat[c])
    ensures Reaches(kind, fat[c := 0], fat[c], x)
    decreases k
  {
    assert k > 0;
    if j: nat :| j < k - 1 && Visit(kind, fat, fat[c], j) == c {
      VisitSplit(kind, fat, fat[c], j, k - 1);
      ReachOneStep(kind, fat, c, x, k - 1 - j);
    } else {
      VisitAvoiding(kind, fat, fat[c], k - 1, c);
    }
  }

  lemma {:induction false} ClearedStillReached(kind: Kind, fat: Table, d: nat, x: nat, k: nat, z: nat)
    requires 2 <= z < |fat| && x >= 2
    requires Visit(kind, fat[z := 0], d, k) == x
    ensures Visit(kind, fat, d, k) == x
    decreases k
  {
    if k > 0 {
      if d == z {
        assert Visit(kind, fat[z := 0], 0, k - 1) == 0;
      } else {
        ClearedStillReached(kind, fat, fat[d], x, k - 1, z);
      }
    }
  }

  lemma ReachesUnfold(kind: Kind, fat: Table, c: nat, x: nat)
    requires 2 <= c < |fat| && !IsEoc(kind, fat[c]) && x != c
    ensures Reaches(kind, fat, c, x) <==> Reaches(kind, fat[c := 0], fat[c], x)
  {
    if Reaches(kind, fat, c, x) {
      var k: nat :| Visit(kind, fat, c, k) == x;
      ReachOneStep(kind, fat, c, x, k);
    }
    if Reaches(kind, fat[c := 0], fat[c], x) {
      var k: nat :| Visit(kind, fat[c := 0], fat[c], k) == x;
      ClearedStillReached(kind, fat, fat[c], x, k, c);
      assert Visit(kind, fat, c, k + 1) == x;
    }
  }

  /**
   On every table, cyclic and cross-linked ones included, the releasing walk clears exactly
   the in-range entries that lie on the walk in the original table, and keeps all others.
   */
  lemma {:induction false} ReleaseClearsExactlyTheWalk(kind: Kind, fat: Table, c: nat, x: nat)
    requires x < |fat|
    ensures |Release(kind, fat, c)| == |fat|
    ensures Release(kind, fat, c)[x] == if Reaches(kind, fat, c, x) then 0 else fat[x]
    decreases Nonzero(fat), if c >= 2 then 1 else 0
  {
    if c < 2 || c >= |fat| {
      assert forall k: nat :: Visit(kind, fat, c, k) == 0;
    } else {
      var next, fat' := fat[c], fat[c := 0];
      assert next != 0 ==> c in Nonzero(fat) && c !in Nonzero(fat');
      assert next == 0 ==> fat' == fat;
      assert Visit(kind, fat, c, 0) == c;
      if IsEoc(kind, next) {
        assert forall k: nat :: k > 0 ==> Visit(kind, fat, c, k) == 0;
      } else {
        ReleaseClearsExactlyTheWalk(kind, fat', next, x);
        if x != c {
          ReachesUnfold(kind, fat, c, x);
        }
      }
    }
  }

  /** The table with the entries of `s` cleared. */
  function Zeroed(fat: Table, s: seq<nat>): Table {
    seq(|fat|, c requires 0 <= c < |fat| => if c in s then 0 else fat[c])
  }

  /** Releasing a well-formed chain clears its entries and no others. */
  lemma {:induction false} ReleaseChain(kind: Kind, fat: Table, s: seq<nat>)
    requires IsChain(kind, fat, s) && Bounded(kind, fat)
    ensures Release(kind, fat, s[0]) == Zeroed(fat, s)
    decreases |s|
  {
    var c := s[0];
    assert c in s;
    var fat' := fat[c := 0];
    if |s| == 1 {
      assert Zeroed(fat, s) == fat';
    } else {
      var r := s[1..];
      ClusterIsNotEoc(kind, fat, s[1]);
      ReleaseChain(kind, fat', r);
      assert forall x :: x in s <==> x == c || x in r by {
        assert s == [c] + r;
      }
      assert Zeroed(fat', r) == Zeroed(fat, s);
    }
  }
}
