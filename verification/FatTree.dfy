/**
 The directory tree of a volume: which directories exist, what their slots are, and which
 slot owns which chain.  Every chain except the root directory's has exactly one owner, and
 ownership never runs in circles.
 */
module FatTree {
  import opened FatSlots

  /** Slot `k` of directory `d`. */
  datatype Ref = Ref(d: nat, k: nat)

  /**
   `view` holds the slots of each live directory, keyed by head cluster (0 is the fixed
   root area); `own` gives the owning slot of each owned chain; `rank` grows downwards.
   */
  datatype Tree = Tree(view: map<nat, Dir>, own: map<nat, Ref>, rank: map<nat, nat>, root: nat)

  ghost predicate IsRef(t: Tree, r: Ref) {
    r.d in t.view && r.k < |t.view[r.d]|
  }

  ghost function At(t: Tree, r: Ref): Record
    requires IsRef(t, r)
  {
    t.view[r.d][r.k]
  }

  ghost predicate DirsOk(t: Tree) {
    t.root in t.view && forall d :: d in t.view ==> DirOk(t.view[d])
  }

  /** Each recorded owner is a slot that owns that chain. */
  ghost predicate OwnersOwn(t: Tree, heads: set<nat>) {
    && t.own.Keys == heads - {t.root}
    && forall h :: h in t.own ==> IsRef(t, t.own[h]) && Owns(At(t, t.own[h])) && At(t, t.own[h]).head == h
  }

  /** Each slot that owns a chain is the recorded owner; directories own directories. */
  ghost predicate OwnedOnce(t: Tree) {
    forall r :: IsRef(t, r) && Owns(At(t, r)) ==>
      && At(t, r).head in t.own && t.own[At(t, r).head] == r
      && (At(t, r).directory <==> At(t, r).head in t.view)
  }

  /** Every directory below the root hangs under a directory of smaller rank. */
  ghost predicate Ranked(t: Tree) {
    && t.rank.Keys == t.view.Keys
    && forall d :: d in t.view && d != t.root ==>
      d in t.own && t.own[d].d in t.rank && t.rank[t.own[d].d] < t.rank[d]
  }

  ghost predicate TreeOk(t: Tree, heads: set<nat>) {
    DirsOk(t) && OwnersOwn(t, heads) && OwnedOnce(t) && Ranked(t)
  }

  /** The tree with slot `r` rewritten. */
  ghost function SetAt(t: Tree, r: Ref, s: Record): Tree
    requires IsRef(t, r)
  {
    t.(view := t.view[r.d := t.view[r.d][r.k := s]])
  }

  lemma SetAtReads(t: Tree, r: Ref, s: Record)
    requires IsRef(t, r)
    ensures forall q :: IsRef(SetAt(t, r, s), q) <==> IsRef(t, q)
    ensures forall q :: IsRef(t, q) ==> At(SetAt(t, r, s), q) == if q == r then s else At(t, q)
    ensures SetAt(t, r, s).view.Keys == t.view.Keys
    ensures SetAt(t, r, s).root == t.root && SetAt(t, r, s).own == t.own && SetAt(t, r, s).rank == t.rank
  {
  }

  /** The directory-level conditions for writing slot `s` at `r`. */
  ghost predicate Fits(t: Tree, r: Ref, s: Record)
    requires IsRef(t, r)
  {
    var dir := t.view[r.d];
    && !s.End?
    && (forall j :: 0 <= j < r.k ==> !dir[j].End?)
    && (s.Entry? ==> forall j :: 0 <= j < |dir| && j != r.k && dir[j].Entry? ==> dir[j].name != s.name)
  }

  lemma SetAtDirs(t: Tree, r: Ref, s: Record)
    requires DirsOk(t) && IsRef(t, r) && Fits(t, r, s)
    ensures DirsOk(SetAt(t, r, s))
  {
    SetRecordOk(t.view[r.d], r.k, s);
  }

  /** A record that keeps its name and attribute fits where it already is. */
  lemma SameRecordFits(t: Tree, r: Ref, s: Record)
    requires DirsOk(t) && IsRef(t, r) && At(t, r).Entry? && s.Entry? && s.name == At(t, r).name
    ensures Fits(t, r, s)
  {
    var dir := t.view[r.d];
    assert DirOk(dir);
    forall j | 0 <= j < |dir| && j != r.k && dir[j].Entry?
      ensures dir[j].name != s.name
    {
      if j < r.k {
        assert dir[j].name != dir[r.k].name;
      } else {
        assert dir[r.k].name != dir[j].name;
      }
    }
  }

  lemma KeepOwnersOwn(t: Tree, heads: set<nat>, r: Ref, s: Record)
    requires OwnersOwn(t, heads) && IsRef(t, r)
    requires Owns(s) <==> Owns(At(t, r))
    requires Owns(s) ==> s.head == At(t, r).head
    ensures OwnersOwn(SetAt(t, r, s), heads)
  {
    SetAtReads(t, r, s);
    hide SetAt, At, IsRef;
  }

  lemma KeepOwnedOnce(t: Tree, r: Ref, s: Record)
    requires OwnedOnce(t) && IsRef(t, r)
    requires Owns(s) <==> Owns(At(t, r))
    requires Owns(s) ==> s.head == At(t, r).head && s.directory == At(t, r).directory
    ensures OwnedOnce(SetAt(t, r, s))
  {
    SetAtReads(t, r, s);
    hide SetAt, At, IsRef;
  }

  /** Rewriting a slot without changing which chain it owns. */
  lemma KeepOwner(t: Tree, heads: set<nat>, r: Ref, s: Record)
    requires TreeOk(t, heads) && IsRef(t, r) && Fits(t, r, s)
    requires Owns(s) <==> Owns(At(t, r))
    requires Owns(s) ==> s.head == At(t, r).head && s.directory == At(t, r).directory
    ensures TreeOk(SetAt(t, r, s), heads)
  {
    hide OwnersOwn, OwnedOnce, DirsOk, Fits, At;
    SetAtDirs(t, r, s);
    KeepOwnersOwn(t, heads, r, s);
    KeepOwnedOnce(t, r, s);
  }

  /** A slot gives up its chain, which is not a directory's. */
  lemma DropOwner(t: Tree, heads: set<nat>, r: Ref, s: Record)
    requires TreeOk(t, heads) && IsRef(t, r) && Fits(t, r, s)
    requires Owns(At(t, r)) && !At(t, r).directory && !Owns(s)
    ensures TreeOk(SetAt(t, r, s).(own := t.own - {At(t, r).head}), heads - {At(t, r).head})
  {
    var h := At(t, r).head;
    var t' := SetAt(t, r, s).(own := t.own - {h});
    SetAtDirs(t, r, s);
    SetAtReads(t, r, s);
    assert h !in t.view;
    forall q | IsRef(t', q) && Owns(At(t', q))
      ensures At(t', q).head in t'.own && t'.own[At(t', q).head] == q
      ensures At(t', q).directory <==> At(t', q).head in t'.view
    {
      assert IsRef(t, q) && At(t', q) == At(t, q);
    }
  }

  lemma AddOwnersOwn(t: Tree, heads: set<nat>, r: Ref, s: Record)
    requires OwnersOwn(t, heads) && IsRef(t, r) && !Owns(At(t, r)) && Owns(s) && s.head !in heads && s.head != t.root
    ensures OwnersOwn(SetAt(t, r, s).(own := t.own[s.head := r]), heads + {s.head})
  {
    SetAtReads(t, r, s);
  }

  lemma AddOwnedOnce(t: Tree, r: Ref, s: Record)
    requires OwnedOnce(t) && IsRef(t, r) && !Owns(At(t, r)) && Owns(s) && s.head !in t.own && s.head !in t.view && !s.directory
    ensures OwnedOnce(SetAt(t, r, s).(own := t.own[s.head := r]))
  {
    SetAtReads(t, r, s);
    var t' := SetAt(t, r, s).(own := t.own[s.head := r]);
    forall q | IsRef(t', q) && Owns(At(t', q)) && q != r
      ensures IsRef(t, q) && At(t', q) == At(t, q)
    {
    }
  }

  lemma RankedOwn(t: Tree, view: map<nat, Dir>, own: map<nat, Ref>)
    requires Ranked(t) && view.Keys == t.view.Keys
    requires forall d :: d in t.own && d in t.view ==> d in own && own[d] == t.own[d]
    ensures Ranked(Tree(view, own, t.rank, t.root))
  {
  }

  lemma TreeParts(t: Tree, heads: set<nat>)
    requires TreeOk(t, heads)
    ensures DirsOk(t) && OwnersOwn(t, heads) && OwnedOnce(t) && Ranked(t)
    ensures t.own.Keys == heads - {t.root}
    ensures forall h :: h in t.view && h != t.root ==> h in t.own
  {
  }

  lemma TreeIntro(t: Tree, heads: set<nat>)
    requires DirsOk(t) && OwnersOwn(t, heads) && OwnedOnce(t) && Ranked(t)
    ensures TreeOk(t, heads)
  {
  }

  /** A slot that owns nothing takes over a new file chain. */
  lemma NewFileOwner(t: Tree, heads: set<nat>, r: Ref, s: Record)
    requires TreeOk(t, heads) && IsRef(t, r) && Fits(t, r, s)
    requires !Owns(At(t, r)) && s.Entry? && Owns(s) && !s.directory
    requires s.head !in heads && s.head != t.root
    ensures TreeOk(SetAt(t, r, s).(own := t.own[s.head := r]), heads + {s.head})
  {
    hide *;
    TreeParts(t, heads);
    var t1, own' := SetAt(t, r, s), t.own[s.head := r];
    SetAtReads(t, r, s);
    SetAtDirs(t, r, s);
    DirsOwn(t1, own');
    AddOwnersOwn(t, heads, r, s);
    AddOwnedOnce(t, r, s);
    RankedOwn(t, t1.view, own');
    assert t1.(own := own') == Tree(t1.view, own', t.rank, t.root);
    TreeIntro(t1.(own := own'), heads + {s.head});
  }

  lemma DirsOwn(t: Tree, own: map<nat, Ref>)
    requires DirsOk(t)
    ensures DirsOk(t.(own := own))
  {
  }

  ghost function AddDir(t: Tree, r: Ref, s: Record, dir: Dir): Tree
    requires IsRef(t, r) && s.Entry? && r.d in t.rank
  {
    Tree(SetAt(t, r, s).view[s.head := dir], t.own[s.head := r], t.rank[s.head := t.rank[r.d] + 1], t.root)
  }

  lemma AddDirReads(t: Tree, r: Ref, s: Record, dir: Dir)
    requires IsRef(t, r) && s.Entry? && r.d in t.rank && s.head !in t.view
    ensures forall q :: IsRef(AddDir(t, r, s, dir), q) ==> q.d == s.head || IsRef(t, q)
    ensures forall q :: IsRef(t, q) ==> IsRef(AddDir(t, r, s, dir), q)
    ensures forall q :: IsRef(t, q) ==> At(AddDir(t, r, s, dir), q) == if q == r then s else At(t, q)
  {
  }

  lemma AddDirOwners(t: Tree, heads: set<nat>, r: Ref, s: Record, dir: Dir)
    requires OwnersOwn(t, heads) && IsRef(t, r) && Owns(s) && r.d in t.rank && s.head !in t.view
    requires !Owns(At(t, r)) && s.head !in heads && s.head != t.root
    ensures OwnersOwn(AddDir(t, r, s, dir), heads + {s.head})
  {
    AddDirReads(t, r, s, dir);
  }

  lemma AddDirOwnedOnce(t: Tree, heads: set<nat>, r: Ref, s: Record, dir: Dir)
    requires OwnersOwn(t, heads) && OwnedOnce(t) && IsRef(t, r) && Owns(s) && r.d in t.rank && s.head !in t.view
    requires !Owns(At(t, r)) && s.directory && s.head !in t.own
    requires forall k :: 0 <= k < |dir| ==> !Owns(dir[k])
    ensures OwnedOnce(AddDir(t, r, s, dir))
  {
    AddDirReads(t, r, s, dir);
    var t' := AddDir(t, r, s, dir);
    forall q | IsRef(t', q) && Owns(At(t', q)) && q != r
      ensures IsRef(t, q) && At(t', q) == At(t, q)
    {
    }
  }

  /** A slot that owns nothing becomes the owner of a new directory without owning slots. */
  lemma NewDirOwner(t: Tree, heads: set<nat>, r: Ref, s: Record, dir: Dir)
    requires TreeOk(t, heads) && IsRef(t, r) && Fits(t, r, s)
    requires !Owns(At(t, r)) && Owns(s) && s.directory
    requires s.head !in heads && s.head != t.root
    requires DirOk(dir) && forall k :: 0 <= k < |dir| ==> !Owns(dir[k])
    ensures r.d in t.rank
    ensures TreeOk(AddDir(t, r, s, dir), heads + {s.head})
  {
    assert s.head !in t.own;
    assert s.head !in t.view;
    AddDirOwners(t, heads, r, s, dir);
    AddDirOwnedOnce(t, heads, r, s, dir);
    SetAtDirs(t, r, s);
  }

  /** A slot gives up a directory that owns nothing itself; the directory disappears. */
  lemma DropDirOwner(t: Tree, heads: set<nat>, r: Ref, s: Record)
    requires TreeOk(t, heads) && IsRef(t, r) && Fits(t, r, s)
    requires Owns(At(t, r)) && At(t, r).directory && !Owns(s)
    requires At(t, r).head in t.view ==> forall k :: 0 <= k < |t.view[At(t, r).head]| ==> !Owns(t.view[At(t, r).head][k])
    ensures var h := At(t, r).head;
      TreeOk(Tree(SetAt(t, r, s).view - {h}, t.own - {h}, t.rank - {h}, t.root), heads - {h})
  {
    var h := At(t, r).head;
    var t1 := SetAt(t, r, s);
    SetAtDirs(t, r, s);
    SetAtReads(t, r, s);
    assert h in t.own && t.own[h] == r;
    assert r.d != h;
    var t' := Tree(t1.view - {h}, t.own - {h}, t.rank - {h}, t.root);
    forall q | IsRef(t', q) && Owns(At(t', q))
      ensures At(t', q).head in t'.own && t'.own[At(t', q).head] == q
      ensures At(t', q).directory <==> At(t', q).head in t'.view
    {
      assert IsRef(t, q) && At(t', q) == At(t, q);
    }
    forall g | g in t'.own
      ensures IsRef(t', t'.own[g]) && Owns(At(t', t'.own[g])) && At(t', t'.own[g]).head == g
    {
      assert t.own[g] != r;
      assert t.own[g].d != h;
    }
    forall d | d in t'.view && d != t'.root
      ensures d in t'.own && t'.own[d].d in t'.rank && t'.rank[t'.own[d].d] < t'.rank[d]
    {
      assert t.own[d].d != h;
    }
  }

  ghost function Grown(t: Tree, d: nat, more: Dir): Tree
    requires d in t.view
  {
    t.(view := t.view[d := t.view[d] + more])
  }

  lemma GrownReads(t: Tree, d: nat, more: Dir)
    requires d in t.view
    requires forall j :: 0 <= j < |more| ==> more[j].End?
    ensures forall q :: IsRef(t, q) ==> IsRef(Grown(t, d, more), q) && At(Grown(t, d, more), q) == At(t, q)
    ensures forall q :: IsRef(Grown(t, d, more), q) && !IsRef(t, q) ==> At(Grown(t, d, more), q).End?
    ensures Grown(t, d, more).view.Keys == t.view.Keys
  {
  }

  /** A directory gets more END slots. */
  lemma GrowDir(t: Tree, heads: set<nat>, d: nat, more: Dir)
    requires TreeOk(t, heads) && d in t.view
    requires forall j :: 0 <= j < |more| ==> more[j].End?
    ensures TreeOk(Grown(t, d, more), heads)
  {
    GrownReads(t, d, more);
    GrowOk(t.view[d], more);
  }
}
