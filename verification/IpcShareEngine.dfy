/** The share table and the link tables of the processes, changed slot by slot. */
module IpcShareEngine {
  import opened Common
  import opened IpcShare

  class ShareTable {
    var records: seq<Option<Share>>
    var links: map<int, Links>

    ghost function St(): State
      reads this
    {
      State(records, links)
    }

    constructor ()
      ensures St() == Initial()
    {
      records := seq(MAX_RECORDS, i => None);
      links := map[];
    }

    /** Links a process to a record through its first free slot. */
    method AttachTo(p: int, id: nat) returns (ok: bool)
      requires p in links
      modifies this`links
      ensures ok == Attach(old(links)[p], id).Some?
      ensures St() == if ok then WithLinks(old(St()), p, Attach(old(links)[p], id).value) else old(St())
    {
      var slots := links[p];
      var i := 0;
      while i < |slots| && slots[i] != FREE
        invariant i <= |slots| && IndexFrom(slots, FREE, 0) == IndexFrom(slots, FREE, i)
      {
        i := i + 1;
      }
      if i == |slots| {
        return false;
      }
      links := links[p := slots[i := id]];
      return true;
    }

    /** Frees the first slot of a process that links to a record; a process that is gone has none. */
    method DetachOne(p: int, id: nat)
      modifies this`links
      ensures St() == DetachFrom(old(St()), p, id)
    {
      if p !in links {
        return;
      }
      var slots := links[p];
      var i := 0;
      while i < |slots| && slots[i] != id
        invariant i <= |slots| && IndexFrom(slots, id, 0) == IndexFrom(slots, id, i)
      {
        i := i + 1;
      }
      if i < |slots| {
        links := links[p := slots[i := FREE]];
      } else {
        assert links[p := slots] == links;
      }
    }

    /** Frees a record and its links on both sides. */
    method Undo(owner: int, target: int, id: nat)
      requires id < |records|
      modifies this
      ensures St() == RollBack(old(St()), owner, target, id)
    {
      hide Detach;
      DetachOne(owner, id);
      DetachOne(target, id);
      records := records[id := None];
    }

    /** Shares a region with a target process. */
    method ShareRegion(share: Share) returns (ok: bool)
      requires share.owner in links
      modifies this
      ensures (St(), ok) == MakeShare(old(St()), share)
    {
      if share.target !in links {
        return false;
      }
      var id := 0;
      while id < |records| && records[id].Some?
        invariant id <= |records| && FreeRecord(records, 0) == FreeRecord(records, id) && St() == old(St())
      {
        id := id + 1;
      }
      if id == |records| {
        return false;
      }
      hide Attach, Detach, FreeRecord;
      FoundFree(records, id);
      records := records[id := Some(share)];
      ok := AttachTo(share.owner, id);
      if ok {
        ok := AttachTo(share.target, id);
      }
      if !ok {
        Undo(share.owner, share.target, id);
      }
    }

    lemma FoundFree(rs: seq<Option<Share>>, id: nat)
      requires id < |rs| && rs[id].None?
      ensures FreeRecord(rs, id) == Some(id)
    {
    }

    /** Drops every share a process takes part in. */
    method DropForPid(p: int)
      modifies this
      ensures St() == DropFrom(old(St()), p, 0)
    {
      var i := 0;
      while i < |records|
        invariant i <= |records| && DropFrom(St(), p, i) == DropFrom(old(St()), p, 0)
      {
        if records[i].Some? && (records[i].value.owner == p || records[i].value.target == p) {
          Undo(records[i].value.owner, records[i].value.target, i);
        }
        i := i + 1;
      }
    }

    /** Process exit: the shares go first, then the process's own table. */
    method ProcessExit(p: int)
      modifies this
      ensures St() == Exit(old(St()), p)
    {
      DropForPid(p);
      links := links - {p};
    }

    method ProcessStart(p: int)
      modifies this
      ensures St() == Start(old(St()), p)
    {
      links := links[p := seq(MAX_LINKS, i => FREE)];
    }
  }
}
