/** Mutexes and semaphores on their tables: waiter lists are fixed arrays that shift in place. */
module SyncEngine {
  import opened SyncModel

  /** Up to eight waiting processes, in order of arrival. */
  class WaitList {
    const list: array<int>
    var count: nat

    ghost predicate Valid()
      reads this
    {
      list.Length == MAX_WAITERS && count <= MAX_WAITERS
    }

    ghost function Waiters(): seq<int>
      requires Valid()
      reads this, list
    {
      list[..count]
    }

    constructor ()
      ensures Valid() && fresh(list) && Waiters() == []
    {
      list := new int[MAX_WAITERS];
      count := 0;
    }

    method Exists(pid: int) returns (found: bool)
      requires Valid()
      ensures found <==> pid in Waiters()
    {
      var i := 0;
      while i < count
        invariant i <= count && pid !in list[..i]
      {
        if list[i] == pid {
          assert list[..count][i] == pid;
          return true;
        }
        i := i + 1;
      }
      return false;
    }

    /** Appends a process; a full list stays as it is. */
    method Enqueue(pid: int) returns (ok: bool)
      requires Valid()
      modifies this`count, list
      ensures Valid() && ok == (|old(Waiters())| < MAX_WAITERS)
      ensures Waiters() == if ok then old(Waiters()) + [pid] else old(Waiters())
    {
      if count >= MAX_WAITERS {
        return false;
      }
      list[count] := pid;
      count := count + 1;
      return true;
    }

    /** Takes the first process out and moves the others up. */
    method Dequeue() returns (pid: int)
      requires Valid()
      modifies this`count, list
      ensures Valid()
      ensures old(Waiters()) == [] ==> pid == NOBODY && Waiters() == []
      ensures old(Waiters()) != [] ==> pid == old(Waiters())[0] && Waiters() == old(Waiters())[1..]
    {
      if count == 0 {
        return NOBODY;
      }
      pid := list[0];
      var i := 1;
      while i < count
        invariant 1 <= i <= count == old(count)
        invariant list[..i - 1] == old(list[1..i])
        invariant list[i - 1..] == old(list[i - 1..])
      {
        ghost var before := list[..];
        assert list[i] == list[i - 1..][1] && list[i] == old(list[i]);
        list[i - 1] := list[i];
        assert list[..i - 1] == before[..i - 1];
        assert list[i..] == before[i - 1..][1..] && old(list[i - 1..])[1..] == old(list[i..]);
        i := i + 1;
      }
      count := count - 1;
    }

    /** Registers a process once. */
    method RegisterOnce(pid: int)
      requires Valid()
      modifies this`count, list
      ensures Valid() && Waiters() == Register(old(Waiters()), pid)
    {
      var found := Exists(pid);
      if !found {
        var ok := Enqueue(pid);
      }
    }
  }

  class MutexEntry {
    var used: bool
    var locked: bool
    var owner: int
    const waiting: WaitList

    ghost predicate Valid()
      reads this, waiting
    {
      waiting.Valid()
    }

    /** The mutex the entry stands for. */
    ghost function Value(): Mutex
      requires Valid()
      reads this, waiting, waiting.list
    {
      Mutex(used, locked, owner, waiting.Waiters())
    }

    /** A mutex as creation leaves it. */
    constructor ()
      ensures Valid() && fresh(waiting) && fresh(waiting.list) && Value() == Created().m
    {
      used, locked, owner := true, false, NOBODY;
      waiting := new WaitList();
    }

    /** One pass of the lock loop; the caller blocks and comes back when the answer is Blocked. */
    method LockOnce(self: int) returns (r: Attempt)
      requires Valid()
      modifies this, waiting, waiting.list
      ensures Valid() && (Value(), r) == TryLock(old(Value()), self)
    {
      if !used {
        return Refused;
      }
      if !locked {
        locked := true;
        owner := self;
        return Acquired;
      }
      if owner == self {
        return Acquired;
      }
      waiting.RegisterOnce(self);
      return Blocked;
    }

    /** Unlock; `wake` is the process that now owns the mutex and is to be woken. */
    method UnlockBy(self: int) returns (ok: bool, wake: int)
      requires Valid()
      modifies this, waiting, waiting.list
      ensures Valid() && (Value(), ok, wake) == Unlock(old(Value()), self)
    {
      if !used || !locked || owner != self {
        return false, NOBODY;
      }
      if waiting.count > 0 {
        wake := waiting.Dequeue();
        owner := wake;
        locked := true;
      } else {
        wake := NOBODY;
        locked := false;
        owner := NOBODY;
      }
      ok := true;
    }
  }

  class SemaphoreEntry {
    var used: bool
    var count: int
    const waiting: WaitList

    ghost predicate Valid()
      reads this, waiting
    {
      waiting.Valid()
    }

    ghost function Value(): Semaphore
      requires Valid()
      reads this, waiting, waiting.list
    {
      Semaphore(used, count, waiting.Waiters())
    }

    constructor (initial: nat)
      ensures Valid() && fresh(waiting) && fresh(waiting.list) && Value() == Semaphore(true, initial, [])
    {
      used, count := true, initial;
      waiting := new WaitList();
    }

    method WaitOnce(self: int) returns (r: Attempt)
      requires Valid()
      modifies this, waiting, waiting.list
      ensures Valid() && (Value(), r) == TryWait(old(Value()), self)
    {
      if !used {
        return Refused;
      }
      if count > 0 {
        count := count - 1;
        return Acquired;
      }
      waiting.RegisterOnce(self);
      return Blocked;
    }

    method PostOne() returns (ok: bool, wake: int)
      requires Valid()
      modifies this, waiting, waiting.list
      ensures Valid() && (Value(), ok, wake) == Post(old(Value()))
    {
      if !used {
        return false, NOBODY;
      }
      wake := NOBODY;
      if waiting.count > 0 {
        wake := waiting.Dequeue();
      } else {
        count := count + 1;
      }
      ok := true;
    }
  }
}
