/** The mailbox on its slot and waiter arrays, which shift in place. */
module IpcMailboxEngine {
  import opened Common
  import opened IpcMailbox

  const EMPTY: Message := Message(0, [])
  const INVALID_PID: int := -1

  class Mailbox {
    const slots: array<Message>
    const waiting: array<int>
    var count: nat
    var waiterCount: nat

    ghost predicate Valid()
      reads this
    {
      slots.Length == QUEUE_LENGTH && waiting.Length == MAX_WAITERS && count <= QUEUE_LENGTH && waiterCount <= MAX_WAITERS
    }

    ghost function Queue(): seq<Message>
      requires Valid()
      reads this, slots
    {
      slots[..count]
    }

    ghost function Waiters(): seq<int>
      requires Valid()
      reads this, waiting
    {
      waiting[..waiterCount]
    }

    constructor ()
      ensures Valid() && fresh(slots) && fresh(waiting) && Queue() == [] && Waiters() == []
    {
      slots := new Message[QUEUE_LENGTH](_ => EMPTY);
      waiting := new int[MAX_WAITERS](_ => INVALID_PID);
      count, waiterCount := 0, 0;
    }

    /** Registers a process, once; false if it is no real process or the list is full. */
    method PushOwner(pid: int) returns (ok: bool)
      requires Valid()
      modifies this`waiterCount, waiting
      ensures Valid() && (Waiters(), ok) == PushWaiter(old(Waiters()), pid)
    {
      if pid <= 0 {
        return false;
      }
      var i := 0;
      while i < waiterCount
        invariant i <= waiterCount && pid !in waiting[..i]
        invariant waiterCount == old(waiterCount) && waiting[..] == old(waiting[..])
      {
        if waiting[i] == pid {
          assert waiting[..waiterCount][i] == pid;
          assert waiting[..waiterCount] == old(waiting[..])[..waiterCount];
          return true;
        }
        i := i + 1;
      }
      assert waiting[..waiterCount] == old(waiting[..])[..waiterCount];
      if waiterCount >= MAX_WAITERS {
        return false;
      }
      waiting[waiterCount] := pid;
      waiterCount := waiterCount + 1;
      assert waiting[..waiterCount] == old(waiting[..])[..old(waiterCount)] + [pid];
      return true;
    }

    /** Takes the first waiter out and moves the others up. */
    method PopWaiter() returns (pid: int)
      requires Valid()
      modifies this`waiterCount, waiting
      ensures Valid()
      ensures old(Waiters()) == [] ==> pid == INVALID_PID && Waiters() == []
      ensures old(Waiters()) != [] ==> pid == old(Waiters())[0] && Waiters() == old(Waiters())[1..]
    {
      if waiterCount == 0 {
        return INVALID_PID;
      }
      pid := waiting[0];
      var i := 1;
      while i < waiterCount
        invariant 1 <= i <= waiterCount == old(waiterCount)
        invariant waiting[..i - 1] == old(waiting[1..i])
        invariant waiting[i - 1..] == old(waiting[i - 1..])
      {
        ghost var before := waiting[..];
        assert waiting[i] == waiting[i - 1..][1] && waiting[i] == old(waiting[i]);
        waiting[i - 1] := waiting[i];
        assert waiting[..i - 1] == before[..i - 1];
        assert waiting[i..] == before[i - 1..][1..] && old(waiting[i - 1..])[1..] == old(waiting[i..]);
        i := i + 1;
      }
      waiting[waiterCount - 1] := INVALID_PID;
      waiterCount := waiterCount - 1;
    }

    /** Closes the gap at index `k` of the slots. */
    method Shift(k: nat)
      requires Valid() && k < count
      modifies this`count, slots
      ensures Valid() && Queue() == RemoveAt(old(Queue()), k)
    {
      var j := k + 1;
      while j < count
        invariant k + 1 <= j <= count == old(count)
        invariant slots[..k] == old(slots[..k])
        invariant slots[k..j - 1] == old(slots[k + 1..j])
        invariant slots[j - 1..] == old(slots[j - 1..])
      {
        ghost var before := slots[..];
        assert slots[j] == slots[j - 1..][1] && slots[j] == old(slots[j]);
        slots[j - 1] := slots[j];
        assert slots[..k] == before[..k] && slots[k..j - 1] == before[k..j - 1];
        assert slots[j..] == before[j - 1..][1..] && old(slots[j - 1..])[1..] == old(slots[j..]);
        j := j + 1;
      }
      count := count - 1;
      assert slots[..count] == slots[..k] + slots[k..count];
      slots[count] := EMPTY;
    }

    /** Takes out the first matching message. */
    method TryDequeue(from: From) returns (r: Option<Message>)
      requires Valid()
      modifies this`count, slots
      ensures Valid()
      ensures var i := FindMatch(old(Queue()), from, 0);
        && (i.None? ==> r == None && Queue() == old(Queue()))
        && (i.Some? ==> r == Some(old(Queue())[i.value]) && Queue() == RemoveAt(old(Queue()), i.value))
    {
      var i := 0;
      while i < count && !Matches(from, slots[i])
        invariant i <= count == old(count) && slots[..] == old(slots[..])
        invariant FindMatch(old(Queue()), from, 0) == FindMatch(old(Queue()), from, i)
      {
        assert old(Queue())[i] == slots[i];
        i := i + 1;
      }
      assert Queue() == old(Queue());
      if i == count {
        return None;
      }
      assert old(Queue())[i] == slots[i];
      r := Some(slots[i]);
      Shift(i);
    }

    /** Accepts a message if there is room, and tells whom to wake. */
    method EnqueueMessage(m: Message) returns (ok: bool, wake: int)
      requires Valid()
      modifies this, slots, waiting
      ensures Valid() && ok == (|m.data| <= MAX_DATA && |old(Queue())| < QUEUE_LENGTH)
      ensures !ok ==> Queue() == old(Queue()) && Waiters() == old(Waiters()) && wake == INVALID_PID
      ensures ok ==> Queue() == old(Queue()) + [m]
      ensures ok && old(Waiters()) == [] ==> wake == INVALID_PID && Waiters() == []
      ensures ok && old(Waiters()) != [] ==> wake == old(Waiters())[0] && Waiters() == old(Waiters())[1..]
    {
      if |m.data| > MAX_DATA || count >= QUEUE_LENGTH {
        return false, INVALID_PID;
      }
      slots[count] := m;
      count := count + 1;
      wake := PopWaiter();
      ok := true;
    }

    /** One receive pass: drops what may not be received, delivers the first message that may. */
    method ReceivePass(from: From, allowed: set<int>) returns (r: Option<Message>, ghost dropped: seq<Message>)
      requires Valid()
      modifies this`count, slots
      ensures Valid() && Pass(Queue(), r, dropped) == Receive(old(Queue()), from, allowed)
    {
      dropped := [];
      ghost var goal := Receive(Queue(), from, allowed);
      while true
        invariant Valid() && goal == AfterDrops(Receive(Queue(), from, allowed), dropped)
        decreases |Queue()|
      {
        PassUnfold(Queue(), from, allowed, dropped);
        ghost var q := Queue();
        r := TryDequeue(from);
        if r.None? {
          return;
        }
        if r.value.sender in allowed {
          return;
        }
        dropped := dropped + [r.value];
      }
    }
  }

  /** A pass with messages dropped before it. */
  ghost function AfterDrops(pass: Pass, dropped: seq<Message>): Pass {
    pass.(dropped := dropped + pass.dropped)
  }

  lemma PassUnfold(q: seq<Message>, from: From, allowed: set<int>, dropped: seq<Message>)
    ensures var i := FindMatch(q, from, 0);
      var pass := AfterDrops(Receive(q, from, allowed), dropped);
      && (i.None? ==> pass == Pass(q, None, dropped))
      && (i.Some? && q[i.value].sender in allowed ==> pass == Pass(RemoveAt(q, i.value), Some(q[i.value]), dropped))
      && (i.Some? && q[i.value].sender !in allowed ==> pass == AfterDrops(Receive(RemoveAt(q, i.value), from, allowed), dropped + [q[i.value]]))
  {
    hide FindMatch, RemoveAt;
    var i := FindMatch(q, from, 0);
    assert dropped + [] == dropped;
    if i.Some? {
      var rest := Receive(RemoveAt(q, i.value), from, allowed);
      assert dropped + ([q[i.value]] + rest.dropped) == dropped + [q[i.value]] + rest.dropped;
    }
  }
}
