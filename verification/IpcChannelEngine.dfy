/**
 The channel table as the kernel keeps it: a fixed array of channel records, with a ring of
 messages and shifting lists of members and waiters for each of them.
 */
module IpcChannelEngine {
  import opened IpcChannel
  import opened IpcTraffic

  const NO_MESSAGE: Message := Message(0, 0, -1, [])

  // ---------------------------------------------------------------- lists of a process

  method Contains(q: seq<int>, x: int) returns (found: bool)
    ensures found <==> x in q
  {
    var i := 0;
    while i < |q|
      invariant i <= |q| && x !in q[..i]
    {
      if q[i] == x {
        return true;
      }
      i := i + 1;
    }
    return false;
  }

  lemma {:induction false} WithoutAt(q: seq<int>, x: int, i: nat)
    requires i < |q| && q[i] == x && forall j :: 0 <= j < i ==> q[j] != x
    ensures Without(q, x) == q[..i] + q[i + 1..]
  {
    if i > 0 {
      WithoutAt(q[1..], x, i - 1);
      assert q[..i] == [q[0]] + q[1..][..i - 1] && q[1..][i..] == q[i + 1..];
    }
  }

  /** Takes out the first `x` and closes the gap. */
  method RemoveFirst(q: seq<int>, x: int) returns (r: seq<int>)
    ensures r == Without(q, x)
  {
    var i := 0;
    while i < |q| && q[i] != x
      invariant i <= |q| && forall j :: 0 <= j < i ==> q[j] != x
    {
      i := i + 1;
    }
    if i == |q| {
      WithoutAbsent(q, x);
      return q;
    }
    WithoutAt(q, x, i);
    return q[..i] + q[i + 1..];
  }

  // ---------------------------------------------------------------- lists in the rows of an array

  /** The first `n` cells of row `i`. */
  ghost function Row(a: array2<int>, i: nat, n: nat): (r: seq<int>)
    requires i < a.Length0 && n <= a.Length1
    reads a
    ensures |r| == n
  {
    seq(n, j requires 0 <= j < n reads a => a[i, j])
  }

  method RowIndex(a: array2<int>, i: nat, n: nat, x: int) returns (k: nat)
    requires i < a.Length0 && n <= a.Length1
    ensures k <= n && (forall j :: 0 <= j < k ==> Row(a, i, n)[j] != x)
    ensures k < n ==> Row(a, i, n)[k] == x
    ensures k < n <==> x in Row(a, i, n)
  {
    k := 0;
    while k < n
      invariant k <= n && forall j :: 0 <= j < k ==> a[i, j] != x
    {
      if a[i, k] == x {
        assert Row(a, i, n)[k] == x;
        return;
      }
      k := k + 1;
    }
  }

  /** Takes cell `k` out of the first `n` of row `i`: the ones behind it move up. */
  method RowDelete(a: array2<int>, i: nat, n: nat, k: nat)
    requires i < a.Length0 && k < n <= a.Length1
    modifies a
    ensures Row(a, i, n - 1) == old(Row(a, i, n))[..k] + old(Row(a, i, n))[k + 1..]
    ensures forall m, j :: 0 <= m < a.Length0 && 0 <= j < a.Length1 && m != i ==> a[m, j] == old(a[m, j])
  {
    var j := k + 1;
    while j < n
      invariant k + 1 <= j <= n
      invariant forall x :: 0 <= x < k ==> a[i, x] == old(a[i, x])
      invariant forall x :: k <= x < j - 1 ==> a[i, x] == old(a[i, x + 1])
      invariant forall x :: j - 1 <= x < n ==> a[i, x] == old(a[i, x])
      invariant forall m, x :: 0 <= m < a.Length0 && 0 <= x < a.Length1 && m != i ==> a[m, x] == old(a[m, x])
    {
      a[i, j - 1] := a[i, j];
      j := j + 1;
    }
    a[i, n - 1] := NOBODY;
  }

  /** Takes the first `x` out of the first `n` cells of row `i`, and tells how many are left. */
  method RowRemove(a: array2<int>, i: nat, n: nat, x: int) returns (left: nat)
    requires i < a.Length0 && n <= a.Length1
    modifies a
    ensures left <= n && Row(a, i, left) == Without(old(Row(a, i, n)), x)
    ensures forall m, j :: 0 <= m < a.Length0 && 0 <= j < a.Length1 && m != i ==> a[m, j] == old(a[m, j])
  {
    var k := RowIndex(a, i, n, x);
    if k == n {
      WithoutAbsent(Row(a, i, n), x);
      return n;
    }
    WithoutAt(Row(a, i, n), x, k);
    RowDelete(a, i, n, k);
    return n - 1;
  }

  // ---------------------------------------------------------------- rings in the rows of an array

  /** Where the message `i` places behind `head` is stored. */
  function Place(head: nat, i: nat): (r: nat)
    ensures r < QUEUE_LENGTH
  {
    (head + i) % QUEUE_LENGTH
  }

  lemma PlacesApart(head: nat, i: nat, n: nat)
    requires i < n < QUEUE_LENGTH
    ensures Place(head, i) != Place(head, n)
  {
  }

  lemma PlaceNext(head: nat, i: nat)
    ensures Place(Place(head, 1), i) == Place(head, i + 1) && Place(Place(head, i), 1) == Place(head, i + 1)
    ensures head < QUEUE_LENGTH ==> Place(head, 0) == head
  {
    RemTwice(head, 1, i);
    RemTwice(head, i, 1);
  }

  lemma RemTwice(head: nat, i: nat, j: nat)
    ensures ((head + i) % QUEUE_LENGTH + j) % QUEUE_LENGTH == (head + i + j) % QUEUE_LENGTH
  {
    var a, q := head + i, (head + i) / QUEUE_LENGTH;
    assert a == q * QUEUE_LENGTH + a % QUEUE_LENGTH;
    RemOf(a % QUEUE_LENGTH + j, q);
  }

  lemma RemOf(a: nat, q: nat)
    ensures (q * QUEUE_LENGTH + a) % QUEUE_LENGTH == a % QUEUE_LENGTH
  {
  }

  /** The `count` messages of row `i` from `head` on, wrapping around. */
  ghost function Ring(a: array2<Message>, i: nat, head: nat, count: nat): (r: seq<Message>)
    requires i < a.Length0 && a.Length1 == QUEUE_LENGTH
    reads a
    ensures |r| == count
  {
    seq(count, j requires 0 <= j < count reads a => a[i, Place(head, j)])
  }

  /** Writes a message behind the last one. */
  method RingPut(a: array2<Message>, i: nat, head: nat, count: nat, tail: nat, m: Message)
    requires i < a.Length0 && a.Length1 == QUEUE_LENGTH && count < QUEUE_LENGTH && tail == Place(head, count)
    modifies a
    ensures Ring(a, i, head, count + 1) == old(Ring(a, i, head, count)) + [m]
    ensures forall n, j :: 0 <= n < a.Length0 && 0 <= j < a.Length1 && n != i ==> a[n, j] == old(a[n, j])
  {
    a[i, tail] := m;
    forall j | 0 <= j < count
      ensures a[i, Place(head, j)] == old(a[i, Place(head, j)])
    {
      PlacesApart(head, j, count);
    }
    hide Place;
  }

  lemma RingTake(a: array2<Message>, i: nat, head: nat, count: nat)
    requires i < a.Length0 && a.Length1 == QUEUE_LENGTH && 0 < count && head < QUEUE_LENGTH
    ensures Ring(a, i, head, count) == [a[i, head]] + Ring(a, i, Place(head, 1), count - 1)
  {
    var rest := Ring(a, i, Place(head, 1), count - 1);
    PlaceNext(head, 0);
    hide Place;
    forall j | 0 <= j < count - 1
      ensures rest[j] == a[i, Place(head, j + 1)]
    {
      PlaceNext(head, j);
    }
  }

  // ---------------------------------------------------------------- rows as maps

  /** Row `i` belongs to channel `i + 1`. */
  function ByChannel<T>(rows: seq<T>): (r: map<int, T>)
    ensures forall c :: c in r <==> 1 <= c <= |rows|
    ensures forall c :: c in r ==> r[c] == rows[c - 1]
  {
    if rows == [] then map[] else ByChannel(rows[..|rows| - 1])[|rows| := rows[|rows| - 1]]
  }

  lemma ByChannelSet<T>(rows: seq<T>, i: nat, x: T)
    requires i < |rows|
    ensures ByChannel(rows[i := x]) == ByChannel(rows)[i + 1 := x]
  {
  }

  lemma ByChannelAdd<T>(rows: seq<T>, x: T)
    ensures ByChannel(rows + [x]) == ByChannel(rows)[|rows| + 1 := x]
  {
  }

  lemma {:induction false} ByChannelCount<T>(rows: seq<T>)
    ensures |ByChannel(rows).Keys| == |rows|
    decreases |rows|
  {
    if rows == [] {
      assert ByChannel(rows).Keys == {};
    } else {
      var rest := rows[..|rows| - 1];
      ByChannelCount(rest);
      assert ByChannel(rows).Keys == ByChannel(rest).Keys + {|rows|};
      assert |rows| !in ByChannel(rest).Keys;
    }
  }

  /** The channels whose flag is set. */
  function Flagged(flags: seq<bool>): (r: set<int>)
    ensures forall c :: c in r <==> 1 <= c <= |flags| && flags[c - 1]
  {
    if flags == [] then {} else Flagged(flags[..|flags| - 1]) + if flags[|flags| - 1] then {|flags|} else {}
  }

  lemma FlaggedAdd(flags: seq<bool>, x: bool)
    ensures Flagged(flags + [x]) == Flagged(flags) + if x then {|flags| + 1} else {}
  {
    assert (flags + [x])[..|flags|] == flags;
  }

  /** The table that rows of members, waiters and messages stand for. */
  function Whole(m: seq<seq<int>>, w: seq<seq<int>>, q: seq<seq<Message>>, flags: seq<bool>, joined: map<int, seq<int>>, nextId: int): Table {
    Table(State(ByChannel(m), joined, nextId), Flagged(flags), ByChannel(w), ByChannel(q))
  }

  lemma WholeOpen(m: seq<seq<int>>, w: seq<seq<int>>, q: seq<seq<Message>>, flags: seq<bool>, joined: map<int, seq<int>>, nextId: int, kernel: bool)
    requires |m| == |w| == |q| == |flags| == nextId - 1
    ensures Open(Whole(m, w, q, flags, joined, nextId), kernel) ==
      if |m| >= MAX_CHANNELS then (Whole(m, w, q, flags, joined, nextId), NOBODY)
      else (Whole(m + [[]], w + [[]], q + [[]], flags + [kernel], joined, nextId + 1), nextId)
  {
    ByChannelCount(m);
    ByChannelAdd(m, []);
    ByChannelAdd(w, []);
    ByChannelAdd(q, []);
    FlaggedAdd(flags, kernel);
    assert Flagged(flags) + {} == Flagged(flags);
    hide ByChannel, Flagged;
  }

  lemma WholeJoin(m: seq<seq<int>>, joined: map<int, seq<int>>, nextId: int, p: int, i: nat)
    requires i < |m| && p in joined
    ensures var s, c := State(ByChannel(m), joined, nextId), i + 1;
      var noted := if c in joined[p] then joined else joined[p := joined[p] + [c]];
      Join(s, p, c) ==
        if c !in joined[p] && |joined[p]| >= MAX_JOINED then (s, false)
        else if p in m[i] then (s.(joined := noted), true)
        else if |m[i]| >= MAX_SUBSCRIBERS then (s.(joined := noted[p := Without(noted[p], c)]), false)
        else (State(ByChannel(m[i := m[i] + [p]]), noted, nextId), true)
  {
    hide Without;
    ByChannelSet(m, i, m[i] + [p]);
  }

  lemma WholeQuit(m: seq<seq<int>>, w: seq<seq<int>>, q: seq<seq<Message>>, flags: seq<bool>, joined: map<int, seq<int>>, nextId: int, p: int, i: nat)
    requires |m| == |w| && i < |m| && p in joined
    ensures Quit(Whole(m, w, q, flags, joined, nextId), p, i + 1) ==
      (Whole(m[i := Without(m[i], p)], w[i := Without(w[i], p)], q, flags, joined[p := Without(joined[p], i + 1)], nextId), true)
  {
    hide Without;
    ByChannelSet(m, i, Without(m[i], p));
    ByChannelSet(w, i, Without(w[i], p));
  }

  lemma WholeSend(m: seq<seq<int>>, w: seq<seq<int>>, q: seq<seq<Message>>, flags: seq<bool>, joined: map<int, seq<int>>, nextId: int, i: nat, x: Message)
    requires |m| == |w| == |q| == |flags| && i < |m|
    ensures var t := Whole(m, w, q, flags, joined, nextId);
      && (Accepts(t, i + 1, x) <==>
        |x.data| <= MAX_DATA && |q[i]| < QUEUE_LENGTH && (x.sender > 0 ==> x.sender in joined && (i + 1 in joined[x.sender] || flags[i])))
      && (Accepts(t, i + 1, x) && w[i] == [] ==> Send(t, i + 1, x) == (Whole(m, w, q[i := q[i] + [x]], flags, joined, nextId), true, NOBODY))
      && (Accepts(t, i + 1, x) && w[i] != [] ==>
        Send(t, i + 1, x) == (Whole(m, w[i := w[i][1..]], q[i := q[i] + [x]], flags, joined, nextId), true, w[i][0]))
  {
    hide ByChannel, Flagged;
    ByChannelSet(q, i, q[i] + [x]);
    if w[i] != [] {
      ByChannelSet(w, i, w[i][1..]);
    }
  }

  lemma WholePass(m: seq<seq<int>>, w: seq<seq<int>>, q: seq<seq<Message>>, flags: seq<bool>, joined: map<int, seq<int>>, nextId: int, p: int, i: nat, nonblock: bool)
    requires |m| == |w| == |q| && i < |m|
    ensures var t := Whole(m, w, q, flags, joined, nextId);
      i + 1 in t.queues && i + 1 in t.waiters && Pass(t, p, i + 1, nonblock) ==
        if q[i] != [] then (Whole(m, w, q[i := q[i][1..]], flags, joined, nextId), Got(q[i][0]))
        else if nonblock then (t, Nothing)
        else if p in w[i] then (t, Blocked)
        else if |w[i]| >= MAX_WAITERS then (t, Refused)
        else (Whole(m, w[i := w[i] + [p]], q, flags, joined, nextId), Blocked)
  {
    hide ByChannel, Flagged;
    if q[i] != [] {
      ByChannelSet(q, i, q[i][1..]);
    } else {
      ByChannelSet(w, i, w[i] + [p]);
    }
  }

  lemma WholeKeys(m: seq<seq<int>>, w: seq<seq<int>>, q: seq<seq<Message>>, flags: seq<bool>, joined: map<int, seq<int>>, nextId: int, c: int)
    requires |m| == |w| == |q| == |flags|
    ensures var t := Whole(m, w, q, flags, joined, nextId);
      && t.members.joined == joined
      && (c in t.queues <==> 1 <= c <= |m|) && (c in t.waiters <==> 1 <= c <= |m|) && (c in t.members.subscribers <==> 1 <= c <= |m|)
      && (1 <= c <= |m| ==> t.members.subscribers[c] == m[c - 1]) && (c in t.kernels <==> 1 <= c <= |m| && flags[c - 1])
  {
  }

  lemma NoSuchMember(s: State, p: int, c: int)
    requires c !in s.subscribers && p in s.joined
    ensures Join(s, p, c) == (s, false)
  {
  }

  /** The rows with `p` taken off that of channel `c`. */
  function Forgotten(rows: seq<seq<int>>, p: int, c: int): seq<seq<int>> {
    if 1 <= c <= |rows| then rows[c - 1 := Without(rows[c - 1], p)] else rows
  }

  lemma ForgottenIs(rows: seq<seq<int>>, p: int, todo: seq<int>)
    requires todo != []
    ensures Unsubscribe(ByChannel(rows), p, todo) == Unsubscribe(ByChannel(Forgotten(rows, p, todo[0])), p, todo[1..])
  {
    hide Without;
    var c := todo[0];
    if 1 <= c <= |rows| {
      ByChannelSet(rows, c - 1, Without(rows[c - 1], p));
    }
  }

  lemma WholeDrop(m: seq<seq<int>>, w: seq<seq<int>>, q: seq<seq<Message>>, flags: seq<bool>, joined: map<int, seq<int>>, nextId: int,
      p: int, m': seq<seq<int>>, w': seq<seq<int>>)
    requires p in joined
    requires ByChannel(m') == Unsubscribe(ByChannel(m), p, joined[p]) && ByChannel(w') == Unsubscribe(ByChannel(w), p, joined[p])
    ensures Drop(Whole(m, w, q, flags, joined, nextId), p) == Whole(m', w', q, flags, joined - {p}, nextId)
  {
    hide Unsubscribe, ByChannel, Flagged;
  }

  // ---------------------------------------------------------------- the table

  /** The fixed part of a channel record. */
  datatype Slot = Slot(used: bool, id: int, kernel: bool, members: nat, waiting: nat, head: nat, tail: nat, count: nat)

  const FREE_SLOT: Slot := Slot(false, 0, false, 0, 0, 0, 0, 0)

  /** The record of channel `i + 1`, in use or not. */
  predicate SlotOk(s: Slot, i: nat, n: nat) {
    && (s.used <==> i < n) && (s.used ==> s.id == i + 1)
    && s.members <= MAX_SUBSCRIBERS && s.waiting <= MAX_WAITERS
    && s.head < QUEUE_LENGTH && s.count <= QUEUE_LENGTH && s.tail == Place(s.head, s.count)
  }

  class ChannelTable {
    const slots: array<Slot>
    const members: array2<int>
    const waiting: array2<int>
    const messages: array2<Message>
    var joined: map<int, seq<int>>
    var nextId: int

    ghost predicate Sized()
      reads this
    {
      && slots.Length == MAX_CHANNELS && members != waiting
      && members.Length0 == MAX_CHANNELS && members.Length1 == MAX_SUBSCRIBERS
      && waiting.Length0 == MAX_CHANNELS && waiting.Length1 == MAX_WAITERS
      && messages.Length0 == MAX_CHANNELS && messages.Length1 == QUEUE_LENGTH
      && 1 <= nextId <= MAX_CHANNELS + 1
    }

    /** Channels are numbered from 1 in the order of their records, and none is ever given up. */
    ghost predicate Valid()
      reads this, slots
    {
      Sized() && forall i :: 0 <= i < MAX_CHANNELS ==> SlotOk(slots[i], i, nextId - 1)
    }

    ghost function MemberRows(): (r: seq<seq<int>>)
      requires Valid()
      reads this, slots, members
      ensures |r| == nextId - 1 && forall i :: 0 <= i < |r| ==> r[i] == Row(members, i, slots[i].members)
    {
      seq(nextId - 1, i requires 0 <= i < nextId - 1 && Valid() reads this, slots, members => Row(members, i, slots[i].members))
    }

    ghost function WaiterRows(): (r: seq<seq<int>>)
      requires Valid()
      reads this, slots, waiting
      ensures |r| == nextId - 1 && forall i :: 0 <= i < |r| ==> r[i] == Row(waiting, i, slots[i].waiting)
    {
      seq(nextId - 1, i requires 0 <= i < nextId - 1 && Valid() reads this, slots, waiting => Row(waiting, i, slots[i].waiting))
    }

    ghost function QueueRows(): (r: seq<seq<Message>>)
      requires Valid()
      reads this, slots, messages
      ensures |r| == nextId - 1 && forall i :: 0 <= i < |r| ==> r[i] == Ring(messages, i, slots[i].head, slots[i].count)
    {
      seq(nextId - 1, i requires 0 <= i < nextId - 1 && Valid() reads this, slots, messages => Ring(messages, i, slots[i].head, slots[i].count))
    }

    ghost function Flags(): (r: seq<bool>)
      requires Valid()
      reads this, slots
      ensures |r| == nextId - 1 && forall i :: 0 <= i < |r| ==> r[i] == slots[i].kernel
    {
      seq(nextId - 1, i requires 0 <= i < nextId - 1 && Valid() reads this, slots => slots[i].kernel)
    }

    /** The table it stands for. */
    ghost function Tab(): Table
      requires Valid()
      reads this, slots, members, waiting, messages
    {
      Whole(MemberRows(), WaiterRows(), QueueRows(), Flags(), joined, nextId)
    }

    constructor ()
      ensures Valid() && fresh(slots) && fresh(members) && fresh(waiting) && fresh(messages) && Tab() == Start().t
    {
      slots := new Slot[MAX_CHANNELS](_ => FREE_SLOT);
      members := new int[MAX_CHANNELS, MAX_SUBSCRIBERS]((_, _) => NOBODY);
      waiting := new int[MAX_CHANNELS, MAX_WAITERS]((_, _) => NOBODY);
      messages := new Message[MAX_CHANNELS, QUEUE_LENGTH]((_, _) => NO_MESSAGE);
      joined, nextId := map[], 1;
      new;
      PlaceNext(0, 0);
      assert MemberRows() == [] && WaiterRows() == [] && QueueRows() == [] && Flags() == [];
    }

    /** The record of a channel, or -1. */
    method FindChannel(c: int) returns (i: int)
      requires Valid()
      ensures if 1 <= c < nextId then i == c - 1 else i == -1
    {
      if c <= 0 {
        return -1;
      }
      i := 0;
      while i < MAX_CHANNELS
        invariant 0 <= i <= MAX_CHANNELS && (c < nextId ==> i <= c - 1)
      {
        assert SlotOk(slots[i], i, nextId - 1);
        if slots[i].used && slots[i].id == c {
          return;
        }
        i := i + 1;
      }
      return -1;
    }

    /** Takes the next record into use. */
    method TakeSlot(kernel: bool)
      requires Valid() && nextId - 1 < MAX_CHANNELS
      modifies this`nextId, slots
      ensures Valid() && nextId == old(nextId) + 1
      ensures MemberRows() == old(MemberRows()) + [[]] && WaiterRows() == old(WaiterRows()) + [[]]
      ensures QueueRows() == old(QueueRows()) + [[]] && Flags() == old(Flags()) + [kernel]
    {
      PlaceNext(0, 0);
      var i := nextId - 1;
      slots[i] := Slot(true, nextId, kernel, 0, 0, 0, 0, 0);
      nextId := nextId + 1;
      hide Place;
      assert Valid();
      hide SlotOk;
      assert Row(members, i, 0) == [] && Row(waiting, i, 0) == [] && Ring(messages, i, 0, 0) == [];
      hide Row, Ring;
    }

    /** A new channel and its number, or -1 when the table is full. */
    method CreateChannel(kernel: bool) returns (id: int)
      requires Valid()
      modifies this`nextId, slots
      ensures Valid() && (Tab(), id) == Open(old(Tab()), kernel)
    {
      hide *;
      Limits();
      WholeOpen(MemberRows(), WaiterRows(), QueueRows(), Flags(), joined, nextId, kernel);
      WholeIs();
      var i := 0;
      while i < MAX_CHANNELS
        invariant 0 <= i <= MAX_CHANNELS && i <= nextId - 1
        invariant Valid() && unchanged(this) && unchanged(slots)
      {
        UsedIs(i);
        if !slots[i].used {
          id := nextId;
          TakeSlot(kernel);
          WholeIs();
          return;
        }
        i := i + 1;
      }
      id := NOBODY;
      Limits();
    }

    // What a change leaves alone: rows other than `but` whose cells and counts are as before.

    twostate lemma MembersLeft(but: int)
      requires old(Valid()) && Valid() && nextId == old(nextId)
      requires forall k :: 0 <= k < MAX_CHANNELS && k != but ==> slots[k].members == old(slots[k]).members
      requires forall k, j :: 0 <= k < MAX_CHANNELS && 0 <= j < MAX_SUBSCRIBERS && k != but ==> members[k, j] == old(members[k, j])
      ensures |MemberRows()| == |old(MemberRows())| == nextId - 1
      ensures forall k :: 0 <= k < nextId - 1 && k != but ==> MemberRows()[k] == old(MemberRows())[k]
      ensures but < 0 ==> MemberRows() == old(MemberRows())
    {
      hide Place;
      forall k | 0 <= k < nextId - 1 && k != but
        ensures Row(members, k, slots[k].members) == old(Row(members, k, slots[k].members))
      {
      }
    }

    twostate lemma WaitersLeft(but: int)
      requires old(Valid()) && Valid() && nextId == old(nextId)
      requires forall k :: 0 <= k < MAX_CHANNELS && k != but ==> slots[k].waiting == old(slots[k]).waiting
      requires forall k, j :: 0 <= k < MAX_CHANNELS && 0 <= j < MAX_WAITERS && k != but ==> waiting[k, j] == old(waiting[k, j])
      ensures |WaiterRows()| == |old(WaiterRows())| == nextId - 1
      ensures forall k :: 0 <= k < nextId - 1 && k != but ==> WaiterRows()[k] == old(WaiterRows())[k]
      ensures but < 0 ==> WaiterRows() == old(WaiterRows())
    {
      hide Place;
      forall k | 0 <= k < nextId - 1 && k != but
        ensures Row(waiting, k, slots[k].waiting) == old(Row(waiting, k, slots[k].waiting))
      {
      }
    }

    twostate lemma QueuesLeft(but: int)
      requires old(Valid()) && Valid() && nextId == old(nextId)
      requires forall k :: 0 <= k < MAX_CHANNELS && k != but ==> slots[k].head == old(slots[k]).head && slots[k].count == old(slots[k]).count
      requires forall k, j :: 0 <= k < MAX_CHANNELS && 0 <= j < QUEUE_LENGTH && k != but ==> messages[k, j] == old(messages[k, j])
      ensures |QueueRows()| == |old(QueueRows())| == nextId - 1
      ensures forall k :: 0 <= k < nextId - 1 && k != but ==> QueueRows()[k] == old(QueueRows())[k]
      ensures but < 0 ==> QueueRows() == old(QueueRows())
    {
      hide Place;
      forall k | 0 <= k < nextId - 1 && k != but
        ensures Ring(messages, k, slots[k].head, slots[k].count) == old(Ring(messages, k, slots[k].head, slots[k].count))
      {
      }
    }

    twostate lemma FlagsLeft()
      requires old(Valid()) && Valid() && nextId == old(nextId)
      requires forall k :: 0 <= k < MAX_CHANNELS ==> slots[k].kernel == old(slots[k]).kernel
      ensures Flags() == old(Flags())
    {
    }

    // The lists of one channel.  Each routine changes one row and leaves the others alone.

    method DropMember(i: nat, p: int)
      requires Valid() && i < nextId - 1
      modifies slots, members
      ensures Valid() && WaiterRows() == old(WaiterRows()) && QueueRows() == old(QueueRows()) && Flags() == old(Flags())
      ensures MemberRows() == old(MemberRows())[i := Without(old(MemberRows())[i], p)]
    {
      hide Without, Place;
      var left := RowRemove(members, i, slots[i].members, p);
      slots[i] := slots[i].(members := left);
      MembersLeft(i);
      WaitersLeft(-1);
      QueuesLeft(-1);
      FlagsLeft();
      hide Row, Ring, SlotOk;
    }

    method DropWaiter(i: nat, p: int)
      requires Valid() && i < nextId - 1
      modifies slots, waiting
      ensures Valid() && MemberRows() == old(MemberRows()) && QueueRows() == old(QueueRows()) && Flags() == old(Flags())
      ensures WaiterRows() == old(WaiterRows())[i := Without(old(WaiterRows())[i], p)]
    {
      hide Without, Place;
      var left := RowRemove(waiting, i, slots[i].waiting, p);
      slots[i] := slots[i].(waiting := left);
      MembersLeft(-1);
      WaitersLeft(i);
      QueuesLeft(-1);
      FlagsLeft();
      hide Row, Ring, SlotOk;
    }

    method AddMember(i: nat, p: int)
      requires Valid() && i < nextId - 1 && slots[i].members < MAX_SUBSCRIBERS
      modifies slots, members
      ensures Valid() && WaiterRows() == old(WaiterRows()) && QueueRows() == old(QueueRows()) && Flags() == old(Flags())
      ensures MemberRows() == old(MemberRows())[i := old(MemberRows())[i] + [p]]
    {
      hide Place;
      members[i, slots[i].members] := p;
      slots[i] := slots[i].(members := slots[i].members + 1);
      assert Row(members, i, slots[i].members) == old(Row(members, i, slots[i].members)) + [p];
      MembersLeft(i);
      WaitersLeft(-1);
      QueuesLeft(-1);
      FlagsLeft();
      hide Row, Ring, SlotOk;
    }

    method AddWaiter(i: nat, p: int)
      requires Valid() && i < nextId - 1 && slots[i].waiting < MAX_WAITERS
      modifies slots, waiting
      ensures Valid() && MemberRows() == old(MemberRows()) && QueueRows() == old(QueueRows()) && Flags() == old(Flags())
      ensures WaiterRows() == old(WaiterRows())[i := old(WaiterRows())[i] + [p]]
    {
      hide Place;
      waiting[i, slots[i].waiting] := p;
      slots[i] := slots[i].(waiting := slots[i].waiting + 1);
      assert Row(waiting, i, slots[i].waiting) == old(Row(waiting, i, slots[i].waiting)) + [p];
      MembersLeft(-1);
      WaitersLeft(i);
      QueuesLeft(-1);
      FlagsLeft();
      hide Row, Ring, SlotOk;
    }

    /** Takes the first waiter out and moves the others up. */
    method PopWaiter(i: nat) returns (p: int)
      requires Valid() && i < nextId - 1 && slots[i].waiting > 0
      modifies slots, waiting
      ensures Valid() && MemberRows() == old(MemberRows()) && QueueRows() == old(QueueRows()) && Flags() == old(Flags())
      ensures old(WaiterRows())[i] != [] && p == old(WaiterRows())[i][0] && WaiterRows() == old(WaiterRows())[i := old(WaiterRows())[i][1..]]
    {
      hide Place;
      p := waiting[i, 0];
      ghost var was := Row(waiting, i, slots[i].waiting);
      assert was[0] == p && was[..0] + was[1..] == was[1..];
      RowDelete(waiting, i, slots[i].waiting, 0);
      slots[i] := slots[i].(waiting := slots[i].waiting - 1);
      MembersLeft(-1);
      WaitersLeft(i);
      QueuesLeft(-1);
      FlagsLeft();
      hide Row, Ring, SlotOk;
    }

    /** Writes a message behind the last one of the ring. */
    method PutMessage(i: nat, m: Message)
      requires Valid() && i < nextId - 1 && slots[i].count < QUEUE_LENGTH
      modifies slots, messages
      ensures Valid() && MemberRows() == old(MemberRows()) && WaiterRows() == old(WaiterRows()) && Flags() == old(Flags())
      ensures QueueRows() == old(QueueRows())[i := old(QueueRows())[i] + [m]]
    {
      var s := slots[i];
      PlaceNext(s.head, s.count);
      RingPut(messages, i, s.head, s.count, s.tail, m);
      slots[i] := s.(tail := (s.tail + 1) % QUEUE_LENGTH, count := s.count + 1);
      assert slots[i].tail == Place(s.tail, 1);
      hide Place;
      MembersLeft(-1);
      WaitersLeft(-1);
      QueuesLeft(i);
      FlagsLeft();
      hide Row, Ring, SlotOk;
    }

    /** Takes the oldest message out of the ring. */
    method TakeMessage(i: nat) returns (m: Message)
      requires Valid() && i < nextId - 1 && slots[i].count > 0
      modifies slots
      ensures Valid() && MemberRows() == old(MemberRows()) && WaiterRows() == old(WaiterRows()) && Flags() == old(Flags())
      ensures old(QueueRows())[i] != [] && m == old(QueueRows())[i][0] && QueueRows() == old(QueueRows())[i := old(QueueRows())[i][1..]]
    {
      var s := slots[i];
      m := messages[i, s.head];
      RingTake(messages, i, s.head, s.count);
      PlaceNext(s.head, s.count - 1);
      slots[i] := s.(head := (s.head + 1) % QUEUE_LENGTH, count := s.count - 1);
      assert slots[i].head == Place(s.head, 1);
      hide Place;
      MembersLeft(-1);
      WaitersLeft(-1);
      QueuesLeft(i);
      FlagsLeft();
      hide Row, Ring, SlotOk;
    }

    method IsMember(i: nat, p: int) returns (found: bool)
      requires Valid() && i < nextId - 1
      ensures found <==> p in MemberRows()[i]
    {
      var k := RowIndex(members, i, slots[i].members, p);
      found := k < slots[i].members;
    }

    method IsWaiting(i: nat, p: int) returns (found: bool)
      requires Valid() && i < nextId - 1
      ensures found <==> p in WaiterRows()[i]
    {
      var k := RowIndex(waiting, i, slots[i].waiting, p);
      found := k < slots[i].waiting;
    }

    /** A process joins a channel, or nothing changes. */
    method JoinChannel(p: int, c: int) returns (ok: bool)
      requires Valid() && p in joined
      modifies this`joined, slots, members
      ensures Valid() && (Tab().members, ok) == Join(old(Tab()).members, p, c)
      ensures Tab() == old(Tab()).(members := Tab().members)
    {
      hide *;
      WholeIs();
      var i := FindChannel(c);
      if i < 0 {
        NoSuchMember(old(Tab()).members, p, c);
        return false;
      }
      WholeJoin(MemberRows(), joined, nextId, p, i);
      var has := Contains(joined[p], c);
      if !has {
        if |joined[p]| >= MAX_JOINED {
          return false;
        }
        joined := joined[p := joined[p] + [c]];
      }
      RowsSame();
      ok := Enter(p, i);
      WholeIs();
    }

    /** The channel's side of a join, with the note taken back if it is full. */
    method Enter(p: int, i: nat) returns (ok: bool)
      requires Valid() && p in joined && i < nextId - 1
      modifies this`joined, slots, members
      ensures Valid() && WaiterRows() == old(WaiterRows()) && QueueRows() == old(QueueRows()) && Flags() == old(Flags())
      ensures i < |old(MemberRows())| && ok == (p in old(MemberRows())[i] || |old(MemberRows())[i]| < MAX_SUBSCRIBERS)
      ensures joined == if ok then old(joined) else old(joined)[p := Without(old(joined)[p], i + 1)]
      ensures MemberRows() ==
        if p in old(MemberRows())[i] || !ok then old(MemberRows()) else old(MemberRows())[i := old(MemberRows())[i] + [p]]
    {
      hide *;
      WholeIs();
      Counts();
      var member := IsMember(i, p);
      if member {
        return true;
      }
      if slots[i].members >= MAX_SUBSCRIBERS {
        var rest := RemoveFirst(joined[p], i + 1);
        joined := joined[p := rest];
        RowsSame();
        return false;
      }
      AddMember(i, p);
      return true;
    }

    /** A new process has joined nothing. */
    method ProcessStart(p: int)
      requires Valid() && p !in joined
      modifies this`joined
      ensures Valid() && Tab() == old(Tab()).(members := Begin(old(Tab()).members, p))
    {
      joined := joined[p := []];
      RowsSame();
      hide ByChannel, Flagged, Row, Ring, SlotOk;
    }

    /** A process leaves a channel and its list of waiters. */
    method LeaveChannel(p: int, c: int) returns (ok: bool)
      requires Valid() && p in joined
      modifies this`joined, slots, members, waiting
      ensures Valid() && (Tab(), ok) == Quit(old(Tab()), p, c)
    {
      hide *;
      Limits();
      WholeIs();
      var i := FindChannel(c);
      if i < 0 {
        NoSuchChannel(old(Tab()), p, c);
        return false;
      }
      WholeQuit(MemberRows(), WaiterRows(), QueueRows(), Flags(), joined, nextId, p, i);
      var rest := RemoveFirst(joined[p], c);
      joined := joined[p := rest];
      RowsSame();
      DropMember(i, p);
      DropWaiter(i, p);
      WholeIs();
      return true;
    }

    /** Whether a process may send to or receive from channel `i + 1`. */
    method MayUseSlot(p: int, i: nat) returns (ok: bool)
      requires Valid() && i < nextId - 1
      ensures ok <==> p in joined && (i + 1 in joined[p] || Flags()[i])
    {
      if p !in joined {
        return false;
      }
      ok := Contains(joined[p], i + 1);
      if !ok {
        ok := slots[i].kernel;
      }
    }

    /** The sender is known and may use the channel, and there is room in the ring. */
    method Admits(i: nat, m: Message) returns (ok: bool)
      requires Valid() && i < nextId - 1 && |m.data| <= MAX_DATA
      ensures ok <==> Accepts(Tab(), i + 1, m)
      ensures ok ==> slots[i].count < QUEUE_LENGTH
    {
      hide *;
      Limits();
      WholeIs();
      Counts();
      WholeSend(MemberRows(), WaiterRows(), QueueRows(), Flags(), joined, nextId, i, m);
      if m.sender > 0 {
        ok := MayUseSlot(m.sender, i);
        if !ok {
          return;
        }
      }
      ok := slots[i].count < QUEUE_LENGTH;
    }

    /** Puts a message into the ring and reports the process to wake, or -1. */
    method SendTo(c: int, m: Message) returns (ok: bool, woken: int)
      requires Valid()
      modifies slots, waiting, messages
      ensures Valid() && (Tab(), ok, woken) == Send(old(Tab()), c, m)
    {
      hide *;
      WholeKeys(MemberRows(), WaiterRows(), QueueRows(), Flags(), joined, nextId, c);
      WholeIs();
      RefusedIs(Tab(), c, m);
      if |m.data| > MAX_DATA {
        return false, NOBODY;
      }
      var i := FindChannel(c);
      if i < 0 {
        return false, NOBODY;
      }
      ok := Admits(i, m);
      if !ok {
        return false, NOBODY;
      }
      SentIs(i, m);
      woken := Queue(i, m);
      WholeIs();
    }

    lemma SentIs(i: nat, m: Message)
      requires Valid() && i < nextId - 1 && Accepts(Tab(), i + 1, m)
      ensures |MemberRows()| == |WaiterRows()| == |QueueRows()| == nextId - 1
      ensures var w, q := WaiterRows(), QueueRows();
        && (w[i] == [] ==> Send(Tab(), i + 1, m) == (Whole(MemberRows(), w, q[i := q[i] + [m]], Flags(), joined, nextId), true, NOBODY))
        && (w[i] != [] ==> Send(Tab(), i + 1, m) == (Whole(MemberRows(), w[i := w[i][1..]], q[i := q[i] + [m]], Flags(), joined, nextId), true, w[i][0]))
    {
      hide *;
      WholeIs();
      WholeSend(MemberRows(), WaiterRows(), QueueRows(), Flags(), joined, nextId, i, m);
    }

    /** The message goes into the ring, the first waiter off its list. */
    method Queue(i: nat, m: Message) returns (woken: int)
      requires Valid() && i < nextId - 1 && slots[i].count < QUEUE_LENGTH
      modifies slots, waiting, messages
      ensures Valid() && MemberRows() == old(MemberRows()) && Flags() == old(Flags())
      ensures QueueRows() == old(QueueRows())[i := old(QueueRows())[i] + [m]]
      ensures old(WaiterRows())[i] == [] ==> woken == NOBODY && WaiterRows() == old(WaiterRows())
      ensures old(WaiterRows())[i] != [] ==> woken == old(WaiterRows())[i][0] && WaiterRows() == old(WaiterRows())[i := old(WaiterRows())[i][1..]]
    {
      hide *;
      PutMessage(i, m);
      Counts();
      woken := NOBODY;
      if slots[i].waiting > 0 {
        woken := PopWaiter(i);
      }
    }

    /** The first pass of a receive call: the right to receive is looked at once. */
    method ReceiveFrom(p: int, c: int, nonblock: bool) returns (r: Result)
      requires Valid()
      modifies slots, waiting
      ensures Valid() && (Tab(), r) == Receive(old(Tab()), p, c, nonblock)
    {
      hide *;
      Limits();
      WholeIs();
      WholeKeys(MemberRows(), WaiterRows(), QueueRows(), Flags(), joined, nextId, c);
      ReceiveIs(Tab(), p, c, nonblock);
      var i := FindChannel(c);
      if i < 0 {
        return Refused;
      }
      var may := MayUseSlot(p, i);
      if !may {
        return Refused;
      }
      r := ReceivePass(p, i, nonblock);
    }

    /** One pass of the receive loop on the record of a channel. */
    method ReceivePass(p: int, i: nat, nonblock: bool) returns (r: Result)
      requires Valid() && i < nextId - 1
      modifies slots, waiting
      ensures Valid() && i + 1 in old(Tab()).queues && i + 1 in old(Tab()).waiters
      ensures (Tab(), r) == Pass(old(Tab()), p, i + 1, nonblock)
    {
      hide *;
      Limits();
      WholeIs();
      Counts();
      WholePass(MemberRows(), WaiterRows(), QueueRows(), Flags(), joined, nextId, p, i, nonblock);
      if slots[i].count > 0 {
        var m := TakeMessage(i);
        WholeIs();
        return Got(m);
      }
      if nonblock {
        return Nothing;
      }
      var found := IsWaiting(i, p);
      if !found {
        if slots[i].waiting >= MAX_WAITERS {
          return Refused;
        }
        AddWaiter(i, p);
        WholeIs();
      }
      return Blocked;
    }

    /** Takes a process off the members and the waiters of one channel. */
    method Forget(p: int, c: int)
      requires Valid()
      modifies slots, members, waiting
      ensures Valid() && QueueRows() == old(QueueRows()) && Flags() == old(Flags())
      ensures MemberRows() == Forgotten(old(MemberRows()), p, c) && WaiterRows() == Forgotten(old(WaiterRows()), p, c)
    {
      hide *;
      WholeIs();
      ForgottenRows(MemberRows(), p, c);
      ForgottenRows(WaiterRows(), p, c);
      var i := FindChannel(c);
      if i >= 0 {
        DropMember(i, p);
        DropWaiter(i, p);
      }
    }

    /** Process exit: the process is taken off the members and the waiters of each channel it joined. */
    method ProcessCleanup(p: int)
      requires Valid() && p in joined
      modifies this`joined, slots, members, waiting
      ensures Valid() && Tab() == Drop(old(Tab()), p)
    {
      hide *;
      WholeIs();
      var todo := joined[p];
      var i := 0;
      while i < |todo|
        invariant i <= |todo| && joined == old(joined) && nextId == old(nextId)
        invariant Valid() && QueueRows() == old(QueueRows()) && Flags() == old(Flags())
        invariant Unsubscribe(ByChannel(MemberRows()), p, todo[i..]) == Unsubscribe(ByChannel(old(MemberRows())), p, todo)
        invariant Unsubscribe(ByChannel(WaiterRows()), p, todo[i..]) == Unsubscribe(ByChannel(old(WaiterRows())), p, todo)
      {
        assert todo[i..][0] == todo[i] && todo[i..][1..] == todo[i + 1..];
        ForgottenIs(MemberRows(), p, todo[i..]);
        ForgottenIs(WaiterRows(), p, todo[i..]);
        Forget(p, todo[i]);
        i := i + 1;
      }
      assert todo[i..] == [];
      UnsubscribeDone(ByChannel(MemberRows()), p);
      UnsubscribeDone(ByChannel(WaiterRows()), p);
      WholeDrop(old(MemberRows()), old(WaiterRows()), QueueRows(), Flags(), joined, nextId, p, MemberRows(), WaiterRows());
      label Left:
      joined := joined - {p};
      RowsSame@Left();
      WholeIs();
    }

    /** The rows do not depend on what processes note. */
    twostate lemma RowsSame()
      requires old(Valid()) && nextId == old(nextId) && unchanged(slots) && unchanged(members) && unchanged(waiting) && unchanged(messages)
      ensures Valid() && MemberRows() == old(MemberRows()) && WaiterRows() == old(WaiterRows()) && QueueRows() == old(QueueRows()) && Flags() == old(Flags())
    {
      hide Place, Row, Ring, SlotOk;
    }

    lemma WholeIs()
      requires Valid()
      ensures Tab() == Whole(MemberRows(), WaiterRows(), QueueRows(), Flags(), joined, nextId)
      ensures Tab().members == State(ByChannel(MemberRows()), joined, nextId)
      ensures Tab().kernels == Flagged(Flags()) && Tab().waiters == ByChannel(WaiterRows()) && Tab().queues == ByChannel(QueueRows())
      ensures |MemberRows()| == |WaiterRows()| == |QueueRows()| == |Flags()| == nextId - 1
    {
      hide Row, Ring, ByChannel, Flagged;
    }

    lemma Counts()
      requires Valid()
      ensures forall i :: 0 <= i < nextId - 1 ==>
        && i < slots.Length && slots[i].members == |MemberRows()[i]| && slots[i].waiting == |WaiterRows()[i]| && slots[i].count == |QueueRows()[i]|
        && slots[i].kernel == Flags()[i]
    {
      hide Row, Ring, Place;
    }

    lemma Limits()
      requires Valid()
      ensures 0 < nextId <= MAX_CHANNELS + 1 && slots.Length == MAX_CHANNELS
      ensures MAX_CHANNELS == 32 && NOBODY == -1
    {
    }

    lemma UsedIs(i: nat)
      requires Valid() && i < MAX_CHANNELS
      ensures i < slots.Length && (slots[i].used <==> i < nextId - 1) && (slots[i].used ==> slots[i].id == i + 1)
    {
    }
  }

  lemma NoSuchChannel(t: Table, p: int, c: int)
    requires c !in t.members.subscribers && p in t.members.joined
    ensures Quit(t, p, c) == (t, false)
  {
  }

  lemma RefusedIs(t: Table, c: int, m: Message)
    ensures !Accepts(t, c, m) ==> Send(t, c, m) == (t, false, NOBODY)
    ensures |m.data| > MAX_DATA || c !in t.queues ==> !Accepts(t, c, m)
  {
  }

  lemma ReceiveIs(t: Table, p: int, c: int, nonblock: bool)
    ensures Receive(t, p, c, nonblock) ==
      if c !in t.queues || c !in t.waiters || p !in t.members.joined || (c !in t.members.joined[p] && c !in t.kernels) then (t, Refused)
      else Pass(t, p, c, nonblock)
  {
  }

  lemma ForgottenRows(rows: seq<seq<int>>, p: int, c: int)
    ensures Forgotten(rows, p, c) == if 1 <= c <= |rows| then rows[c - 1 := Without(rows[c - 1], p)] else rows
  {
  }

  lemma UnsubscribeDone(subs: map<int, seq<int>>, p: int)
    ensures Unsubscribe(subs, p, []) == subs
  {
  }

  /** Copies what fits of a message into the receiver's buffer; the truncation bit tells the rest is lost. */
  method CopyOut(m: Message, out: array<int>, room: nat) returns (header: nat)
    requires room <= out.Length
    modifies out
    ensures var d := Deliver(m, room);
      header == d.header && |d.data| <= out.Length && out[..|d.data|] == d.data && out[|d.data|..] == old(out[|d.data|..])
  {
    DeliveryFacts(m, room);
    header := m.header;
    if |m.data| > room && header % 2 == 0 {
      header := header + 1;
    }
    var n := if |m.data| < room then |m.data| else room;
    var i := 0;
    while i < n
      invariant i <= n && out[..i] == m.data[..i] && out[n..] == old(out[n..])
    {
      out[i] := m.data[i];
      i := i + 1;
    }
  }
}
