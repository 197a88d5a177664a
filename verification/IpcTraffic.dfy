/**
 Messages over channels: sending wakes the first registered receiver, a receive pass takes the
 oldest message or registers and blocks, and exit looks only at the channels the process joined.
 A blocked receiver may also be woken from elsewhere, at any time; that nothing in the kernel
 does so is a matter of all its lists of waiters (module Blocking).
 */
module IpcTraffic {
  import opened Common
  import opened IpcChannel

  const MAX_WAITERS: nat := 8
  const QUEUE_LENGTH: nat := 32
  const MAX_DATA: nat := 256
  const NOBODY: int := -1

  /** A message; sender 0 is the kernel. */
  datatype Message = Message(header: nat, kind: nat, sender: int, data: seq<int>)

  /** The channel table: who is a member, which channels anyone may use, who waits, and what is queued. */
  datatype Table = Table(members: State, kernels: set<int>, waiters: map<int, seq<int>>, queues: map<int, seq<Message>>)

  // ---------------------------------------------------------------- the routines

  /** A new channel gets the next number; a full table makes none. */
  function Open(t: Table, kernel: bool): (Table, int) {
    var c := t.members.nextId;
    if !Create(t.members).1 then (t, NOBODY)
    else
      (t.(members := Create(t.members).0, kernels := if kernel then t.kernels + {c} else t.kernels,
        waiters := t.waiters[c := []], queues := t.queues[c := []]), c)
  }

  /** Leaving a channel also takes the process off its waiters. */
  function Quit(t: Table, p: int, c: int): (Table, bool)
    requires p in t.members.joined
  {
    var (members, ok) := Leave(t.members, p, c);
    (t.(members := members, waiters := if ok && c in t.waiters then t.waiters[c := Without(t.waiters[c], p)] else t.waiters), ok)
  }

  /** Exit takes the process off the members and the waiters of the channels it joined. */
  function Drop(t: Table, p: int): Table
    requires p in t.members.joined
  {
    t.(members := Exit(t.members, p), waiters := Unsubscribe(t.waiters, p, t.members.joined[p]))
  }

  /** A process may use the channels it joined and the kernel's. */
  predicate MayUse(t: Table, p: int, c: int) {
    p in t.members.joined && (c in t.members.joined[p] || c in t.kernels)
  }

  predicate Accepts(t: Table, c: int, m: Message) {
    && |m.data| <= MAX_DATA && c in t.queues && c in t.waiters
    && (m.sender > 0 ==> MayUse(t, m.sender, c))
    && |t.queues[c]| < QUEUE_LENGTH
  }

  /** Queues a message and takes the first waiter off, to be woken. */
  function Send(t: Table, c: int, m: Message): (Table, bool, int) {
    if !Accepts(t, c, m) then (t, false, NOBODY)
    else
      var t1 := t.(queues := t.queues[c := t.queues[c] + [m]]);
      if t.waiters[c] == [] then (t1, true, NOBODY)
      else (t1.(waiters := t.waiters[c := t.waiters[c][1..]]), true, t.waiters[c][0])
  }

  datatype Result = Got(m: Message) | Nothing | Blocked | Refused

  /** One pass of the receive loop; a full waiter list refuses. */
  function Pass(t: Table, p: int, c: int, nonblock: bool): (Table, Result)
    requires c in t.queues && c in t.waiters
  {
    if t.queues[c] != [] then (t.(queues := t.queues[c := t.queues[c][1..]]), Got(t.queues[c][0]))
    else if nonblock then (t, Nothing)
    else if p in t.waiters[c] then (t, Blocked)
    else if |t.waiters[c]| >= MAX_WAITERS then (t, Refused)
    else (t.(waiters := t.waiters[c := t.waiters[c] + [p]]), Blocked)
  }

  function Receive(t: Table, p: int, c: int, nonblock: bool): (Table, Result) {
    if c !in t.queues || c !in t.waiters || !MayUse(t, p, c) then (t, Refused) else Pass(t, p, c, nonblock)
  }

  /** What the receiver's buffer of `room` bytes gets; bit 0 of the header tells that it was too small. */
  datatype Delivery = Delivery(header: nat, kind: nat, sender: int, size: nat, data: seq<int>)

  function Deliver(m: Message, room: nat): Delivery {
    if |m.data| > room then Delivery(if m.header % 2 == 0 then m.header + 1 else m.header, m.kind, m.sender, |m.data|, m.data[..room])
    else Delivery(m.header, m.kind, m.sender, |m.data|, m.data)
  }

  /** The reader can tell: it got the whole message, or a prefix that fills its buffer and the bit. */
  lemma DeliveryFacts(m: Message, room: nat)
    ensures var d := Deliver(m, room);
      && d.size == |m.data| && d.data <= m.data && |d.data| <= room
      && (d.data == m.data <==> |m.data| <= room)
      && (|m.data| > room ==> d.header % 2 == 1 && |d.data| == room)
  {
  }

  // ---------------------------------------------------------------- the protocol

  /** Where a live process is: outside, blocked in a receive on a channel, or woken in one. */
  datatype Phase = Free | Waiting(c: int) | Woken(c: int)

  /** The table, the live processes, and per channel what was accepted and what was taken, in order. */
  datatype World = World(t: Table, phases: map<int, Phase>, accepted: map<int, seq<Message>>, taken: map<int, seq<Message>>)

  datatype Event =
    | OpenChannel(kernel: bool)
    | Begins(p: int)
    | Joins(p: int, c: int)
    | Leaves(p: int, c: int)
    | Sends(c: int, m: Message)
    | Calls(p: int, c: int, nonblock: bool)
    | Retries(p: int)
    | OtherWake(p: int)
    | Ends(p: int)

  predicate IsFree(w: World, p: int) { p in w.phases && w.phases[p].Free? }

  /** A process acts only outside a receive; a blocked one may be woken by something else. */
  predicate Possible(w: World, e: Event) {
    match e
    case OpenChannel(_) => true
    case Begins(p) => p > 0 && p !in w.phases
    case Joins(p, _) => IsFree(w, p)
    case Leaves(p, _) => IsFree(w, p)
    case Sends(_, m) => m.sender == 0 || IsFree(w, m.sender)
    case Calls(p, _, _) => IsFree(w, p)
    case Retries(p) => p in w.phases && w.phases[p].Woken?
    case OtherWake(p) => p in w.phases && w.phases[p].Waiting?
    case Ends(p) => IsFree(w, p)
  }

  function Wake(phases: map<int, Phase>, p: int): map<int, Phase> {
    if p in phases && phases[p].Waiting? then phases[p := Woken(phases[p].c)] else phases
  }

  function AfterPass(w: World, p: int, c: int, t: Table, r: Result): World
    requires c in w.taken
  {
    w.(t := t,
      taken := if r.Got? then w.taken[c := w.taken[c] + [r.m]] else w.taken,
      phases := w.phases[p := if r.Blocked? then Waiting(c) else Free])
  }

  function Advance(w: World, e: Event): World
    requires WorldOk(w) && Possible(w, e)
  {
    match e
    case OpenChannel(kernel) =>
      var (t, c) := Open(w.t, kernel);
      if c == NOBODY then w else w.(t := t, accepted := w.accepted[c := []], taken := w.taken[c := []])
    case Begins(p) => w.(t := w.t.(members := Begin(w.t.members, p)), phases := w.phases[p := Free])
    case Joins(p, c) => w.(t := w.t.(members := Join(w.t.members, p, c).0))
    case Leaves(p, c) => w.(t := Quit(w.t, p, c).0)
    case Sends(c, m) =>
      var (t, ok, woken) := Send(w.t, c, m);
      if !ok then w else w.(t := t, accepted := w.accepted[c := w.accepted[c] + [m]], phases := Wake(w.phases, woken))
    case Calls(p, c, nonblock) =>
      if c !in w.t.queues || !MayUse(w.t, p, c) then w
      else var (t, r) := Pass(w.t, p, c, nonblock); AfterPass(w, p, c, t, r)
    case Retries(p) =>
      var c := w.phases[p].c;
      var (t, r) := Pass(w.t, p, c, false);
      AfterPass(w, p, c, t, r)
    case OtherWake(p) => w.(phases := Wake(w.phases, p))
    case Ends(p) => w.(t := Drop(w.t, p), phases := w.phases - {p})
  }

  // ---------------------------------------------------------------- the invariant

  ghost predicate KeysOk(w: World) {
    && w.t.waiters.Keys == w.t.members.subscribers.Keys && w.t.queues.Keys == w.t.members.subscribers.Keys
    && w.accepted.Keys == w.t.members.subscribers.Keys && w.taken.Keys == w.t.members.subscribers.Keys
    && w.t.kernels <= w.t.members.subscribers.Keys
    && w.phases.Keys == w.t.members.joined.Keys
  }

  /** Waiters are listed once, and messages leave in the order in which they were accepted. */
  ghost predicate ChannelOk(w: World, c: int)
    requires c in w.t.waiters && c in w.t.queues && c in w.accepted && c in w.taken
  {
    && Distinct(w.t.waiters[c]) && |w.t.waiters[c]| <= MAX_WAITERS && |w.t.queues[c]| <= QUEUE_LENGTH
    && w.accepted[c] == w.taken[c] + w.t.queues[c]
  }

  /** A process blocked in a receive is registered with its channel. */
  ghost predicate PhaseOk(w: World, p: int)
    requires p in w.phases
  {
    && p > 0
    && (w.phases[p].Waiting? ==> w.phases[p].c in w.t.waiters && p in w.t.waiters[w.phases[p].c])
    && (w.phases[p].Woken? ==> w.phases[p].c in w.t.waiters)
  }

  ghost predicate WorldOk(w: World) {
    && Agree(w.t.members) && KeysOk(w)
    && (forall c :: c in w.t.waiters ==> ChannelOk(w, c))
    && (forall p :: p in w.phases ==> PhaseOk(w, p))
  }

  lemma OpenKeeps(w: World, kernel: bool)
    requires WorldOk(w)
    ensures WorldOk(Advance(w, OpenChannel(kernel)))
  {
    CreateKeeps(w.t.members);
    hide Agree, Distinct, WorldOk;
    WorldParts(w);
    var w' := Advance(w, OpenChannel(kernel));
    OpenIs(w, kernel);
    forall c | c in w'.t.waiters
      ensures ChannelOk(w', c)
    {
      if c in w.t.waiters {
        assert ChannelOk(w, c);
      } else {
        NoRepetition();
      }
    }
    forall p | p in w'.phases
      ensures PhaseOk(w', p)
    {
      assert PhaseOk(w, p);
    }
    WorldIntro(w');
  }

  lemma WorldParts(w: World)
    requires WorldOk(w)
    ensures Agree(w.t.members) && KeysOk(w)
    ensures forall c :: c in w.t.waiters ==> ChannelOk(w, c)
    ensures forall p :: p in w.phases ==> PhaseOk(w, p)
  {
  }

  lemma WorldIntro(w: World)
    requires Agree(w.t.members) && KeysOk(w)
    requires forall c :: c in w.t.waiters ==> ChannelOk(w, c)
    requires forall p :: p in w.phases ==> PhaseOk(w, p)
    ensures WorldOk(w)
  {
  }

  /** A new channel comes with empty lists, and nothing else changes. */
  lemma OpenIs(w: World, kernel: bool)
    requires WorldOk(w)
    ensures var w', c := Advance(w, OpenChannel(kernel)), w.t.members.nextId;
      && w'.phases == w.phases && w'.t.members.joined == w.t.members.joined
      && (w'.t.members == w.t.members || w'.t.members == Create(w.t.members).0)
      && (w' == w
        || (w'.t.waiters == w.t.waiters[c := []] && w'.t.queues == w.t.queues[c := []] && w'.accepted == w.accepted[c := []]
          && w'.taken == w.taken[c := []] && w'.t.members.subscribers == w.t.members.subscribers[c := []]
          && w'.t.kernels <= w.t.kernels + {c}))
  {
    hide WorldOk;
  }

  lemma NoRepetition()
    ensures Distinct([])
  {
  }

  lemma BeginsKeeps(w: World, p: int)
    requires WorldOk(w) && Possible(w, Begins(p))
    ensures WorldOk(Advance(w, Begins(p)))
  {
    BeginKeeps(w.t.members, p);
    hide Agree, Distinct;
    SameChannels(w, Advance(w, Begins(p)));
  }

  /** With the channels untouched only the phases matter. */
  lemma SameChannels(w: World, w': World)
    requires WorldOk(w) && Agree(w'.t.members) && KeysOk(w')
    requires w'.t.waiters == w.t.waiters && w'.t.queues == w.t.queues && w'.accepted == w.accepted && w'.taken == w.taken
    requires forall p :: p in w'.phases ==> if p in w.phases then w'.phases[p] == w.phases[p] else w'.phases[p].Free? && p > 0
    ensures WorldOk(w')
  {
    forall c | c in w'.t.waiters
      ensures ChannelOk(w', c)
    {
      assert ChannelOk(w, c);
    }
    forall p | p in w'.phases
      ensures PhaseOk(w', p)
    {
      if p in w.phases {
        assert PhaseOk(w, p);
      }
    }
  }

  lemma JoinedKeys(s: State, p: int, c: int)
    requires p in s.joined
    ensures Join(s, p, c).0.subscribers.Keys == s.subscribers.Keys && Join(s, p, c).0.joined.Keys == s.joined.Keys
    ensures Leave(s, p, c).0.subscribers.Keys == s.subscribers.Keys && Leave(s, p, c).0.joined.Keys == s.joined.Keys
  {
    hide Without;
  }

  lemma JoinsKeeps(w: World, p: int, c: int)
    requires WorldOk(w) && Possible(w, Joins(p, c))
    ensures WorldOk(Advance(w, Joins(p, c)))
  {
    JoinKeeps(w.t.members, p, c);
    JoinedKeys(w.t.members, p, c);
    hide Agree, Distinct, Join;
    SameChannels(w, Advance(w, Joins(p, c)));
  }

  /** Taking processes that are outside off some lists of waiters changes nothing else. */
  lemma FewerWaiters(w: World, w': World, p: int)
    requires WorldOk(w) && Agree(w'.t.members) && KeysOk(w') && IsFree(w, p)
    requires w'.t.waiters.Keys == w.t.waiters.Keys
    requires w'.t.queues == w.t.queues && w'.accepted == w.accepted && w'.taken == w.taken
    requires forall c :: c in w.t.waiters ==> Distinct(w'.t.waiters[c]) && |w'.t.waiters[c]| <= |w.t.waiters[c]|
    requires forall c, q :: c in w.t.waiters && q in w.t.waiters[c] && q != p ==> q in w'.t.waiters[c]
    requires forall q :: q in w'.phases ==> q in w.phases && w'.phases[q] == w.phases[q]
    ensures WorldOk(w')
  {
    hide Agree, Distinct;
    forall c | c in w'.t.waiters
      ensures ChannelOk(w', c)
    {
      assert ChannelOk(w, c);
    }
    forall q | q in w'.phases
      ensures PhaseOk(w', q)
    {
      assert PhaseOk(w, q);
    }
  }

  lemma LeavesKeeps(w: World, p: int, c: int)
    requires WorldOk(w) && Possible(w, Leaves(p, c))
    ensures WorldOk(Advance(w, Leaves(p, c)))
  {
    LeaveKeeps(w.t.members, p, c);
    JoinedKeys(w.t.members, p, c);
    if c in w.t.waiters {
      assert ChannelOk(w, c);
      WithoutFacts(w.t.waiters[c], p);
    }
    assert forall d :: d in w.t.waiters ==> ChannelOk(w, d) && Distinct(w.t.waiters[d]);
    hide Agree, Distinct, Leave, Without;
    FewerWaiters(w, Advance(w, Leaves(p, c)), p);
  }

  lemma EndsKeeps(w: World, p: int)
    requires WorldOk(w) && Possible(w, Ends(p))
    ensures WorldOk(Advance(w, Ends(p)))
  {
    ExitKeeps(w.t.members, p);
    assert forall d :: d in w.t.waiters ==> ChannelOk(w, d) && Distinct(w.t.waiters[d]);
    UnsubscribeFacts(w.t.waiters, p, w.t.members.joined[p]);
    hide Agree, Distinct, Unsubscribe;
    FewerWaiters(w, Advance(w, Ends(p)), p);
  }

  lemma TailDistinct(q: seq<int>)
    requires Distinct(q) && q != []
    ensures Distinct(q[1..]) && q[0] !in q[1..] && forall x :: x in q ==> x == q[0] || x in q[1..]
  {
    assert q == [q[0]] + q[1..];
  }

  lemma SendsKeeps(w: World, c: int, m: Message)
    requires WorldOk(w) && Possible(w, Sends(c, m))
    ensures WorldOk(Advance(w, Sends(c, m)))
  {
    var w' := Advance(w, Sends(c, m));
    if Accepts(w.t, c, m) {
      WorldParts(w);
      SentChannel(w, c, m);
      hide Agree, Distinct, WorldOk;
      forall d | d in w'.t.waiters
        ensures ChannelOk(w', d)
      {
        assert ChannelOk(w, d);
      }
      hide ChannelOk;
      forall p | p in w'.phases
        ensures PhaseOk(w', p)
      {
        assert PhaseOk(w, p);
      }
      WorldIntro(w');
    }
  }

  /** The channel itself: its message queued, its first waiter off the list. */
  lemma SentChannel(w: World, c: int, m: Message)
    requires WorldOk(w) && Possible(w, Sends(c, m)) && Accepts(w.t, c, m)
    ensures var w' := Advance(w, Sends(c, m));
      && c in w'.t.waiters && c in w'.t.queues && c in w'.accepted && c in w'.taken && ChannelOk(w', c)
      && forall p :: p in w.t.waiters[c] ==> p == w.t.waiters[c][0] || p in w'.t.waiters[c]
  {
    assert ChannelOk(w, c);
    var q := w.t.waiters[c];
    if q != [] {
      TailDistinct(q);
    }
    assert w.accepted[c] + [m] == w.taken[c] + (w.t.queues[c] + [m]);
    hide Agree, Distinct, WorldOk;
  }

  /** A pass by a process that is not blocked. */
  lemma PassKeeps(w: World, p: int, c: int, nonblock: bool)
    requires WorldOk(w) && p in w.phases && !w.phases[p].Waiting? && c in w.t.queues && c in w.t.waiters && c in w.taken
    ensures var (t, r) := Pass(w.t, p, c, nonblock); WorldOk(AfterPass(w, p, c, t, r))
  {
    var (t, r) := Pass(w.t, p, c, nonblock);
    var w' := AfterPass(w, p, c, t, r);
    assert ChannelOk(w, c);
    var q := w.t.queues[c];
    if q != [] {
      assert q == [q[0]] + q[1..];
      assert w.taken[c] + q == w.taken[c] + [q[0]] + q[1..];
    }
    if p !in w.t.waiters[c] {
      AppendDistinct(w.t.waiters[c], p);
    }
    hide Agree, Distinct;
    forall d | d in w'.t.waiters
      ensures ChannelOk(w', d)
    {
      assert ChannelOk(w, d);
    }
    forall x | x in w'.phases
      ensures PhaseOk(w', x)
    {
      assert PhaseOk(w, x);
    }
  }

  lemma OtherWakeKeeps(w: World, p: int)
    requires WorldOk(w) && Possible(w, OtherWake(p))
    ensures WorldOk(Advance(w, OtherWake(p)))
  {
    hide Agree, Distinct;
    var w' := Advance(w, OtherWake(p));
    forall c | c in w'.t.waiters
      ensures ChannelOk(w', c)
    {
      assert ChannelOk(w, c);
    }
    forall x | x in w'.phases
      ensures PhaseOk(w', x)
    {
      assert PhaseOk(w, x);
    }
  }

  /** Every event keeps the invariant. */
  lemma AdvanceKeeps(w: World, e: Event)
    requires WorldOk(w) && Possible(w, e)
    ensures WorldOk(Advance(w, e))
  {
    match e {
      case OpenChannel(kernel) => OpenKeeps(w, kernel);
      case Begins(p) => BeginsKeeps(w, p);
      case Joins(p, c) => JoinsKeeps(w, p, c);
      case Leaves(p, c) => LeavesKeeps(w, p, c);
      case Sends(c, m) => SendsKeeps(w, c, m);
      case Calls(p, c, nonblock) =>
        if c in w.t.queues && MayUse(w.t, p, c) {
          PassKeeps(w, p, c, nonblock);
        }
      case Retries(p) =>
        assert PhaseOk(w, p);
        PassKeeps(w, p, w.phases[p].c, false);
      case OtherWake(p) => OtherWakeKeeps(w, p);
      case Ends(p) => EndsKeeps(w, p);
    }
  }

  // ---------------------------------------------------------------- runs

  ghost predicate Reaches(w: World, events: seq<Event>, w': World)
    decreases |events|
  {
    if events == [] then w' == w
    else WorldOk(w) && Possible(w, events[0]) && Reaches(Advance(w, events[0]), events[1..], w')
  }

  function Start(): World {
    World(Table(State(map[], map[], 1), {}, map[], map[]), map[], map[], map[])
  }

  lemma StartOk()
    ensures WorldOk(Start())
  {
  }

  lemma {:induction false} ReachesOk(w: World, events: seq<Event>, w': World)
    requires WorldOk(w) && Reaches(w, events, w')
    ensures WorldOk(w')
    decreases |events|
  {
    if events != [] {
      hide WorldOk, Advance, Possible;
      AdvanceKeeps(w, events[0]);
      ReachesOk(Advance(w, events[0]), events[1..], w');
    }
  }

  /**
   Over every run: members agree on both sides, messages are taken in the order in which they
   were accepted, none is lost or made up, and a blocked receiver is registered.
   */
  lemma TrafficGuarantees(events: seq<Event>, w: World)
    requires Reaches(Start(), events, w)
    ensures Agree(w.t.members)
    ensures forall c :: c in w.t.queues ==> c in w.accepted && c in w.taken && w.taken[c] <= w.accepted[c] == w.taken[c] + w.t.queues[c]
    ensures forall p :: p in w.phases && w.phases[p].Waiting? ==> w.phases[p].c in w.t.waiters && p in w.t.waiters[w.phases[p].c]
  {
    StartOk();
    ReachesOk(Start(), events, w);
    hide Agree, Reaches;
    forall c | c in w.t.queues
      ensures c in w.accepted && c in w.taken && w.taken[c] <= w.accepted[c] == w.taken[c] + w.t.queues[c]
    {
      assert ChannelOk(w, c);
    }
    forall p | p in w.phases && w.phases[p].Waiting?
      ensures w.phases[p].c in w.t.waiters && p in w.t.waiters[w.phases[p].c]
    {
      assert PhaseOk(w, p);
    }
  }

  // ---------------------------------------------------------------- exit

  /** An exiting process is on no list of waiters if and only if it was on none of a channel it had not joined. */
  lemma ExitLeavesNoWaiterIff(w: World, p: int)
    requires WorldOk(w) && Possible(w, Ends(p))
    ensures var w' := Advance(w, Ends(p));
      && p !in w'.phases
      && ((forall c :: c in w'.t.waiters ==> p !in w'.t.waiters[c]) <==>
        (forall c :: c in w.t.waiters && p in w.t.waiters[c] ==> c in w.t.members.joined[p]))
  {
    assert forall d :: d in w.t.waiters ==> ChannelOk(w, d) && Distinct(w.t.waiters[d]);
    UnsubscribeFacts(w.t.waiters, p, w.t.members.joined[p]);
    hide Agree, Distinct, Unsubscribe;
  }

  // ---------------------------------------------------------------- wake-ups

  /** The processes woken in a receive on channel `c` that have not run since. */
  ghost function WokenOn(w: World, c: int): set<int> {
    set p | p in w.phases && w.phases[p] == Woken(c)
  }

  /** Exactly the blocked are registered, and while somebody waits every queued message has somebody coming for it. */
  ghost predicate Lively(w: World) {
    forall c :: c in w.t.waiters && c in w.t.queues ==>
      && (forall p :: p in w.t.waiters[c] <==> p in w.phases && w.phases[p] == Waiting(c))
      && (w.t.waiters[c] != [] ==> |w.t.queues[c]| <= |WokenOn(w, c)|)
  }

  ghost predicate LivelyAt(w: World, c: int)
    requires c in w.t.waiters && c in w.t.queues
  {
    && (forall p :: p in w.t.waiters[c] <==> p in w.phases && w.phases[p] == Waiting(c))
    && (w.t.waiters[c] != [] ==> |w.t.queues[c]| <= |WokenOn(w, c)|)
  }

  lemma LivelyIs(w: World)
    ensures Lively(w) <==> forall c :: c in w.t.waiters && c in w.t.queues ==> LivelyAt(w, c)
  {
    hide WokenOn;
    forall c | c in w.t.waiters && c in w.t.queues
      ensures Lively(w) ==> LivelyAt(w, c)
    {
    }
  }

  lemma SameWoken(w: World, w': World, c: int)
    requires forall p :: (p in w'.phases && w'.phases[p] == Woken(c)) <==> (p in w.phases && w.phases[p] == Woken(c))
    ensures WokenOn(w', c) == WokenOn(w, c)
  {
    forall p: int
      ensures p in WokenOn(w', c) <==> p in WokenOn(w, c)
    {
    }
  }

  lemma SendLively(w: World, c: int, m: Message, d: int)
    requires WorldOk(w) && Possible(w, Sends(c, m)) && Accepts(w.t, c, m)
    requires d in w.t.waiters && d in w.t.queues && LivelyAt(w, d) && LivelyAt(w, c)
    ensures var w' := Advance(w, Sends(c, m)); d in w'.t.waiters && d in w'.t.queues && LivelyAt(w', d)
  {
    var w' := Advance(w, Sends(c, m));
    var q := w.t.waiters[c];
    assert ChannelOk(w, c);
    hide Agree, WorldOk;
    if q != [] {
      var p := q[0];
      TailDistinct(q);
      assert p in q && w.phases[p] == Waiting(c);
      hide Distinct;
      if d == c {
        assert WokenOn(w', c) == WokenOn(w, c) + {p};
        assert p !in WokenOn(w, c);
      } else {
        SameWoken(w, w', d);
      }
    } else {
      hide Distinct;
      assert NOBODY !in w.phases ==> w'.phases == w.phases;
      NobodyIsNoProcess(w);
      SameWoken(w, w', d);
    }
  }

  lemma NobodyIsNoProcess(w: World)
    ensures (forall p :: p in w.phases ==> p > 0) ==> Wake(w.phases, NOBODY) == w.phases
  {
  }

  lemma PassLively(w: World, p: int, c: int, nonblock: bool, d: int)
    requires p in w.phases && !w.phases[p].Waiting? && c in w.t.queues && c in w.t.waiters && c in w.taken
    requires w.phases[p].Woken? ==> w.phases[p].c == c
    requires d in w.t.waiters && d in w.t.queues && LivelyAt(w, d) && LivelyAt(w, c)
    ensures var (t, r) := Pass(w.t, p, c, nonblock);
      var w' := AfterPass(w, p, c, t, r);
      d in w'.t.waiters && d in w'.t.queues && LivelyAt(w', d)
  {
    var (t, r) := Pass(w.t, p, c, nonblock);
    var w' := AfterPass(w, p, c, t, r);
    assert p !in w.t.waiters[c] && p !in w.t.waiters[d];
    if d == c {
      if w.phases[p].Woken? {
        assert WokenOn(w', c) == WokenOn(w, c) - {p};
        assert p in WokenOn(w, c);
      } else {
        assert WokenOn(w', c) == WokenOn(w, c);
      }
    } else {
      SameWoken(w, w', d);
    }
  }

  lemma QuietLively(w: World, w': World, d: int)
    requires d in w.t.waiters && d in w.t.queues && LivelyAt(w, d)
    requires d in w'.t.waiters && d in w'.t.queues && w'.t.waiters[d] == w.t.waiters[d] && w'.t.queues[d] == w.t.queues[d]
    requires forall p :: (p in w.phases && !w.phases[p].Free?) ==> p in w'.phases && w'.phases[p] == w.phases[p]
    requires forall p :: (p in w'.phases && !w'.phases[p].Free?) ==> p in w.phases && w'.phases[p] == w.phases[p]
    ensures LivelyAt(w', d)
  {
    SameWoken(w, w', d);
  }

  /** A process outside is registered nowhere, so leaving and exiting take nothing off the waiters. */
  lemma FreeIsNowhere(w: World, p: int)
    requires WorldOk(w) && IsFree(w, p) && Lively(w)
    ensures forall c :: c in w.t.waiters ==> p !in w.t.waiters[c]
  {
    hide Agree, WokenOn, Distinct;
  }

  lemma {:induction false} UnsubscribeNothing(subs: map<int, seq<int>>, p: int, todo: seq<int>)
    requires forall c :: c in subs ==> p !in subs[c]
    ensures Unsubscribe(subs, p, todo) == subs
    decreases |todo|
  {
    if todo != [] {
      var c := todo[0];
      if c in subs {
        assert p !in subs[c];
        WithoutAbsent(subs[c], p);
        assert subs[c := subs[c]] == subs;
      }
      UnsubscribeNothing(subs, p, todo[1..]);
    }
  }

  lemma OpenLively(w: World, kernel: bool, d: int)
    requires WorldOk(w) && Lively(w)
    requires d in Advance(w, OpenChannel(kernel)).t.waiters && d in Advance(w, OpenChannel(kernel)).t.queues
    ensures LivelyAt(Advance(w, OpenChannel(kernel)), d)
  {
    var w' := Advance(w, OpenChannel(kernel));
    LivelyIs(w);
    if d in w.t.waiters {
      QuietLively(w, w', d);
    } else {
      hide Agree, Distinct;
      forall p | p in w'.phases
        ensures w'.phases[p] != Waiting(d)
      {
        assert PhaseOk(w, p);
      }
    }
  }

  lemma BeginsLively(w: World, p: int, d: int)
    requires WorldOk(w) && Possible(w, Begins(p)) && Lively(w)
    requires d in Advance(w, Begins(p)).t.waiters && d in Advance(w, Begins(p)).t.queues
    ensures LivelyAt(Advance(w, Begins(p)), d)
  {
    LivelyIs(w);
    hide WorldOk, Lively, LivelyAt;
    QuietLively(w, Advance(w, Begins(p)), d);
  }

  lemma JoinsLively(w: World, p: int, c: int, d: int)
    requires WorldOk(w) && Possible(w, Joins(p, c)) && Lively(w)
    requires d in Advance(w, Joins(p, c)).t.waiters && d in Advance(w, Joins(p, c)).t.queues
    ensures LivelyAt(Advance(w, Joins(p, c)), d)
  {
    LivelyIs(w);
    hide WorldOk, Lively, LivelyAt, Join;
    QuietLively(w, Advance(w, Joins(p, c)), d);
  }

  lemma SendsLively(w: World, c: int, m: Message, d: int)
    requires WorldOk(w) && Possible(w, Sends(c, m)) && Lively(w)
    requires d in Advance(w, Sends(c, m)).t.waiters && d in Advance(w, Sends(c, m)).t.queues
    ensures LivelyAt(Advance(w, Sends(c, m)), d)
  {
    LivelyIs(w);
    hide WorldOk, Lively, LivelyAt;
    if Accepts(w.t, c, m) {
      SendLively(w, c, m, d);
    }
  }

  lemma ReceivesLively(w: World, e: Event, d: int)
    requires WorldOk(w) && Possible(w, e) && Lively(w) && (e.Calls? || e.Retries?)
    requires d in Advance(w, e).t.waiters && d in Advance(w, e).t.queues
    ensures LivelyAt(Advance(w, e), d)
  {
    LivelyIs(w);
    WorldParts(w);
    hide WorldOk, Lively, LivelyAt, Agree;
    if e.Retries? {
      assert PhaseOk(w, e.p);
      PassLively(w, e.p, w.phases[e.p].c, false, d);
    } else if e.c in w.t.queues && MayUse(w.t, e.p, e.c) {
      PassLively(w, e.p, e.c, e.nonblock, d);
    }
  }

  /** Events other than a wake-up from elsewhere keep every message attended to. */
  lemma AdvanceLively(w: World, e: Event, d: int)
    requires WorldOk(w) && Possible(w, e) && Lively(w) && !e.OtherWake?
    requires d in Advance(w, e).t.waiters && d in Advance(w, e).t.queues
    ensures LivelyAt(Advance(w, e), d)
  {
    hide *;
    match e {
      case OpenChannel(kernel) => OpenLively(w, kernel, d);
      case Begins(p) => BeginsLively(w, p, d);
      case Joins(p, c) => JoinsLively(w, p, c, d);
      case Leaves(p, c) => LeavesLively(w, p, c, d);
      case Sends(c, m) => SendsLively(w, c, m, d);
      case Calls(p, c, nonblock) => ReceivesLively(w, e, d);
      case Retries(p) => ReceivesLively(w, e, d);
      case Ends(p) => EndsLively(w, p, d);
    }
  }

  lemma LeavesLively(w: World, p: int, c: int, d: int)
    requires WorldOk(w) && Possible(w, Leaves(p, c)) && Lively(w)
    requires d in Advance(w, Leaves(p, c)).t.waiters && d in Advance(w, Leaves(p, c)).t.queues
    ensures LivelyAt(Advance(w, Leaves(p, c)), d)
  {
    FreeIsNowhere(w, p);
    LivelyIs(w);
    hide Agree, WorldOk, Lively, LivelyAt;
    if c in w.t.waiters {
      WithoutAbsent(w.t.waiters[c], p);
    }
    QuietLively(w, Advance(w, Leaves(p, c)), d);
  }

  lemma EndsLively(w: World, p: int, d: int)
    requires WorldOk(w) && Possible(w, Ends(p)) && Lively(w)
    requires d in Advance(w, Ends(p)).t.waiters && d in Advance(w, Ends(p)).t.queues
    ensures LivelyAt(Advance(w, Ends(p)), d)
  {
    FreeIsNowhere(w, p);
    LivelyIs(w);
    WorldParts(w);
    hide Agree, WorldOk, Lively, LivelyAt;
    UnsubscribeNothing(w.t.waiters, p, w.t.members.joined[p]);
    QuietLively(w, Advance(w, Ends(p)), d);
  }

  lemma StartLively()
    ensures Lively(Start())
  {
  }

  // ---------------------------------------------------------------- stale registrations

  /**
   A pass that finds a message does not look at the waiters: the receiver goes its way registered
   if and only if it was before.  Only a wake-up from elsewhere could leave it so.
   */
  lemma StaleIff(w: World, p: int)
    requires WorldOk(w) && Possible(w, Retries(p)) && w.phases[p].c in w.t.queues
    ensures var c, w' := w.phases[p].c, Advance(w, Retries(p));
      c in w.t.waiters && c in w'.t.waiters && (w'.phases[p].Free? && p in w'.t.waiters[c] <==> w.t.queues[c] != [] && p in w.t.waiters[c])
  {
    assert PhaseOk(w, p);
  }
}
