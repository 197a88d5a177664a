/**
 A process's mailbox: bounded, with selective receive.  A receive pass takes matching
 messages until one may be delivered; if there is none, registering as a waiter and blocking
 is part of the same step.
 */
module IpcMailbox {
  import opened Common

  const QUEUE_LENGTH: nat := 16
  const MAX_WAITERS: nat := 8
  const MAX_DATA: nat := 256

  datatype Message = Message(sender: int, data: seq<int>)

  /** Whom a receive listens to. */
  datatype From = Anyone | Only(sender: int)

  predicate Matches(from: From, m: Message) {
    from.Anyone? || m.sender == from.sender
  }

  /** The first matching message at index `i` or later. */
  function FindMatch(q: seq<Message>, from: From, i: nat): (r: Option<nat>)
    requires i <= |q|
    ensures r.Some? ==> i <= r.value < |q| && Matches(from, q[r.value]) && forall j :: i <= j < r.value ==> !Matches(from, q[j])
    ensures r.None? ==> forall j :: i <= j < |q| ==> !Matches(from, q[j])
    decreases |q| - i
  {
    if i == |q| then None else if Matches(from, q[i]) then Some(i) else FindMatch(q, from, i + 1)
  }

  function RemoveAt<T>(q: seq<T>, i: nat): (r: seq<T>)
    requires i < |q|
    ensures |r| == |q| - 1
  {
    q[..i] + q[i + 1..]
  }

  /** What a receive pass leaves in the queue, what it delivers, and what it drops on the way. */
  datatype Pass = Pass(queue: seq<Message>, delivered: Option<Message>, dropped: seq<Message>)

  function Receive(q: seq<Message>, from: From, allowed: set<int>): (r: Pass)
    ensures |r.queue| <= |q|
    ensures r.delivered.None? ==> forall j :: 0 <= j < |r.queue| ==> !Matches(from, r.queue[j])
    ensures r.delivered.Some? ==> Matches(from, r.delivered.value) && r.delivered.value.sender in allowed
    ensures |q| == |r.queue| + |r.dropped| + if r.delivered.Some? then 1 else 0
    decreases |q|
  {
    var i := FindMatch(q, from, 0);
    if i.None? then Pass(q, None, [])
    else if q[i.value].sender in allowed then Pass(RemoveAt(q, i.value), Some(q[i.value]), [])
    else
      var rest := Receive(RemoveAt(q, i.value), from, allowed);
      rest.(dropped := [q[i.value]] + rest.dropped)
  }

  // ---------------------------------------------------------------- the protocol

  /** Where the receiving process is. */
  datatype Phase = Elsewhere | Blocked(from: From) | Woken(from: From) | Gone

  /**
   A mailbox and its process.  `accepted` and `taken` record messages in the order they were
   accepted and taken out; `delivered` and `dropped` count the taken ones.
   */
  datatype World = World(
    pid: int, kernel: bool, queue: seq<Message>, waiters: seq<int>, phase: Phase,
    accepted: seq<Message>, taken: seq<Message>, delivered: nat, dropped: nat, cleared: seq<Message>)

  datatype Step =
    | Send(m: Message)
    | Call(from: From, allowed: set<int>)
    | Retry(allowed: set<int>)
    | OtherWake
    | Exit

  predicate Enabled(w: World, step: Step) {
    match step
    case Send(_) => !w.phase.Gone?
    case Call(_, _) => w.phase.Elsewhere?
    case Retry(_) => w.phase.Woken?
    case OtherWake => w.phase.Blocked?
    case Exit => w.phase.Elsewhere?
  }

  /** A process registers in its own mailbox, once. */
  function PushWaiter(waiters: seq<int>, pid: int): (seq<int>, bool) {
    if pid <= 0 then (waiters, false)
    else if pid in waiters then (waiters, true)
    else if |waiters| >= MAX_WAITERS then (waiters, false)
    else (waiters + [pid], true)
  }

  function TakenBy(pass: Pass): seq<Message> {
    pass.dropped + if pass.delivered.Some? then [pass.delivered.value] else []
  }

  function ReceiveStep(w: World, from: From, allowed: set<int>): World {
    var pass := Receive(w.queue, from, allowed);
    var w1 := w.(queue := pass.queue, taken := w.taken + TakenBy(pass), dropped := w.dropped + |pass.dropped|);
    if pass.delivered.Some? then w1.(phase := Elsewhere, delivered := w.delivered + 1)
    else if w.kernel then w1.(phase := Elsewhere)
    else
      var (waiters, ok) := PushWaiter(w.waiters, w.pid);
      if ok then w1.(waiters := waiters, phase := Blocked(from)) else w1.(phase := Elsewhere)
  }

  function SendStep(w: World, m: Message): World {
    if |m.data| > MAX_DATA || |w.queue| >= QUEUE_LENGTH then w
    else
      var woken := w.waiters != [] && w.waiters[0] == w.pid;
      w.(
        queue := w.queue + [m], accepted := w.accepted + [m],
        waiters := if w.waiters == [] then [] else w.waiters[1..],
        phase := if woken && w.phase.Blocked? then Woken(w.phase.from) else w.phase)
  }

  function Next(w: World, step: Step): World
    requires Enabled(w, step)
  {
    match step
    case Send(m) => SendStep(w, m)
    case Call(from, allowed) => ReceiveStep(w, from, allowed)
    case Retry(allowed) => ReceiveStep(w, w.phase.from, allowed)
    case OtherWake => w.(phase := Woken(w.phase.from))
    case Exit => w.(queue := [], waiters := [], phase := Gone, cleared := w.queue)
  }

  // ---------------------------------------------------------------- order and accounting

  /** The messages of one sender, in order. */
  function OfSender(q: seq<Message>, x: int): seq<Message> {
    if q == [] then [] else (if q[0].sender == x then [q[0]] else []) + OfSender(q[1..], x)
  }

  lemma {:induction false} OfSenderConcat(a: seq<Message>, b: seq<Message>, x: int)
    ensures OfSender(a + b, x) == OfSender(a, x) + OfSender(b, x)
  {
    if a == [] {
      assert a + b == b;
    } else {
      assert (a + b)[1..] == a[1..] + b;
      OfSenderConcat(a[1..], b, x);
    }
  }

  lemma OfSenderOne(m: Message, x: int)
    ensures OfSender([m], x) == if m.sender == x then [m] else []
  {
    assert [m][1..] == [];
  }

  lemma {:induction false} OfSenderNone(q: seq<Message>, x: int)
    requires forall j :: 0 <= j < |q| ==> q[j].sender != x
    ensures OfSender(q, x) == []
  {
    if q != [] {
      OfSenderNone(q[1..], x);
    }
  }

  /** Taking the first match keeps the order of every sender's messages. */
  lemma TakeFirstMatch(q: seq<Message>, from: From, i: nat, x: int)
    requires i < |q| && Matches(from, q[i]) && forall j :: 0 <= j < i ==> !Matches(from, q[j])
    ensures OfSender(q, x) == OfSender([q[i]], x) + OfSender(RemoveAt(q, i), x)
  {
    hide OfSender;
    var a, b := q[..i], q[i + 1..];
    assert q == a + ([q[i]] + b);
    OfSenderConcat(a, [q[i]] + b, x);
    OfSenderConcat([q[i]], b, x);
    OfSenderConcat(a, b, x);
    OfSenderOne(q[i], x);
    if q[i].sender == x {
      OfSenderNone(a, x);
    }
  }

  /** A whole pass takes, of each sender, the oldest messages first. */
  lemma {:induction false} ReceiveOrder(q: seq<Message>, from: From, allowed: set<int>, x: int)
    ensures var pass := Receive(q, from, allowed); OfSender(q, x) == OfSender(TakenBy(pass), x) + OfSender(pass.queue, x)
    decreases |q|
  {
    hide OfSender, Receive, RemoveAt;
    ReceiveUnfold(q, from, allowed);
    var i := FindMatch(q, from, 0);
    hide FindMatch;
    if i.Some? {
      TakeFirstMatch(q, from, i.value, x);
      var rest := RemoveAt(q, i.value);
      ReceiveOrder(rest, from, allowed, x);
      OfSenderConcat([q[i.value]], TakenBy(Receive(rest, from, allowed)), x);
    } else {
      OfSenderNone([], x);
      assert [] + OfSender(q, x) == OfSender(q, x);
    }
  }

  /** One message of a pass. */
  lemma ReceiveUnfold(q: seq<Message>, from: From, allowed: set<int>)
    ensures var i := FindMatch(q, from, 0);
      var pass := Receive(q, from, allowed);
      && (i.None? ==> pass == Pass(q, None, []) && TakenBy(pass) == [])
      && (i.Some? && q[i.value].sender in allowed ==> pass.queue == RemoveAt(q, i.value) && TakenBy(pass) == [q[i.value]])
      && (i.Some? && q[i.value].sender !in allowed ==>
        var rest := Receive(RemoveAt(q, i.value), from, allowed);
        pass.queue == rest.queue && TakenBy(pass) == [q[i.value]] + TakenBy(rest))
  {
    hide FindMatch, RemoveAt;
  }

  ghost predicate Waiting(w: World) {
    && (w.waiters == [] || w.waiters == [w.pid]) && w.pid > 0
    && (w.phase.Blocked? ==>
      w.waiters == [w.pid] && forall j :: 0 <= j < |w.queue| ==> !Matches(w.phase.from, w.queue[j]))
  }

  ghost predicate Counted(w: World) {
    && |w.queue| <= QUEUE_LENGTH
    && |w.taken| == w.delivered + w.dropped
    && |w.accepted| == w.delivered + w.dropped + |w.cleared| + |w.queue|
    && (!w.phase.Gone? ==> w.cleared == []) && (w.phase.Gone? ==> w.queue == [])
  }

  ghost predicate InOrder(w: World, x: int) {
    OfSender(w.accepted, x) == OfSender(w.taken, x) + OfSender(w.cleared + w.queue, x)
  }

  ghost predicate WorldOk(w: World) {
    Waiting(w) && Counted(w) && forall x :: InOrder(w, x)
  }

  lemma ReceiveKeeps(w: World, from: From, allowed: set<int>)
    requires WorldOk(w) && !w.phase.Gone?
    ensures WorldOk(ReceiveStep(w, from, allowed))
  {
    var pass, w' := Receive(w.queue, from, allowed), ReceiveStep(w, from, allowed);
    hide Receive, OfSender;
    forall x
      ensures InOrder(w', x)
    {
      assert InOrder(w, x);
      assert [] + w.queue == w.queue && [] + pass.queue == pass.queue;
      ReceiveOrder(w.queue, from, allowed, x);
      OfSenderConcat(w.taken, TakenBy(pass), x);
    }
  }

  lemma SendKeeps(w: World, m: Message)
    requires WorldOk(w) && !w.phase.Gone?
    ensures WorldOk(SendStep(w, m))
  {
    hide OfSender;
    var w' := SendStep(w, m);
    if |m.data| <= MAX_DATA && |w.queue| < QUEUE_LENGTH {
      forall x
        ensures InOrder(w', x)
      {
        assert InOrder(w, x);
        assert [] + w.queue == w.queue && [] + w'.queue == w.queue + [m];
        OfSenderConcat(w.accepted, [m], x);
        OfSenderConcat(w.queue, [m], x);
      }
    }
  }

  lemma ExitKeeps(w: World)
    requires WorldOk(w) && w.phase.Elsewhere?
    ensures WorldOk(Next(w, Exit))
  {
    var w' := Next(w, Exit);
    forall x
      ensures InOrder(w', x)
    {
      assert InOrder(w, x);
      assert [] + w.queue == w.queue && w'.cleared + w'.queue == w.queue;
    }
  }

  lemma NextKeeps(w: World, step: Step)
    requires WorldOk(w) && Enabled(w, step)
    ensures WorldOk(Next(w, step))
  {
    match step
    case Send(m) => SendKeeps(w, m);
    case Call(from, allowed) => ReceiveKeeps(w, from, allowed);
    case Retry(allowed) => ReceiveKeeps(w, w.phase.from, allowed);
    case OtherWake => WakeKeeps(w);
    case Exit => ExitKeeps(w);
  }

  lemma WakeKeeps(w: World)
    requires WorldOk(w) && w.phase.Blocked?
    ensures WorldOk(Next(w, OtherWake))
  {
    forall x
      ensures InOrder(Next(w, OtherWake), x)
    {
      assert InOrder(w, x);
    }
  }

  ghost predicate Run(w: World, steps: seq<Step>, w': World)
    decreases |steps|
  {
    if steps == [] then w' == w else Enabled(w, steps[0]) && Run(Next(w, steps[0]), steps[1..], w')
  }

  lemma {:induction false} RunKeeps(w: World, steps: seq<Step>, w': World)
    requires WorldOk(w) && Run(w, steps, w')
    ensures WorldOk(w')
    decreases |steps|
  {
    if steps != [] {
      hide WorldOk, Next;
      NextKeeps(w, steps[0]);
      RunKeeps(Next(w, steps[0]), steps[1..], w');
    }
  }

  /** A mailbox as it is attached to a new process. */
  function Attached(pid: int, kernel: bool): World {
    World(pid, kernel, [], [], Elsewhere, [], [], 0, 0, [])
  }

  lemma AttachedOk(pid: int, kernel: bool)
    requires pid > 0
    ensures WorldOk(Attached(pid, kernel))
  {
    var w := Attached(pid, kernel);
    forall x
      ensures InOrder(w, x)
    {
      assert w.cleared + w.queue == [];
    }
  }

  /**
   Over every run: a process blocked in a receive is registered as a waiter and its mailbox
   holds nothing it waits for; each sender's messages are taken in the order they were
   accepted; and every accepted message was delivered, dropped, cleared or is still queued.
   */
  lemma MailboxGuarantees(pid: int, kernel: bool, steps: seq<Step>, w: World, x: int)
    requires pid > 0 && Run(Attached(pid, kernel), steps, w)
    ensures w.phase.Blocked? ==> w.pid in w.waiters && forall j :: 0 <= j < |w.queue| ==> !Matches(w.phase.from, w.queue[j])
    ensures OfSender(w.taken, x) <= OfSender(w.accepted, x)
    ensures OfSender(w.accepted, x) == OfSender(w.taken, x) + OfSender(w.cleared + w.queue, x)
    ensures |w.accepted| == w.delivered + w.dropped + |w.cleared| + |w.queue|
  {
    AttachedOk(pid, kernel);
    RunKeeps(Attached(pid, kernel), steps, w);
    hide OfSender;
    assert InOrder(w, x);
  }

  /** A blocked process is woken by the next accepted message. */
  lemma SendWakes(w: World, m: Message)
    requires WorldOk(w) && w.phase.Blocked? && |m.data| <= MAX_DATA && |w.queue| < QUEUE_LENGTH
    ensures SendStep(w, m).phase == Woken(w.phase.from)
  {
  }
}
