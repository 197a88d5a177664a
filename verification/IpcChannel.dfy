/**
 Channels: membership is kept by the channel and by the process, and the two always agree.
 */
module IpcChannel {
  import opened Common

  const MAX_CHANNELS: nat := 32
  const MAX_SUBSCRIBERS: nat := 8
  const MAX_JOINED: nat := 8

  /** The list without the first `x`. */
  function Without(q: seq<int>, x: int): seq<int> {
    if q == [] then [] else if q[0] == x then q[1..] else [q[0]] + Without(q[1..], x)
  }

  lemma {:induction false} WithoutFacts(q: seq<int>, x: int)
    requires Distinct(q)
    ensures Distinct(Without(q, x)) && (forall y :: y in Without(q, x) <==> y in q && y != x) && |Without(q, x)| <= |q|
  {
    if q != [] {
      var rest := q[1..];
      assert Distinct(rest);
      WithoutFacts(rest, x);
      assert forall y :: y in q <==> y == q[0] || y in rest;
      assert q[0] !in rest;
    }
  }

  lemma {:induction false} WithoutLast(q: seq<int>, x: int)
    requires x !in q
    ensures Without(q + [x], x) == q
  {
    if q == [] {
      assert q + [x] == [x] && [x][1..] == [];
    } else {
      assert (q + [x])[1..] == q[1..] + [x];
      WithoutLast(q[1..], x);
    }
  }

  lemma {:induction false} WithoutAbsent(q: seq<int>, x: int)
    requires x !in q
    ensures Without(q, x) == q
  {
    if q != [] {
      WithoutAbsent(q[1..], x);
    }
  }

  /** The subscribers of every channel, and the channels of every live process. */
  datatype State = State(subscribers: map<int, seq<int>>, joined: map<int, seq<int>>, nextId: int)

  /** A channel knows a process exactly when the process knows the channel. */
  ghost predicate Agree(s: State) {
    && s.nextId > 0
    && (forall c :: c in s.subscribers ==> 0 < c < s.nextId && Distinct(s.subscribers[c]) && |s.subscribers[c]| <= MAX_SUBSCRIBERS)
    && (forall p :: p in s.joined ==> Distinct(s.joined[p]) && |s.joined[p]| <= MAX_JOINED)
    && (forall c, p :: c in s.subscribers && p in s.subscribers[c] ==> p in s.joined && c in s.joined[p])
    && (forall c, p :: p in s.joined && c in s.joined[p] ==> c in s.subscribers && p in s.subscribers[c])
  }

  /** A new channel, unless the table is full. */
  function Create(s: State): (State, bool) {
    if |s.subscribers.Keys| >= MAX_CHANNELS then (s, false)
    else (s.(subscribers := s.subscribers[s.nextId := []], nextId := s.nextId + 1), true)
  }

  function Begin(s: State, p: int): State {
    s.(joined := s.joined[p := []])
  }

  /** The process notes the channel first; if the channel is full the note is taken back. */
  function Join(s: State, p: int, c: int): (State, bool)
    requires p in s.joined
  {
    if c !in s.subscribers then (s, false)
    else if c !in s.joined[p] && |s.joined[p]| >= MAX_JOINED then (s, false)
    else
      var noted := if c in s.joined[p] then s else s.(joined := s.joined[p := s.joined[p] + [c]]);
      if p in s.subscribers[c] then (noted, true)
      else if |s.subscribers[c]| >= MAX_SUBSCRIBERS then
        (noted.(joined := noted.joined[p := Without(noted.joined[p], c)]), false)
      else (noted.(subscribers := noted.subscribers[c := noted.subscribers[c] + [p]]), true)
  }

  function Leave(s: State, p: int, c: int): (State, bool)
    requires p in s.joined
  {
    if c !in s.subscribers then (s, false)
    else
      (s.(joined := s.joined[p := Without(s.joined[p], c)], subscribers := s.subscribers[c := Without(s.subscribers[c], p)]), true)
  }

  /** Takes `p` off the channels of the list `todo`. */
  function Unsubscribe(subs: map<int, seq<int>>, p: int, todo: seq<int>): map<int, seq<int>> {
    if todo == [] then subs
    else if todo[0] in subs then Unsubscribe(subs[todo[0] := Without(subs[todo[0]], p)], p, todo[1..])
    else Unsubscribe(subs, p, todo[1..])
  }

  /** A process exits: it leaves every channel it joined. */
  function Exit(s: State, p: int): State
    requires p in s.joined
  {
    s.(subscribers := Unsubscribe(s.subscribers, p, s.joined[p]), joined := s.joined - {p})
  }

  lemma JoinFullAgree(s: State, p: int, c: int)
    requires Agree(s) && p in s.joined && c in s.subscribers && p !in s.subscribers[c] && |s.subscribers[c]| >= MAX_SUBSCRIBERS
    ensures Join(s, p, c) == (s, false)
  {
    assert c !in s.joined[p];
    WithoutLast(s.joined[p], c);
    if |s.joined[p]| < MAX_JOINED {
      assert s.joined[p := s.joined[p] + [c]][p := s.joined[p]] == s.joined;
    }
  }

  lemma AppendDistinct(q: seq<int>, x: int)
    requires Distinct(q) && x !in q
    ensures Distinct(q + [x])
  {
  }

  /** Joining succeeds on both sides or changes nothing. */
  lemma JoinKeeps(s: State, p: int, c: int)
    requires Agree(s) && p in s.joined
    ensures Agree(Join(s, p, c).0)
    ensures !Join(s, p, c).1 ==> Join(s, p, c).0 == s
    ensures Join(s, p, c).1 ==> c in s.subscribers && p in Join(s, p, c).0.subscribers[c] && c in Join(s, p, c).0.joined[p]
  {
    if c in s.subscribers {
      if p in s.subscribers[c] {
        assert c in s.joined[p];
      } else if |s.subscribers[c]| >= MAX_SUBSCRIBERS {
        JoinFullAgree(s, p, c);
      } else if |s.joined[p]| < MAX_JOINED {
        assert c !in s.joined[p];
        hide Without;
        AppendDistinct(s.joined[p], c);
        AppendDistinct(s.subscribers[c], p);
        JoinedAgree(s, p, c);
      }
    }
  }

  lemma JoinedAgree(s: State, p: int, c: int)
    requires Agree(s) && p in s.joined && c in s.subscribers && Distinct(s.joined[p] + [c]) && Distinct(s.subscribers[c] + [p])
    requires |s.joined[p]| < MAX_JOINED && |s.subscribers[c]| < MAX_SUBSCRIBERS
    ensures Agree(s.(joined := s.joined[p := s.joined[p] + [c]], subscribers := s.subscribers[c := s.subscribers[c] + [p]]))
  {
    hide Distinct;
  }

  lemma LeaveKeeps(s: State, p: int, c: int)
    requires Agree(s) && p in s.joined
    ensures Agree(Leave(s, p, c).0)
    ensures Leave(s, p, c).1 ==> c !in Leave(s, p, c).0.joined[p] && c in s.subscribers && p !in Leave(s, p, c).0.subscribers[c]
  {
    if c in s.subscribers {
      WithoutFacts(s.joined[p], c);
      WithoutFacts(s.subscribers[c], p);
      hide Without, Distinct;
    }
  }

  /** Leaving what was just joined restores both lists. */
  lemma JoinThenLeave(s: State, p: int, c: int)
    requires Agree(s) && p in s.joined && c in s.subscribers && p !in s.subscribers[c] && Join(s, p, c).1
    ensures Leave(Join(s, p, c).0, p, c) == (s, true)
  {
    assert c !in s.joined[p];
    WithoutLast(s.joined[p], c);
    WithoutLast(s.subscribers[c], p);
    hide Without;
    var s1 := Join(s, p, c).0;
    assert s1.joined[p := s.joined[p]] == s.joined && s1.subscribers[c := s.subscribers[c]] == s.subscribers;
  }

  lemma {:induction false} UnsubscribeFacts(subs: map<int, seq<int>>, p: int, todo: seq<int>)
    requires forall c :: c in subs ==> Distinct(subs[c])
    ensures var r := Unsubscribe(subs, p, todo);
      && r.Keys == subs.Keys
      && (forall c :: c in subs ==> Distinct(r[c]) && |r[c]| <= |subs[c]|)
      && (forall c, q :: c in subs ==> (q in r[c] <==> q in subs[c] && (q != p || c !in todo)))
    decreases |todo|
  {
    if todo != [] {
      var c0 := todo[0];
      assert forall c :: c in todo <==> c == c0 || c in todo[1..];
      if c0 in subs {
        WithoutFacts(subs[c0], p);
        hide Without, Distinct;
        UnsubscribeFacts(subs[c0 := Without(subs[c0], p)], p, todo[1..]);
      } else {
        UnsubscribeFacts(subs, p, todo[1..]);
      }
    }
  }

  /** An exiting process is a member of nothing, and nobody else's membership changes. */
  lemma ExitKeeps(s: State, p: int)
    requires Agree(s) && p in s.joined
    ensures Agree(Exit(s, p)) && p !in Exit(s, p).joined && Exit(s, p).subscribers.Keys == s.subscribers.Keys
    ensures forall c, q :: c in s.subscribers ==> (q in Exit(s, p).subscribers[c] <==> q in s.subscribers[c] && q != p)
  {
    UnsubscribeFacts(s.subscribers, p, s.joined[p]);
    hide Unsubscribe, Distinct;
  }

  lemma CreateKeeps(s: State)
    requires Agree(s)
    ensures Agree(Create(s).0) && s.nextId !in s.subscribers
  {
  }

  lemma BeginKeeps(s: State, p: int)
    requires Agree(s) && p !in s.joined
    ensures Agree(Begin(s, p))
  {
  }

  // ---------------------------------------------------------------- runs

  datatype Step = NewChannel | NewProcess(p: int) | Enter(p: int, c: int) | Depart(p: int, c: int) | End(p: int)

  predicate Enabled(s: State, step: Step) {
    match step
    case NewChannel => true
    case NewProcess(p) => p !in s.joined
    case Enter(p, c) => p in s.joined
    case Depart(p, c) => p in s.joined
    case End(p) => p in s.joined
  }

  function Next(s: State, step: Step): State
    requires Enabled(s, step)
  {
    match step
    case NewChannel => Create(s).0
    case NewProcess(p) => Begin(s, p)
    case Enter(p, c) => Join(s, p, c).0
    case Depart(p, c) => Leave(s, p, c).0
    case End(p) => Exit(s, p)
  }

  ghost predicate Run(s: State, steps: seq<Step>, t: State)
    decreases |steps|
  {
    if steps == [] then t == s else Enabled(s, steps[0]) && Run(Next(s, steps[0]), steps[1..], t)
  }

  /** Over every run, channels and processes agree on who is a member of what. */
  lemma {:induction false} MembershipAgrees(s: State, steps: seq<Step>, t: State)
    requires Agree(s) && Run(s, steps, t)
    ensures Agree(t)
    decreases |steps|
  {
    if steps != [] {
      hide Agree, Next;
      NextKeeps(s, steps[0]);
      MembershipAgrees(Next(s, steps[0]), steps[1..], t);
    }
  }

  /** No step makes more channels than the table holds. */
  lemma NextBounded(s: State, step: Step)
    requires Agree(s) && Enabled(s, step) && |s.subscribers.Keys| <= MAX_CHANNELS
    ensures |Next(s, step).subscribers.Keys| <= MAX_CHANNELS
  {
    if step.NewChannel? {
      assert Create(s).1 ==> Create(s).0.subscribers.Keys == s.subscribers.Keys + {s.nextId};
    } else if step.End? {
      ExitKeeps(s, step.p);
      hide Exit;
    } else {
      hide Without;
      assert Next(s, step).subscribers.Keys == s.subscribers.Keys;
    }
  }

  lemma NextKeeps(s: State, step: Step)
    requires Agree(s) && Enabled(s, step)
    ensures Agree(Next(s, step))
  {
    match step {
      case NewChannel => CreateKeeps(s);
      case NewProcess(p) => BeginKeeps(s, p);
      case Enter(p, c) => JoinKeeps(s, p, c);
      case Depart(p, c) => LeaveKeeps(s, p, c);
      case End(p) => ExitKeeps(s, p);
    }
    hide Agree, Create, Begin, Join, Leave, Exit;
  }

  lemma {:induction false} RunBounded(s: State, steps: seq<Step>, t: State)
    requires Agree(s) && Run(s, steps, t) && |s.subscribers.Keys| <= MAX_CHANNELS
    ensures |t.subscribers.Keys| <= MAX_CHANNELS
    decreases |steps|
  {
    if steps != [] {
      hide Agree, Next;
      NextKeeps(s, steps[0]);
      NextBounded(s, steps[0]);
      RunBounded(Next(s, steps[0]), steps[1..], t);
    }
  }

  function Initial(): State {
    State(map[], map[], 1)
  }

  /** So they do in every state that a run reaches from the empty tables. */
  lemma MembershipFromStart(steps: seq<Step>, t: State)
    requires Run(Initial(), steps, t)
    ensures forall c, p :: c in t.subscribers && p in t.joined ==> (p in t.subscribers[c] <==> c in t.joined[p])
    ensures forall c, p :: c in t.subscribers && p in t.subscribers[c] ==> p in t.joined
    ensures |t.subscribers.Keys| <= MAX_CHANNELS
  {
    RunBounded(Initial(), steps, t);
    MembershipAgrees(Initial(), steps, t);
  }
}
