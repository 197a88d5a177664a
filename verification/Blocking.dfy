/**
 All waiting in one system.  A process waits in at most one place: asleep, or blocked in a
 receive on a channel, in its mailbox, in a lock call or in a semaphore wait.  Waking acts on
 the process, wherever it waits; the four routines that wake take the process off a list of
 waiters first.  So the lists must not name anybody who is not blocked there.
 */
module Blocking {
  import Common
  import IpcMailbox
  import IpcTraffic
  import SyncModel

  const NOBODY: int := -1
  const MAX_LOCKS: nat := 32

  /** What a process waits for; the mailbox is its own. */
  datatype Wait = OnChannel(c: int) | OnMail(from: IpcMailbox.From) | OnMutex(i: nat) | OnSemaphore(i: nat)

  /** Where a live process is; `listed` tells whether its last pass found it on the list of waiters or put it there. */
  datatype Place = Free | Asleep | Blocked(at: Wait, listed: bool) | Woken(at: Wait)

  predicate At(x: Place, a: Wait) { (x.Blocked? || x.Woken?) && x.at == a }

  /** The live processes, the next process number, the channels, the mailboxes, the mutexes and the semaphores. */
  datatype Kernel = Kernel(
    places: map<int, Place>, nextPid: int, traffic: IpcTraffic.World, boxes: map<int, IpcMailbox.World>,
    mutexes: seq<SyncModel.World>, semaphores: seq<SyncModel.SemWorld>)

  // ---------------------------------------------------------------- the parts as their protocols see them

  function ChannelPhase(x: Place): IpcTraffic.Phase {
    if x.Blocked? && x.at.OnChannel? then IpcTraffic.Waiting(x.at.c)
    else if x.Woken? && x.at.OnChannel? then IpcTraffic.Woken(x.at.c)
    else IpcTraffic.Free
  }

  function MailPhase(x: Place): IpcMailbox.Phase {
    if x.Blocked? && x.at.OnMail? then IpcMailbox.Blocked(x.at.from)
    else if x.Woken? && x.at.OnMail? then IpcMailbox.Woken(x.at.from)
    else IpcMailbox.Elsewhere
  }

  function Phases(places: map<int, Place>): map<int, IpcTraffic.Phase> {
    map p | p in places :: ChannelPhase(places[p])
  }

  /** The channels with every process where it is. */
  function Traffic(k: Kernel): IpcTraffic.World {
    k.traffic.(phases := Phases(k.places))
  }

  function Box(k: Kernel, p: int): IpcMailbox.World
    requires p in k.boxes && p in k.places
  {
    k.boxes[p].(phase := MailPhase(k.places[p]))
  }

  // ---------------------------------------------------------------- the invariant

  ghost predicate PlaceOk(k: Kernel, p: int, x: Place) {
    && 0 < p < k.nextPid
    && (x.Blocked? || x.Woken? ==> (x.at.OnMutex? ==> x.at.i < |k.mutexes|) && (x.at.OnSemaphore? ==> x.at.i < |k.semaphores|))
    && (x.Blocked? && (x.at.OnChannel? || x.at.OnMail?) ==> x.listed)
  }

  ghost predicate PlacesOk(k: Kernel) {
    k.nextPid > 0 && forall p :: p in k.places ==> PlaceOk(k, p, k.places[p])
  }

  ghost predicate TrafficOk(w: IpcTraffic.World) {
    IpcTraffic.WorldOk(w) && IpcTraffic.Lively(w)
  }

  /** Only a process blocked there is on the waiter list of its mailbox. */
  ghost predicate BoxOk(b: IpcMailbox.World, p: int, x: Place) {
    && IpcMailbox.WorldOk(b.(phase := MailPhase(x))) && b.pid == p
    && (b.waiters != [] ==> x.Blocked? && x.at.OnMail?)
  }

  ghost predicate BoxesOk(k: Kernel) {
    k.boxes.Keys == k.places.Keys && forall p :: p in k.boxes && p in k.places ==> BoxOk(k.boxes[p], p, k.places[p])
  }

  /** Exactly the processes blocked and listed there are the waiters, and who was woken there is the owner. */
  ghost predicate MutexOk(w: SyncModel.World, i: nat, places: map<int, Place>, nextPid: int) {
    && SyncModel.WorldOk(w)
    && (forall p :: p in w.m.waiters <==> p in places && places[p] == Blocked(OnMutex(i), true))
    && (forall p :: p in w.pending <==> p in places && At(places[p], OnMutex(i)))
    && (forall p :: p in places && places[p] == Woken(OnMutex(i)) ==> w.m.owner == p)
    && (forall p :: p in w.gone ==> p !in places && p < nextPid)
    && (w.m.owner != NOBODY ==> w.m.owner in places || w.m.owner in w.gone)
  }

  ghost predicate MutexesOk(k: Kernel) {
    forall i :: 0 <= i < |k.mutexes| ==> MutexOk(k.mutexes[i], i, k.places, k.nextPid)
  }

  ghost predicate SemaphoreOk(w: SyncModel.SemWorld, i: nat, places: map<int, Place>) {
    && SyncModel.SemOk(w) && w.s.used
    && (forall p :: p in w.s.waiters <==> p in places && places[p] == Blocked(OnSemaphore(i), true))
  }

  ghost predicate SemaphoresOk(k: Kernel) {
    forall i :: 0 <= i < |k.semaphores| ==> SemaphoreOk(k.semaphores[i], i, k.places)
  }

  ghost predicate Ok(k: Kernel) {
    PlacesOk(k) && TrafficOk(Traffic(k)) && BoxesOk(k) && MutexesOk(k) && SemaphoresOk(k)
  }

  // ---------------------------------------------------------------- the steps

  datatype Step =
    | Create(kernel: bool)
    | Exit(p: int)
    | Sleep(p: int)
    | TimeUp(p: int)
    | NewChannel(kernel: bool)
    | Join(p: int, c: int)
    | Leave(p: int, c: int)
    | Send(c: int, m: IpcTraffic.Message)
    | Receive(p: int, c: int, nonblock: bool)
    | Mail(to: int, letter: IpcMailbox.Message)
    | Fetch(p: int, from: IpcMailbox.From, allowed: set<int>)
    | NewMutex
    | Lock(p: int, i: nat)
    | Unlock(p: int, i: nat)
    | NewSemaphore(initial: nat)
    | Down(p: int, i: nat)
    | Up(i: nat)
    | Resume(p: int, allowed: set<int>)

  predicate IsFree(k: Kernel, p: int) { p in k.places && k.places[p].Free? }

  /** A process acts only when it waits nowhere; one that was woken makes its next pass. */
  predicate Enabled(k: Kernel, step: Step) {
    match step
    case Create(_) => true
    case Exit(p) => IsFree(k, p)
    case Sleep(p) => IsFree(k, p)
    case TimeUp(p) => p in k.places && k.places[p].Asleep?
    case NewChannel(_) => true
    case Join(p, _) => IsFree(k, p)
    case Leave(p, _) => IsFree(k, p)
    case Send(_, m) => m.sender == 0 || IsFree(k, m.sender)
    case Receive(p, _, _) => IsFree(k, p)
    case Mail(_, letter) => letter.sender == 0 || IsFree(k, letter.sender)
    case Fetch(p, _, _) => IsFree(k, p)
    case NewMutex => true
    case Lock(p, _) => IsFree(k, p)
    case Unlock(p, _) => IsFree(k, p)
    case NewSemaphore(_) => true
    case Down(p, _) => IsFree(k, p)
    case Up(_) => true
    case Resume(p, _) => p in k.places && k.places[p].Woken?
  }

  /** Waking a process acts on it wherever it waits. */
  function Wake(places: map<int, Place>, p: int): map<int, Place> {
    if p !in places then places
    else if places[p].Blocked? then places[p := Woken(places[p].at)]
    else if places[p].Asleep? then places[p := Free]
    else places
  }

  function ChannelPass(k: Kernel, p: int, c: int, nonblock: bool, e: IpcTraffic.Event): Kernel
    requires IpcTraffic.WorldOk(Traffic(k)) && IpcTraffic.Possible(Traffic(k), e) && c in k.traffic.t.queues && c in k.traffic.t.waiters
  {
    var r := IpcTraffic.Pass(k.traffic.t, p, c, nonblock).1;
    k.(traffic := IpcTraffic.Advance(Traffic(k), e),
      places := k.places[p := if r.Blocked? then Blocked(OnChannel(c), true) else Free])
  }

  function MailPass(k: Kernel, p: int, from: IpcMailbox.From, allowed: set<int>): Kernel
    requires p in k.boxes && p in k.places
  {
    var b := IpcMailbox.ReceiveStep(Box(k, p), from, allowed);
    k.(boxes := k.boxes[p := b], places := k.places[p := if b.phase.Blocked? then Blocked(OnMail(from), true) else Free])
  }

  function LockPass(k: Kernel, p: int, i: nat): Kernel
    requires i < |k.mutexes|
  {
    var (m, r) := SyncModel.TryLock(k.mutexes[i].m, p);
    k.(mutexes := k.mutexes[i := SyncModel.Next(k.mutexes[i], SyncModel.Lock(p))],
      places := k.places[p := if r.Blocked? then Blocked(OnMutex(i), p in m.waiters) else Free])
  }

  function DownPass(k: Kernel, p: int, i: nat): Kernel
    requires i < |k.semaphores|
  {
    var (s, r) := SyncModel.TryWait(k.semaphores[i].s, p);
    k.(semaphores := k.semaphores[i := SyncModel.SemNext(k.semaphores[i], SyncModel.Wait(p))],
      places := k.places[p := if r.Blocked? then Blocked(OnSemaphore(i), p in s.waiters) else Free])
  }

  /** Whom a delivery to this mailbox wakes. */
  function Roused(b: IpcMailbox.World, letter: IpcMailbox.Message): int {
    if |letter.data| > IpcMailbox.MAX_DATA || |b.queue| >= IpcMailbox.QUEUE_LENGTH || b.waiters == [] then NOBODY else b.waiters[0]
  }

  function Vanished(mutexes: seq<SyncModel.World>, p: int): seq<SyncModel.World> {
    seq(|mutexes|, i requires 0 <= i < |mutexes| => SyncModel.Next(mutexes[i], SyncModel.Vanish(p)))
  }

  function Begin(k: Kernel, kernel: bool): Kernel
    requires Ok(k)
  {
    var p := k.nextPid;
    k.(nextPid := p + 1, places := k.places[p := Free], boxes := k.boxes[p := IpcMailbox.Attached(p, kernel)],
      traffic := IpcTraffic.Advance(Traffic(k), IpcTraffic.Begins(p)))
  }

  /** Exit clears the mailbox and the channels; the mutexes are not touched, only nobody will give this one's back. */
  function End(k: Kernel, p: int): Kernel
    requires Ok(k) && IsFree(k, p)
  {
    k.(places := k.places - {p}, boxes := k.boxes - {p}, mutexes := Vanished(k.mutexes, p),
      traffic := IpcTraffic.Advance(Traffic(k), IpcTraffic.Ends(p)))
  }

  function SendStep(k: Kernel, c: int, m: IpcTraffic.Message): Kernel
    requires Ok(k) && Enabled(k, Send(c, m))
  {
    k.(traffic := IpcTraffic.Advance(Traffic(k), IpcTraffic.Sends(c, m)), places := Wake(k.places, IpcTraffic.Send(k.traffic.t, c, m).2))
  }

  function MailStep(k: Kernel, to: int, letter: IpcMailbox.Message): Kernel
    requires Ok(k)
  {
    if to !in k.boxes then k
    else
      k.(boxes := k.boxes[to := IpcMailbox.SendStep(Box(k, to), letter)], places := Wake(k.places, Roused(k.boxes[to], letter)))
  }

  function UnlockStep(k: Kernel, p: int, i: nat): Kernel
    requires i < |k.mutexes|
  {
    k.(mutexes := k.mutexes[i := SyncModel.Next(k.mutexes[i], SyncModel.Release(p))],
      places := Wake(k.places, SyncModel.Unlock(k.mutexes[i].m, p).2))
  }

  function UpStep(k: Kernel, i: nat): Kernel
    requires i < |k.semaphores|
  {
    k.(semaphores := k.semaphores[i := SyncModel.SemNext(k.semaphores[i], SyncModel.Give)],
      places := Wake(k.places, SyncModel.Post(k.semaphores[i].s).2))
  }

  function ReceiveStep(k: Kernel, p: int, c: int, nonblock: bool): Kernel
    requires Ok(k) && IsFree(k, p)
  {
    if c !in k.traffic.t.queues || c !in k.traffic.t.waiters || !IpcTraffic.MayUse(k.traffic.t, p, c) then k
    else ChannelPass(k, p, c, nonblock, IpcTraffic.Calls(p, c, nonblock))
  }

  /** The next pass of the loop in which the process was woken. */
  function ResumeStep(k: Kernel, p: int, allowed: set<int>): Kernel
    requires Ok(k) && p in k.places && k.places[p].Woken?
  {
    match k.places[p].at
    case OnChannel(c) => WokenChannel(k, p); ChannelPass(k, p, c, false, IpcTraffic.Retries(p))
    case OnMail(from) => MailPass(k, p, from, allowed)
    case OnMutex(i) => LockPass(k, p, i)
    case OnSemaphore(i) => DownPass(k, p, i)
  }

  lemma WokenChannel(k: Kernel, p: int)
    requires Ok(k) && p in k.places && k.places[p].Woken? && k.places[p].at.OnChannel?
    ensures var c := k.places[p].at.c; c in k.traffic.t.queues && c in k.traffic.t.waiters
  {
    hide IpcTraffic.Lively, BoxesOk, MutexesOk, SemaphoresOk;
    assert IpcTraffic.PhaseOk(Traffic(k), p);
  }

  function MembershipStep(k: Kernel, e: IpcTraffic.Event): Kernel
    requires Ok(k) && IpcTraffic.Possible(Traffic(k), e)
  {
    k.(traffic := IpcTraffic.Advance(Traffic(k), e))
  }

  function JoinStep(k: Kernel, p: int, c: int): Kernel
    requires Ok(k) && IsFree(k, p)
  {
    MembershipStep(k, IpcTraffic.Joins(p, c))
  }

  function LeaveStep(k: Kernel, p: int, c: int): Kernel
    requires Ok(k) && IsFree(k, p)
  {
    MembershipStep(k, IpcTraffic.Leaves(p, c))
  }

  function Next(k: Kernel, step: Step): Kernel
    requires Ok(k) && Enabled(k, step)
  {
    match step
    case Create(kernel) => Begin(k, kernel)
    case Exit(p) => End(k, p)
    case Sleep(p) => k.(places := k.places[p := Asleep])
    case TimeUp(p) => k.(places := Wake(k.places, p))
    case NewChannel(kernel) => MembershipStep(k, IpcTraffic.OpenChannel(kernel))
    case Join(p, c) => JoinStep(k, p, c)
    case Leave(p, c) => LeaveStep(k, p, c)
    case Send(c, m) => SendStep(k, c, m)
    case Receive(p, c, nonblock) => ReceiveStep(k, p, c, nonblock)
    case Mail(to, letter) => MailStep(k, to, letter)
    case Fetch(p, from, allowed) => MailPass(k, p, from, allowed)
    case NewMutex => if |k.mutexes| < MAX_LOCKS then k.(mutexes := k.mutexes + [SyncModel.Created()]) else k
    case Lock(p, i) => if i < |k.mutexes| then LockPass(k, p, i) else k
    case Unlock(p, i) => if i < |k.mutexes| then UnlockStep(k, p, i) else k
    case NewSemaphore(initial) =>
      if |k.semaphores| < MAX_LOCKS then k.(semaphores := k.semaphores + [SyncModel.FreshSemaphore(initial)]) else k
    case Down(p, i) => if i < |k.semaphores| then DownPass(k, p, i) else k
    case Up(i) => if i < |k.semaphores| then UpStep(k, i) else k
    case Resume(p, allowed) => ResumeStep(k, p, allowed)
  }

  /** The steps of processes, of sleeping and of making mutexes and semaphores. */
  predicate Plain(step: Step) {
    step.Create? || step.Exit? || step.Sleep? || step.TimeUp? || step.NewMutex? || step.NewSemaphore?
  }

  /** The steps that make a pass of a blocking loop. */
  predicate Passing(step: Step) {
    step.Receive? || step.Fetch? || step.Lock? || step.Down? || step.Resume?
  }

  lemma PlainIs(k: Kernel, step: Step)
    requires Ok(k) && Enabled(k, step) && Plain(step)
    ensures step.Create? ==> Next(k, step) == Begin(k, step.kernel)
    ensures step.Exit? ==> IsFree(k, step.p) && Next(k, step) == End(k, step.p)
    ensures step.Sleep? ==> step.p in k.places && k.places[step.p].Free? && Next(k, step) == k.(places := k.places[step.p := Asleep])
    ensures step.TimeUp? ==> step.p in k.places && k.places[step.p].Asleep? && Next(k, step) == k.(places := k.places[step.p := Free])
    ensures step.NewMutex? ==> Next(k, step) == k || Next(k, step) == k.(mutexes := k.mutexes + [SyncModel.Created()])
    ensures step.NewSemaphore? ==> Next(k, step) == k || Next(k, step) == k.(semaphores := k.semaphores + [SyncModel.FreshSemaphore(step.initial)])
  {
    hide Ok, Begin, End;
  }

  lemma PassingIs(k: Kernel, step: Step)
    requires Ok(k) && Enabled(k, step) && Passing(step)
    ensures step.p in k.places && step.p in k.boxes && (step.Resume? ==> k.places[step.p].Woken?) && (!step.Resume? ==> IsFree(k, step.p))
    ensures step.Receive? ==> Next(k, step) == ReceiveStep(k, step.p, step.c, step.nonblock)
    ensures step.Fetch? ==> Next(k, step) == MailPass(k, step.p, step.from, step.allowed)
    ensures step.Lock? ==> Next(k, step) == if step.i < |k.mutexes| then LockPass(k, step.p, step.i) else k
    ensures step.Down? ==> Next(k, step) == if step.i < |k.semaphores| then DownPass(k, step.p, step.i) else k
    ensures step.Resume? ==> Next(k, step) == ResumeStep(k, step.p, step.allowed)
  {
    assert step.p in k.places;
    HasBox(k, step.p);
    hide Ok, ReceiveStep, MailPass, LockPass, DownPass, ResumeStep;
  }

  lemma HasBox(k: Kernel, p: int)
    requires Ok(k) && p in k.places
    ensures p in k.boxes && PlaceOk(k, p, k.places[p])
  {
    hide TrafficOk, MutexesOk, SemaphoresOk;
  }

  lemma OtherIs(k: Kernel, step: Step)
    requires Ok(k) && Enabled(k, step) && !Plain(step) && !Passing(step)
    ensures step.NewChannel? ==> Next(k, step) == k.(traffic := IpcTraffic.Advance(Traffic(k), IpcTraffic.OpenChannel(step.kernel)))
    ensures step.Join? ==>
      IpcTraffic.Possible(Traffic(k), IpcTraffic.Joins(step.p, step.c)) && Next(k, step) == k.(traffic := IpcTraffic.Advance(Traffic(k), IpcTraffic.Joins(step.p, step.c)))
    ensures step.Leave? ==>
      IpcTraffic.Possible(Traffic(k), IpcTraffic.Leaves(step.p, step.c)) && Next(k, step) == k.(traffic := IpcTraffic.Advance(Traffic(k), IpcTraffic.Leaves(step.p, step.c)))
    ensures step.Send? ==> Next(k, step) == SendStep(k, step.c, step.m)
    ensures step.Mail? ==> Next(k, step) == MailStep(k, step.to, step.letter)
    ensures step.Unlock? ==> IsFree(k, step.p) && Next(k, step) == if step.i < |k.mutexes| then UnlockStep(k, step.p, step.i) else k
    ensures step.Up? ==> Next(k, step) == if step.i < |k.semaphores| then UpStep(k, step.i) else k
  {
    hide IpcTraffic.Advance, IpcTraffic.Lively, BoxesOk, MutexesOk, SemaphoresOk, SendStep, MailStep, UnlockStep, UpStep;
  }

  // ---------------------------------------------------------------- moving one process

  lemma PhasesMoved(places: map<int, Place>, p: int, x: Place)
    requires p in places
    ensures Phases(places[p := x]) == Phases(places)[p := ChannelPhase(x)]
    ensures ChannelPhase(x) == ChannelPhase(places[p]) ==> Phases(places[p := x]) == Phases(places)
  {
  }

  lemma PhasesWoken(places: map<int, Place>, p: int)
    ensures Phases(Wake(places, p)) == IpcTraffic.Wake(Phases(places), p)
  {
  }

  /** A channel event other than a wake-up from elsewhere keeps the channels in order. */
  lemma TrafficAdvances(w: IpcTraffic.World, e: IpcTraffic.Event)
    requires TrafficOk(w) && IpcTraffic.Possible(w, e) && !e.OtherWake?
    ensures TrafficOk(IpcTraffic.Advance(w, e))
  {
    hide *;
    TrafficParts(w);
    IpcTraffic.AdvanceKeeps(w, e);
    var u := IpcTraffic.Advance(w, e);
    forall d | d in u.t.waiters && d in u.t.queues
      ensures IpcTraffic.LivelyAt(u, d)
    {
      IpcTraffic.AdvanceLively(w, e, d);
    }
    IpcTraffic.LivelyIs(u);
    TrafficParts(u);
  }

  lemma TrafficParts(w: IpcTraffic.World)
    ensures TrafficOk(w) <==> IpcTraffic.WorldOk(w) && IpcTraffic.Lively(w)
  {
  }

  lemma MutexMoved(w: SyncModel.World, i: nat, places: map<int, Place>, nextPid: int, p: int, x: Place)
    requires MutexOk(w, i, places, nextPid) && p in places && !At(places[p], OnMutex(i)) && !At(x, OnMutex(i))
    ensures MutexOk(w, i, places[p := x], nextPid)
  {
    hide SyncModel.WorldOk;
  }

  lemma SemaphoreMoved(w: SyncModel.SemWorld, i: nat, places: map<int, Place>, p: int, x: Place)
    requires SemaphoreOk(w, i, places) && p in places && !At(places[p], OnSemaphore(i)) && !At(x, OnSemaphore(i))
    ensures SemaphoreOk(w, i, places[p := x])
  {
    hide SyncModel.SemOk;
  }

  /** A move that has nothing to do with a mutex, with one mutex possibly excepted. */
  lemma MutexesMoved(k: Kernel, k': Kernel, p: int, x: Place, but: int)
    requires MutexesOk(k) && p in k.places && k'.places == k.places[p := x] && k'.nextPid == k.nextPid && |k'.mutexes| == |k.mutexes|
    requires forall i :: 0 <= i < |k.mutexes| && i != but ==> k'.mutexes[i] == k.mutexes[i] && !At(k.places[p], OnMutex(i)) && !At(x, OnMutex(i))
    requires 0 <= but < |k.mutexes| ==> MutexOk(k'.mutexes[but], but, k'.places, k'.nextPid)
    ensures MutexesOk(k')
  {
    hide MutexOk, At;
    forall i | 0 <= i < |k'.mutexes|
      ensures MutexOk(k'.mutexes[i], i, k'.places, k'.nextPid)
    {
      if i != but {
        MutexMoved(k.mutexes[i], i, k.places, k.nextPid, p, x);
      }
    }
  }

  lemma SemaphoresMoved(k: Kernel, k': Kernel, p: int, x: Place, but: int)
    requires SemaphoresOk(k) && p in k.places && k'.places == k.places[p := x] && |k'.semaphores| == |k.semaphores|
    requires forall i :: 0 <= i < |k.semaphores| && i != but ==>
      k'.semaphores[i] == k.semaphores[i] && !At(k.places[p], OnSemaphore(i)) && !At(x, OnSemaphore(i))
    requires 0 <= but < |k.semaphores| ==> SemaphoreOk(k'.semaphores[but], but, k'.places)
    ensures SemaphoresOk(k')
  {
    hide SemaphoreOk, At;
    forall i | 0 <= i < |k'.semaphores|
      ensures SemaphoreOk(k'.semaphores[i], i, k'.places)
    {
      if i != but {
        SemaphoreMoved(k.semaphores[i], i, k.places, p, x);
      }
    }
  }

  lemma BoxesMoved(k: Kernel, k': Kernel, p: int, x: Place)
    requires BoxesOk(k) && p in k.places && k'.places == k.places[p := x] && k'.boxes.Keys == k.boxes.Keys
    requires forall q :: q in k.boxes && q != p ==> k'.boxes[q] == k.boxes[q]
    requires p in k'.boxes ==> BoxOk(k'.boxes[p], p, x)
    ensures BoxesOk(k')
  {
    hide BoxOk;
  }

  lemma BoxStays(b: IpcMailbox.World, p: int, x: Place, y: Place)
    requires BoxOk(b, p, x) && MailPhase(x) == MailPhase(y)
    ensures BoxOk(b, p, y)
  {
  }

  lemma OkParts(k: Kernel)
    ensures Ok(k) <==> PlacesOk(k) && TrafficOk(Traffic(k)) && BoxesOk(k) && MutexesOk(k) && SemaphoresOk(k)
  {
  }

  // ---------------------------------------------------------------- every step keeps the invariant

  lemma PlacesMoved(k: Kernel, k': Kernel, p: int, x: Place)
    requires PlacesOk(k) && p in k.places && PlaceOk(k, p, x) && k'.places == k.places[p := x] && k'.nextPid == k.nextPid
    requires |k'.mutexes| == |k.mutexes| && |k'.semaphores| == |k.semaphores|
    ensures PlacesOk(k')
  {
  }

  /** Falling asleep and being woken from sleep concern no list. */
  lemma ClockKeeps(k: Kernel, p: int, x: Place)
    requires Ok(k) && p in k.places && (k.places[p].Free? || k.places[p].Asleep?) && (x.Free? || x.Asleep?)
    ensures Ok(k.(places := k.places[p := x]))
  {
    var k' := k.(places := k.places[p := x]);
    PlacesMoved(k, k', p, x);
    PhasesMoved(k.places, p, x);
    hide TrafficOk, BoxOk, MutexOk, SemaphoreOk;
    BoxStays(k.boxes[p], p, k.places[p], x);
    BoxesMoved(k, k', p, x);
    MutexesMoved(k, k', p, x, -1);
    SemaphoresMoved(k, k', p, x, -1);
  }

  /** A channel event that moves nobody. */
  lemma ChannelsKeep(k: Kernel, e: IpcTraffic.Event)
    requires Ok(k) && IpcTraffic.Possible(Traffic(k), e) && (e.OpenChannel? || e.Joins? || e.Leaves?)
    ensures Ok(k.(traffic := IpcTraffic.Advance(Traffic(k), e)))
  {
    var k' := k.(traffic := IpcTraffic.Advance(Traffic(k), e));
    TrafficAdvances(Traffic(k), e);
    AdvanceMovesNobody(Traffic(k), e);
    hide TrafficOk, BoxOk, MutexOk, SemaphoreOk, IpcTraffic.Advance;
    assert Traffic(k') == IpcTraffic.Advance(Traffic(k), e);
  }

  lemma AdvanceMovesNobody(w: IpcTraffic.World, e: IpcTraffic.Event)
    requires IpcTraffic.WorldOk(w) && IpcTraffic.Possible(w, e) && (e.OpenChannel? || e.Joins? || e.Leaves?)
    ensures IpcTraffic.Advance(w, e).phases == w.phases
  {
    hide IpcTraffic.WorldOk;
  }

  /** A channel event that moves one process, from and to places that only channels know. */
  lemma ChannelMove(k: Kernel, k': Kernel, e: IpcTraffic.Event, p: int, x: Place)
    requires Ok(k) && IpcTraffic.Possible(Traffic(k), e) && !e.OtherWake? && p in k.places
    requires k' == k.(traffic := IpcTraffic.Advance(Traffic(k), e), places := k.places[p := x])
    requires IpcTraffic.Advance(Traffic(k), e).phases == Phases(k.places)[p := ChannelPhase(x)]
    requires OnlyChannels(k.places[p]) && OnlyChannels(x) && PlaceOk(k, p, x)
    ensures Ok(k')
  {
    TrafficAdvances(Traffic(k), e);
    PhasesMoved(k.places, p, x);
    PlacesMoved(k, k', p, x);
    hide TrafficOk, BoxOk, MutexOk, SemaphoreOk, IpcTraffic.Advance, IpcTraffic.Possible;
    assert Traffic(k') == IpcTraffic.Advance(Traffic(k), e);
    BoxStays(k.boxes[p], p, k.places[p], x);
    BoxesMoved(k, k', p, x);
    MutexesMoved(k, k', p, x, -1);
    SemaphoresMoved(k, k', p, x, -1);
  }

  predicate OnlyChannels(x: Place) { x.Blocked? || x.Woken? ==> x.at.OnChannel? }

  /** The same for a mailbox. */
  lemma BoxMove(k: Kernel, k': Kernel, p: int, b: IpcMailbox.World, x: Place)
    requires Ok(k) && p in k.places && p in k.boxes && k' == k.(boxes := k.boxes[p := b], places := k.places[p := x])
    requires OnlyMail(k.places[p]) && OnlyMail(x) && PlaceOk(k, p, x) && BoxOk(b, p, x)
    ensures Ok(k')
  {
    PhasesMoved(k.places, p, x);
    PlacesMoved(k, k', p, x);
    hide TrafficOk, BoxOk, MutexOk, SemaphoreOk;
    BoxesMoved(k, k', p, x);
    MutexesMoved(k, k', p, x, -1);
    SemaphoresMoved(k, k', p, x, -1);
  }

  predicate OnlyMail(x: Place) { x.Blocked? || x.Woken? ==> x.at.OnMail? }

  /** The same for a mutex. */
  lemma MutexMove(k: Kernel, k': Kernel, i: nat, w: SyncModel.World, p: int, x: Place)
    requires Ok(k) && p in k.places && i < |k.mutexes| && k' == k.(mutexes := k.mutexes[i := w], places := k.places[p := x])
    requires OnlyMutex(k.places[p], i) && OnlyMutex(x, i) && PlaceOk(k, p, x) && MutexOk(w, i, k'.places, k.nextPid)
    ensures Ok(k')
  {
    PhasesMoved(k.places, p, x);
    PlacesMoved(k, k', p, x);
    hide TrafficOk, BoxOk, MutexOk, SemaphoreOk;
    BoxStays(k.boxes[p], p, k.places[p], x);
    BoxesMoved(k, k', p, x);
    MutexesMoved(k, k', p, x, i);
    SemaphoresMoved(k, k', p, x, -1);
  }

  predicate OnlyMutex(x: Place, i: nat) { x.Blocked? || x.Woken? ==> x.at == OnMutex(i) }

  /** The same for a semaphore. */
  lemma SemaphoreMove(k: Kernel, k': Kernel, i: nat, w: SyncModel.SemWorld, p: int, x: Place)
    requires Ok(k) && p in k.places && i < |k.semaphores| && k' == k.(semaphores := k.semaphores[i := w], places := k.places[p := x])
    requires OnlySemaphore(k.places[p], i) && OnlySemaphore(x, i) && PlaceOk(k, p, x) && SemaphoreOk(w, i, k'.places)
    ensures Ok(k')
  {
    PhasesMoved(k.places, p, x);
    PlacesMoved(k, k', p, x);
    hide TrafficOk, BoxOk, MutexOk, SemaphoreOk;
    BoxStays(k.boxes[p], p, k.places[p], x);
    BoxesMoved(k, k', p, x);
    MutexesMoved(k, k', p, x, -1);
    SemaphoresMoved(k, k', p, x, i);
  }

  predicate OnlySemaphore(x: Place, i: nat) { x.Blocked? || x.Woken? ==> x.at == OnSemaphore(i) }

  /** Whoever heads a channel's list of waiters is blocked on that channel. */
  lemma HeadIsBlocked(k: Kernel, c: int)
    requires Ok(k) && c in k.traffic.t.waiters && c in k.traffic.t.queues && k.traffic.t.waiters[c] != []
    ensures var p := k.traffic.t.waiters[c][0]; p in k.places && k.places[p] == Blocked(OnChannel(c), true)
  {
    hide BoxesOk, MutexesOk, SemaphoresOk, IpcTraffic.WorldOk, IpcTraffic.WokenOn;
    var p := k.traffic.t.waiters[c][0];
    assert p in Traffic(k).t.waiters[c] && Traffic(k).phases[p] == IpcTraffic.Waiting(c);
  }

  lemma SendKeeps(k: Kernel, c: int, m: IpcTraffic.Message)
    requires Ok(k) && Enabled(k, Send(c, m))
    ensures Ok(SendStep(k, c, m))
  {
    var k', e := SendStep(k, c, m), IpcTraffic.Sends(c, m);
    hide *;
    PhasesWoken(k.places, IpcTraffic.Send(k.traffic.t, c, m).2);
    SendIs(k, c, m);
    if IpcTraffic.Accepts(k.traffic.t, c, m) && k.traffic.t.waiters[c] != [] {
      HeadIsBlocked(k, c);
      var p, x := k.traffic.t.waiters[c][0], Woken(OnChannel(c));
      PhasesMoved(k.places, p, x);
      WakeIs(k.places, p);
      OnlyChannelsIs(c);
      HasBox(k, p);
      PlaceWoken(k, p, c);
      ChannelMove(k, k', e, p, x);
    } else {
      NobodyIsNot(k);
      WakeIs(k.places, NOBODY);
      TrafficAdvances(Traffic(k), e);
      OkParts(k);
      SentQuietly(k, k', e);
    }
  }

  lemma SendIs(k: Kernel, c: int, m: IpcTraffic.Message)
    requires Ok(k) && Enabled(k, Send(c, m))
    ensures var e := IpcTraffic.Sends(c, m);
      && IpcTraffic.WorldOk(Traffic(k)) && IpcTraffic.Possible(Traffic(k), e) && TrafficOk(Traffic(k))
      && SendStep(k, c, m) == k.(traffic := IpcTraffic.Advance(Traffic(k), e), places := Wake(k.places, IpcTraffic.Send(k.traffic.t, c, m).2))
      && IpcTraffic.Advance(Traffic(k), e).phases == IpcTraffic.Wake(Phases(k.places), IpcTraffic.Send(k.traffic.t, c, m).2)
      && (IpcTraffic.Accepts(k.traffic.t, c, m) ==> c in k.traffic.t.waiters && c in k.traffic.t.queues)
      && IpcTraffic.Send(k.traffic.t, c, m).2 ==
        if IpcTraffic.Accepts(k.traffic.t, c, m) && k.traffic.t.waiters[c] != [] then k.traffic.t.waiters[c][0] else NOBODY
  {
    hide IpcTraffic.WorldOk, IpcTraffic.Lively, BoxesOk, MutexesOk, SemaphoresOk;
    assert NOBODY !in k.places;
  }

  lemma WakeIs(places: map<int, Place>, p: int)
    ensures p !in places ==> Wake(places, p) == places
    ensures p in places && places[p].Blocked? ==> Wake(places, p) == places[p := Woken(places[p].at)]
  {
  }

  lemma NobodyIsNot(k: Kernel)
    requires Ok(k)
    ensures NOBODY !in k.places
  {
  }

  lemma OnlyChannelsIs(c: int)
    ensures OnlyChannels(Woken(OnChannel(c))) && OnlyChannels(Blocked(OnChannel(c), true)) && OnlyChannels(Free)
    ensures ChannelPhase(Woken(OnChannel(c))) == IpcTraffic.Woken(c)
  {
  }

  lemma PlaceWoken(k: Kernel, p: int, c: int)
    requires PlaceOk(k, p, Blocked(OnChannel(c), true))
    ensures PlaceOk(k, p, Woken(OnChannel(c)))
  {
  }

  lemma SentQuietly(k: Kernel, k': Kernel, e: IpcTraffic.Event)
    requires Ok(k) && IpcTraffic.WorldOk(Traffic(k)) && IpcTraffic.Possible(Traffic(k), e)
    requires k' == k.(traffic := IpcTraffic.Advance(Traffic(k), e)) && IpcTraffic.Advance(Traffic(k), e).phases == Phases(k.places)
    requires TrafficOk(IpcTraffic.Advance(Traffic(k), e))
    ensures Ok(k')
  {
    hide TrafficOk, BoxOk, MutexOk, SemaphoreOk, IpcTraffic.Advance;
    assert Traffic(k') == IpcTraffic.Advance(Traffic(k), e);
  }

  lemma ChannelPassKeeps(k: Kernel, p: int, c: int, nonblock: bool, e: IpcTraffic.Event)
    requires Ok(k) && IpcTraffic.Possible(Traffic(k), e) && c in k.traffic.t.queues && c in k.traffic.t.waiters && p in k.places
    requires (e == IpcTraffic.Calls(p, c, nonblock) && IpcTraffic.MayUse(k.traffic.t, p, c)) || (e == IpcTraffic.Retries(p) && !nonblock && k.places[p] == Woken(OnChannel(c)))
    requires OnlyChannels(k.places[p])
    ensures Ok(ChannelPass(k, p, c, nonblock, e))
  {
    var r := IpcTraffic.Pass(k.traffic.t, p, c, nonblock).1;
    var x := if r.Blocked? then Blocked(OnChannel(c), true) else Free;
    assert PlaceOk(k, p, k.places[p]);
    hide TrafficOk, BoxesOk, MutexesOk, SemaphoresOk;
    ChannelMove(k, ChannelPass(k, p, c, nonblock, e), e, p, x);
  }

  lemma MailPassKeeps(k: Kernel, p: int, from: IpcMailbox.From, allowed: set<int>)
    requires Ok(k) && p in k.places && p in k.boxes && (k.places[p].Free? || (k.places[p].Woken? && k.places[p].at == OnMail(from)))
    ensures Ok(MailPass(k, p, from, allowed))
  {
    assert PlaceOk(k, p, k.places[p]) && BoxOk(k.boxes[p], p, k.places[p]);
    hide Ok;
    var b, k' := IpcMailbox.ReceiveStep(Box(k, p), from, allowed), MailPass(k, p, from, allowed);
    IpcMailbox.ReceiveKeeps(Box(k, p), from, allowed);
    MailReceived(k.boxes[p], p, k.places[p], from, allowed);
    BoxMove(k, k', p, b, k'.places[p]);
  }

  lemma MailReceived(b0: IpcMailbox.World, p: int, x0: Place, from: IpcMailbox.From, allowed: set<int>)
    requires BoxOk(b0, p, x0) && !x0.Blocked?
    ensures var b := IpcMailbox.ReceiveStep(b0.(phase := MailPhase(x0)), from, allowed);
      BoxOk(b, p, if b.phase.Blocked? then Blocked(OnMail(from), true) else Free)
  {
    var w := b0.(phase := MailPhase(x0));
    IpcMailbox.ReceiveKeeps(w, from, allowed);
    var b := IpcMailbox.ReceiveStep(w, from, allowed);
    hide IpcMailbox.WorldOk, IpcMailbox.Receive;
    var x := if b.phase.Blocked? then Blocked(OnMail(from), true) else Free;
    assert b.(phase := MailPhase(x)) == b;
  }

  /** A letter wakes only a process blocked in this mailbox. */
  lemma MailSent(b0: IpcMailbox.World, p: int, x0: Place, letter: IpcMailbox.Message)
    requires BoxOk(b0, p, x0)
    ensures var b, r := IpcMailbox.SendStep(b0.(phase := MailPhase(x0)), letter), Roused(b0, letter);
      && (r == NOBODY ==> BoxOk(b, p, x0))
      && (r != NOBODY ==> r == p && x0.Blocked? && x0.at.OnMail? && BoxOk(b, p, Woken(x0.at)))
  {
    var w := b0.(phase := MailPhase(x0));
    IpcMailbox.SendKeeps(w, letter);
    var b, r := IpcMailbox.SendStep(w, letter), Roused(b0, letter);
    hide IpcMailbox.InOrder;
    if r == NOBODY {
      assert b.(phase := MailPhase(x0)) == b;
    } else {
      assert b.(phase := MailPhase(Woken(x0.at))) == b;
    }
  }

  lemma BoxChanged(k: Kernel, p: int, b: IpcMailbox.World)
    requires Ok(k) && p in k.places && p in k.boxes && BoxOk(b, p, k.places[p])
    ensures Ok(k.(boxes := k.boxes[p := b]))
  {
    hide TrafficOk, BoxOk, MutexOk, SemaphoreOk;
  }

  lemma MailKeeps(k: Kernel, to: int, letter: IpcMailbox.Message)
    requires Ok(k)
    ensures Ok(MailStep(k, to, letter))
  {
    if to in k.boxes {
      assert PlaceOk(k, to, k.places[to]) && BoxOk(k.boxes[to], to, k.places[to]);
      assert NOBODY !in k.places;
      hide Ok;
      var b, k', p := IpcMailbox.SendStep(Box(k, to), letter), MailStep(k, to, letter), Roused(k.boxes[to], letter);
      MailSent(k.boxes[to], to, k.places[to], letter);
      hide BoxOk, IpcMailbox.SendStep;
      if p == NOBODY {
        BoxChanged(k, to, b);
      } else {
        BoxMove(k, k', to, b, Woken(k.places[to].at));
      }
    }
  }

  // mutexes

  lemma LockFacts(w: SyncModel.World, p: int)
    requires SyncModel.WorldOk(w) && SyncModel.Enabled(w, SyncModel.Lock(p))
    ensures var (m, r) := SyncModel.TryLock(w.m, p);
      var w' := SyncModel.Next(w, SyncModel.Lock(p));
      && SyncModel.WorldOk(w') && w'.m == m && w'.gone == w.gone
      && w'.pending == (if r.Blocked? then w.pending + {p} else w.pending - {p})
      && (!r.Blocked? ==> m.waiters == w.m.waiters)
      && (w.m.owner != NOBODY ==> m.owner == w.m.owner) && (m.owner == w.m.owner || m.owner == p)
      && (forall q :: q in m.waiters <==> q in w.m.waiters || (q == p && p in m.waiters))
  {
    SyncModel.LockKeeps(w, p);
    SyncModel.RegisterFacts(w.m.waiters, p);
    hide Common.Distinct;
  }

  lemma LockMutex(w: SyncModel.World, i: nat, places: map<int, Place>, nextPid: int, p: int)
    requires MutexOk(w, i, places, nextPid) && p > 0 && p in places && (places[p].Free? || places[p] == Woken(OnMutex(i)))
    requires NOBODY !in places
    ensures var (m, r) := SyncModel.TryLock(w.m, p);
      var x := if r.Blocked? then Blocked(OnMutex(i), p in m.waiters) else Free;
      MutexOk(SyncModel.Next(w, SyncModel.Lock(p)), i, places[p := x], nextPid)
  {
    LockFacts(w, p);
    hide SyncModel.WorldOk, SyncModel.TryLock, SyncModel.Next;
  }

  lemma LockPassKeeps(k: Kernel, p: int, i: nat)
    requires Ok(k) && p in k.places && i < |k.mutexes| && (k.places[p].Free? || k.places[p] == Woken(OnMutex(i)))
    ensures Ok(LockPass(k, p, i))
  {
    assert PlaceOk(k, p, k.places[p]) && MutexOk(k.mutexes[i], i, k.places, k.nextPid);
    assert NOBODY !in k.places;
    hide Ok;
    var k' := LockPass(k, p, i);
    LockMutex(k.mutexes[i], i, k.places, k.nextPid, p);
    hide MutexOk, SyncModel.TryLock, SyncModel.Next;
    MutexMove(k, k', i, k'.mutexes[i], p, k'.places[p]);
  }

  /** Unlocking wakes only a process blocked on this mutex. */
  lemma UnlockMutex(w: SyncModel.World, i: nat, places: map<int, Place>, nextPid: int, p: int)
    requires MutexOk(w, i, places, nextPid) && p > 0 && p in places && places[p].Free?
    ensures var (m, ok, h) := SyncModel.Unlock(w.m, p);
      var w' := SyncModel.Next(w, SyncModel.Release(p));
      && (h == NOBODY ==> MutexOk(w', i, places, nextPid))
      && (h != NOBODY ==> h in places && places[h] == Blocked(OnMutex(i), true) && MutexOk(w', i, places[h := Woken(OnMutex(i))], nextPid))
  {
    SyncModel.ReleaseKeeps(w, p);
    var (m, ok, h) := SyncModel.Unlock(w.m, p);
    var q := w.m.waiters;
    if q != [] {
      assert q[0] in q;
      assert forall x :: x in q <==> x == q[0] || x in q[1..];
      assert q[0] !in q[1..];
    }
    hide Common.Distinct;
  }

  lemma MutexChanged(k: Kernel, i: nat, w: SyncModel.World)
    requires Ok(k) && i < |k.mutexes| && MutexOk(w, i, k.places, k.nextPid)
    ensures Ok(k.(mutexes := k.mutexes[i := w]))
  {
    hide TrafficOk, BoxOk, MutexOk, SemaphoreOk;
  }

  lemma UnlockKeeps(k: Kernel, p: int, i: nat)
    requires Ok(k) && IsFree(k, p) && i < |k.mutexes|
    ensures Ok(UnlockStep(k, p, i))
  {
    assert PlaceOk(k, p, k.places[p]) && MutexOk(k.mutexes[i], i, k.places, k.nextPid);
    var k', h := UnlockStep(k, p, i), SyncModel.Unlock(k.mutexes[i].m, p).2;
    assert NOBODY !in k.places && (h in k.places ==> PlaceOk(k, h, k.places[h]));
    hide Ok;
    UnlockMutex(k.mutexes[i], i, k.places, k.nextPid, p);
    hide MutexOk, SyncModel.Unlock, SyncModel.Next;
    if h == NOBODY {
      MutexChanged(k, i, k'.mutexes[i]);
    } else {
      MutexMove(k, k', i, k'.mutexes[i], h, Woken(OnMutex(i)));
    }
  }

  // semaphores

  lemma DownSemaphore(w: SyncModel.SemWorld, i: nat, places: map<int, Place>, p: int)
    requires SemaphoreOk(w, i, places) && p in places && (places[p].Free? || places[p] == Woken(OnSemaphore(i)))
    ensures var (s, r) := SyncModel.TryWait(w.s, p);
      var x := if r.Blocked? then Blocked(OnSemaphore(i), p in s.waiters) else Free;
      SemaphoreOk(SyncModel.SemNext(w, SyncModel.Wait(p)), i, places[p := x])
  {
    SyncModel.SemNextKeeps(w, SyncModel.Wait(p));
    SyncModel.RegisterFacts(w.s.waiters, p);
    assert p !in w.s.waiters;
    hide Common.Distinct;
  }

  lemma DownPassKeeps(k: Kernel, p: int, i: nat)
    requires Ok(k) && p in k.places && i < |k.semaphores| && (k.places[p].Free? || k.places[p] == Woken(OnSemaphore(i)))
    ensures Ok(DownPass(k, p, i))
  {
    assert PlaceOk(k, p, k.places[p]) && SemaphoreOk(k.semaphores[i], i, k.places);
    hide Ok;
    var k' := DownPass(k, p, i);
    DownSemaphore(k.semaphores[i], i, k.places, p);
    hide SemaphoreOk, SyncModel.TryWait, SyncModel.SemNext;
    SemaphoreMove(k, k', i, k'.semaphores[i], p, k'.places[p]);
  }

  /** A post wakes only a process blocked on this semaphore. */
  lemma UpSemaphore(w: SyncModel.SemWorld, i: nat, places: map<int, Place>)
    requires SemaphoreOk(w, i, places)
    ensures var (s, ok, h) := SyncModel.Post(w.s);
      var w' := SyncModel.SemNext(w, SyncModel.Give);
      && (w.s.waiters == [] ==> h == NOBODY && SemaphoreOk(w', i, places))
      && (w.s.waiters != [] ==>
        h == w.s.waiters[0] && h in places && places[h] == Blocked(OnSemaphore(i), true) && SemaphoreOk(w', i, places[h := Woken(OnSemaphore(i))]))
  {
    SyncModel.SemNextKeeps(w, SyncModel.Give);
    var q := w.s.waiters;
    if q != [] {
      assert q[0] in q;
      assert forall x :: x in q <==> x == q[0] || x in q[1..];
      assert q[0] !in q[1..];
    }
    hide Common.Distinct;
  }

  lemma SemaphoreChanged(k: Kernel, i: nat, w: SyncModel.SemWorld)
    requires Ok(k) && i < |k.semaphores| && SemaphoreOk(w, i, k.places)
    ensures Ok(k.(semaphores := k.semaphores[i := w]))
  {
    hide TrafficOk, BoxOk, MutexOk, SemaphoreOk;
  }

  lemma UpKeeps(k: Kernel, i: nat)
    requires Ok(k) && i < |k.semaphores|
    ensures Ok(UpStep(k, i))
  {
    assert SemaphoreOk(k.semaphores[i], i, k.places);
    var k', h := UpStep(k, i), SyncModel.Post(k.semaphores[i].s).2;
    assert NOBODY !in k.places && (h in k.places ==> PlaceOk(k, h, k.places[h]));
    hide Ok;
    UpSemaphore(k.semaphores[i], i, k.places);
    hide SemaphoreOk, SyncModel.Post, SyncModel.SemNext;
    if k.semaphores[i].s.waiters == [] {
      SemaphoreChanged(k, i, k'.semaphores[i]);
    } else {
      SemaphoreMove(k, k', i, k'.semaphores[i], h, Woken(OnSemaphore(i)));
    }
  }

  // processes, mutexes and semaphores come and go

  lemma BeginKeeps(k: Kernel, kernel: bool)
    requires Ok(k)
    ensures Ok(Begin(k, kernel))
  {
    var k', p := Begin(k, kernel), k.nextPid;
    assert p !in k.places;
    TrafficAdvances(Traffic(k), IpcTraffic.Begins(p));
    IpcMailbox.AttachedOk(p, kernel);
    assert Phases(k'.places) == Phases(k.places)[p := IpcTraffic.Free];
    assert Traffic(k') == IpcTraffic.Advance(Traffic(k), IpcTraffic.Begins(p));
    assert BoxOk(k'.boxes[p], p, Free);
    hide TrafficOk, BoxOk;
    assert BoxesOk(k');
    forall i | 0 <= i < |k'.mutexes|
      ensures MutexOk(k'.mutexes[i], i, k'.places, k'.nextPid)
    {
      MutexNewcomer(k.mutexes[i], i, k.places, p);
    }
    forall i | 0 <= i < |k'.semaphores|
      ensures SemaphoreOk(k'.semaphores[i], i, k'.places)
    {
      assert SemaphoreOk(k.semaphores[i], i, k.places);
      hide SyncModel.SemOk;
    }
  }

  lemma MutexNewcomer(w: SyncModel.World, i: nat, places: map<int, Place>, p: int)
    requires MutexOk(w, i, places, p) && p !in places
    ensures MutexOk(w, i, places[p := Free], p + 1)
  {
    hide SyncModel.WorldOk;
  }

  lemma EndKeeps(k: Kernel, p: int)
    requires Ok(k) && IsFree(k, p)
    ensures Ok(End(k, p))
  {
    var k' := End(k, p);
    TrafficAdvances(Traffic(k), IpcTraffic.Ends(p));
    assert Phases(k'.places) == Phases(k.places) - {p};
    assert Traffic(k') == IpcTraffic.Advance(Traffic(k), IpcTraffic.Ends(p));
    assert PlaceOk(k, p, k.places[p]);
    hide TrafficOk, BoxOk;
    assert BoxesOk(k');
    forall i | 0 <= i < |k'.mutexes|
      ensures MutexOk(k'.mutexes[i], i, k'.places, k'.nextPid)
    {
      MutexForgets(k.mutexes[i], i, k.places, k.nextPid, p);
    }
    forall i | 0 <= i < |k'.semaphores|
      ensures SemaphoreOk(k'.semaphores[i], i, k'.places)
    {
      assert SemaphoreOk(k.semaphores[i], i, k.places);
      hide SyncModel.SemOk;
    }
  }

  lemma MutexForgets(w: SyncModel.World, i: nat, places: map<int, Place>, nextPid: int, p: int)
    requires MutexOk(w, i, places, nextPid) && p in places && places[p].Free? && 0 < p < nextPid
    ensures MutexOk(SyncModel.Next(w, SyncModel.Vanish(p)), i, places - {p}, nextPid)
  {
    SyncModel.NextKeeps(w, SyncModel.Vanish(p));
    hide SyncModel.WorldOk;
  }

  lemma NewMutexKeeps(k: Kernel)
    requires Ok(k)
    ensures Ok(k.(mutexes := k.mutexes + [SyncModel.Created()]))
  {
    var k' := k.(mutexes := k.mutexes + [SyncModel.Created()]);
    hide TrafficOk, BoxOk, SemaphoreOk;
    var n := |k.mutexes|;
    assert forall p :: p in k.places ==> PlaceOk(k, p, k.places[p]);
    assert MutexOk(k'.mutexes[n], n, k'.places, k'.nextPid);
    hide MutexOk;
    assert MutexesOk(k');
  }

  lemma NewSemaphoreKeeps(k: Kernel, initial: nat)
    requires Ok(k)
    ensures Ok(k.(semaphores := k.semaphores + [SyncModel.FreshSemaphore(initial)]))
  {
    var k' := k.(semaphores := k.semaphores + [SyncModel.FreshSemaphore(initial)]);
    hide TrafficOk, BoxOk, MutexOk;
    var n := |k.semaphores|;
    assert forall p :: p in k.places ==> PlaceOk(k, p, k.places[p]);
    assert SemaphoreOk(k'.semaphores[n], n, k'.places);
    hide SemaphoreOk;
    assert SemaphoresOk(k');
  }

  lemma ResumeKeeps(k: Kernel, p: int, allowed: set<int>)
    requires Ok(k) && Enabled(k, Resume(p, allowed))
    ensures Ok(ResumeStep(k, p, allowed))
  {
    assert PlaceOk(k, p, k.places[p]) && p in k.boxes;
    match k.places[p].at {
      case OnChannel(c) =>
        WokenChannel(k, p);
        hide Ok;
        ChannelPassKeeps(k, p, c, false, IpcTraffic.Retries(p));
      case OnMail(from) => hide Ok; MailPassKeeps(k, p, from, allowed);
      case OnMutex(i) => hide Ok; LockPassKeeps(k, p, i);
      case OnSemaphore(i) => hide Ok; DownPassKeeps(k, p, i);
    }
  }

  lemma PlainKeeps(k: Kernel, step: Step)
    requires Ok(k) && Enabled(k, step) && Plain(step)
    ensures Ok(Next(k, step))
  {
    hide *;
    PlainIs(k, step);
    PlainCases(step);
    match step {
      case Create(kernel) => BeginKeeps(k, kernel);
      case Exit(p) => EndKeeps(k, p);
      case Sleep(p) => ClockKeeps(k, p, Asleep);
      case TimeUp(p) => ClockKeeps(k, p, Free);
      case NewMutex => NewMutexKeeps(k);
      case NewSemaphore(initial) => NewSemaphoreKeeps(k, initial);
      case _ =>
    }
  }

  lemma PlainCases(step: Step)
    ensures Plain(step) <==> step.Create? || step.Exit? || step.Sleep? || step.TimeUp? || step.NewMutex? || step.NewSemaphore?
    ensures Passing(step) <==> step.Receive? || step.Fetch? || step.Lock? || step.Down? || step.Resume?
  {
  }

  lemma ReceiveKeeps(k: Kernel, p: int, c: int, nonblock: bool)
    requires Ok(k) && IsFree(k, p)
    ensures Ok(ReceiveStep(k, p, c, nonblock))
  {
    hide Ok;
    if c in k.traffic.t.queues && c in k.traffic.t.waiters && IpcTraffic.MayUse(k.traffic.t, p, c) {
      ChannelPassKeeps(k, p, c, nonblock, IpcTraffic.Calls(p, c, nonblock));
    }
  }

  lemma PassingKeeps(k: Kernel, step: Step)
    requires Ok(k) && Enabled(k, step) && Passing(step)
    ensures Ok(Next(k, step))
  {
    hide *;
    PassingIs(k, step);
    PlainCases(step);
    FreeIs(k, step.p);
    match step {
      case Receive(p, c, nonblock) => ReceiveKeeps(k, p, c, nonblock);
      case Fetch(p, from, allowed) => MailPassKeeps(k, p, from, allowed);
      case Lock(p, i) => if i < |k.mutexes| { LockPassKeeps(k, p, i); }
      case Down(p, i) => if i < |k.semaphores| { DownPassKeeps(k, p, i); }
      case Resume(p, allowed) => ResumeKeeps(k, p, allowed);
      case _ =>
    }
  }

  lemma FreeIs(k: Kernel, p: int)
    ensures IsFree(k, p) <==> p in k.places && k.places[p].Free?
  {
  }

  lemma OtherKeeps(k: Kernel, step: Step)
    requires Ok(k) && Enabled(k, step) && !Plain(step) && !Passing(step)
    ensures Ok(Next(k, step))
  {
    hide *;
    OtherIs(k, step);
    PlainCases(step);
    match step {
      case NewChannel(kernel) => OpenPossible(k, kernel); ChannelsKeep(k, IpcTraffic.OpenChannel(kernel));
      case Join(p, c) => ChannelsKeep(k, IpcTraffic.Joins(p, c));
      case Leave(p, c) => ChannelsKeep(k, IpcTraffic.Leaves(p, c));
      case Send(c, m) => SendKeeps(k, c, m);
      case Mail(to, letter) => MailKeeps(k, to, letter);
      case Unlock(p, i) => if i < |k.mutexes| { UnlockKeeps(k, p, i); }
      case Up(i) => if i < |k.semaphores| { UpKeeps(k, i); }
      case _ =>
    }
  }

  lemma OpenPossible(k: Kernel, kernel: bool)
    ensures IpcTraffic.Possible(Traffic(k), IpcTraffic.OpenChannel(kernel))
  {
  }

  /** Every step keeps the invariant. */
  lemma NextKeeps(k: Kernel, step: Step)
    requires Ok(k) && Enabled(k, step)
    ensures Ok(Next(k, step))
  {
    hide *;
    if Plain(step) {
      PlainKeeps(k, step);
    } else if Passing(step) {
      PassingKeeps(k, step);
    } else {
      OtherKeeps(k, step);
    }
  }
}
