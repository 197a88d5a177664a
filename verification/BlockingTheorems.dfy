/**
 What holds in every run of all waiting together: who is on which list of waiters, who wakes
 whom, that no wake-up is lost, who is turned away for good, and what an exit leaves behind.
 */
module BlockingTheorems {
  import Common
  import IpcMailbox
  import IpcTraffic
  import SyncModel
  import opened Blocking

  // ---------------------------------------------------------------- runs

  ghost predicate Run(k: Kernel, steps: seq<Step>, k': Kernel)
    decreases |steps|
  {
    if steps == [] then k' == k else Ok(k) && Enabled(k, steps[0]) && Run(Next(k, steps[0]), steps[1..], k')
  }

  function Boot(): Kernel {
    Kernel(map[], 1, IpcTraffic.Start(), map[], [], [])
  }

  lemma BootOk()
    ensures Ok(Boot())
  {
    IpcTraffic.StartOk();
    IpcTraffic.StartLively();
    assert Traffic(Boot()) == IpcTraffic.Start();
    hide IpcTraffic.WorldOk, IpcTraffic.Lively;
  }

  lemma {:induction false} RunKeeps(k: Kernel, steps: seq<Step>, k': Kernel)
    requires Ok(k) && Run(k, steps, k')
    ensures Ok(k')
    decreases |steps|
  {
    if steps != [] {
      hide Ok, Next, Enabled;
      NextKeeps(k, steps[0]);
      RunKeeps(Next(k, steps[0]), steps[1..], k');
    }
  }

  /** Runs do not rest on the invariant: in every state a run reaches, every enabled step can be taken next. */
  lemma {:induction false} RunExtends(k: Kernel, steps: seq<Step>, u: Kernel, step: Step)
    requires Ok(k) && Run(k, steps, u) && Enabled(u, step)
    ensures Ok(u) && Run(k, steps + [step], Next(u, step))
    decreases |steps|
  {
    hide Ok, Next, Enabled;
    if steps == [] {
      assert (steps + [step])[1..] == [];
    } else {
      NextKeeps(k, steps[0]);
      RunExtends(Next(k, steps[0]), steps[1..], u, step);
      assert (steps + [step])[1..] == steps[1..] + [step];
    }
  }

  // ---------------------------------------------------------------- who is on which list

  /** The lists of waiters. */
  datatype List = ChannelList(c: int) | MailList(owner: int) | MutexList(i: nat) | SemaphoreList(i: nat)

  function Waiters(k: Kernel, l: List): seq<int> {
    match l
    case ChannelList(c) => if c in k.traffic.t.waiters then k.traffic.t.waiters[c] else []
    case MailList(p) => if p in k.boxes then k.boxes[p].waiters else []
    case MutexList(i) => if i < |k.mutexes| then k.mutexes[i].m.waiters else []
    case SemaphoreList(i) => if i < |k.semaphores| then k.semaphores[i].s.waiters else []
  }

  function ListOf(p: int, a: Wait): List {
    match a
    case OnChannel(c) => ChannelList(c)
    case OnMail(_) => MailList(p)
    case OnMutex(i) => MutexList(i)
    case OnSemaphore(i) => SemaphoreList(i)
  }

  /** Process `p` is blocked, was registered, and this is the list. */
  predicate BlockedFor(k: Kernel, p: int, l: List) {
    p in k.places && k.places[p].Blocked? && k.places[p].listed && ListOf(p, k.places[p].at) == l
  }

  lemma ChannelListed(k: Kernel, p: int, c: int)
    requires Ok(k)
    ensures p in Waiters(k, ChannelList(c)) <==> BlockedFor(k, p, ChannelList(c))
  {
    hide BoxesOk, MutexesOk, SemaphoresOk, IpcTraffic.WokenOn, Common.Distinct;
    var w := Traffic(k);
    if p in k.places {
      assert IpcTraffic.PhaseOk(w, p) && PlaceOk(k, p, k.places[p]);
    }
    if c in w.t.waiters {
      assert c in w.t.queues;
      assert p in w.t.waiters[c] <==> p in w.phases && w.phases[p] == IpcTraffic.Waiting(c);
    }
  }

  lemma MailListed(k: Kernel, p: int, q: int)
    requires Ok(k)
    ensures p in Waiters(k, MailList(q)) <==> BlockedFor(k, p, MailList(q))
  {
    hide TrafficOk, MutexesOk, SemaphoresOk, IpcMailbox.InOrder;
    if q in k.boxes {
      assert BoxOk(k.boxes[q], q, k.places[q]) && PlaceOk(k, q, k.places[q]);
    }
  }

  lemma LockListed(k: Kernel, p: int, i: nat)
    requires Ok(k)
    ensures p in Waiters(k, MutexList(i)) <==> BlockedFor(k, p, MutexList(i))
    ensures p in Waiters(k, SemaphoreList(i)) <==> BlockedFor(k, p, SemaphoreList(i))
  {
    hide TrafficOk, BoxesOk, SyncModel.WorldOk, SyncModel.SemOk;
    if p in k.places {
      assert PlaceOk(k, p, k.places[p]);
    }
    if i < |k.mutexes| {
      assert MutexOk(k.mutexes[i], i, k.places, k.nextPid);
    }
    if i < |k.semaphores| {
      assert SemaphoreOk(k.semaphores[i], i, k.places);
    }
  }

  lemma Listed(k: Kernel, p: int, l: List)
    requires Ok(k)
    ensures p in Waiters(k, l) <==> BlockedFor(k, p, l)
  {
    hide Ok;
    match l
    case ChannelList(c) => ChannelListed(k, p, c);
    case MailList(q) => MailListed(k, p, q);
    case MutexList(i) => LockListed(k, p, i);
    case SemaphoreList(i) => LockListed(k, p, i);
  }

  /**
   Over every run: a process is on a list of waiters exactly when it is live and blocked there
   and was registered, so it is on one list at most; and only a full list of a mutex or a
   semaphore leaves somebody blocked without being registered.
   */
  lemma ListedIffBlocked(steps: seq<Step>, k: Kernel, p: int, l: List)
    requires Run(Boot(), steps, k)
    ensures p in Waiters(k, l) <==> BlockedFor(k, p, l)
    ensures p in k.places && k.places[p].Blocked? && !k.places[p].listed ==> k.places[p].at.OnMutex? || k.places[p].at.OnSemaphore?
  {
    BootOk();
    RunKeeps(Boot(), steps, k);
    Listed(k, p, l);
    hide Run, TrafficOk, BoxesOk, MutexesOk, SemaphoresOk;
    if p in k.places {
      assert PlaceOk(k, p, k.places[p]);
    }
  }

  /** An exiting process is on no list of waiters, before and after. */
  lemma ExitLeavesNoWaiter(steps: seq<Step>, k: Kernel, p: int, l: List)
    requires Run(Boot(), steps, k) && Enabled(k, Exit(p))
    ensures Ok(k) && p !in Waiters(k, l) && p !in Next(k, Exit(p)).places && p !in Waiters(Next(k, Exit(p)), l)
  {
    hide *;
    BootOk();
    RunKeeps(Boot(), steps, k);
    NextKeeps(k, Exit(p));
    Listed(k, p, l);
    Listed(Next(k, Exit(p)), p, l);
    ExitIs(k, p, l);
  }

  lemma ExitIs(k: Kernel, p: int, l: List)
    requires Ok(k) && Enabled(k, Exit(p))
    ensures p !in Next(k, Exit(p)).places && !BlockedFor(k, p, l) && !BlockedFor(Next(k, Exit(p)), p, l)
  {
    hide Ok;
  }

  // ---------------------------------------------------------------- who wakes whom

  /** The step is the one that serves this wait of process `p`. */
  predicate Serves(step: Step, p: int, a: Wait) {
    match a
    case OnChannel(c) => step.Send? && step.c == c
    case OnMail(_) => step.Mail? && step.to == p
    case OnMutex(i) => step.Unlock? && step.i == i
    case OnSemaphore(i) => step.Up? && step.i == i
  }

  /** What a step does to a blocked process: nothing, or it takes it off the head of its own list and wakes it. */
  ghost predicate Treated(k: Kernel, step: Step, k': Kernel, p: int)
    requires p in k.places && k.places[p].Blocked?
  {
    var x := k.places[p];
    && p in k'.places
    && (k'.places[p] == x ||
      (k'.places[p] == Woken(x.at) && x.listed && Serves(step, p, x.at) && Waiters(k, ListOf(p, x.at)) != [] && Waiters(k, ListOf(p, x.at))[0] == p))
  }

  lemma SendTreats(k: Kernel, c: int, m: IpcTraffic.Message, p: int)
    requires Ok(k) && Enabled(k, Send(c, m)) && p in k.places && k.places[p].Blocked?
    ensures Treated(k, Send(c, m), SendStep(k, c, m), p)
  {
    assert PlacesOk(k);
    assert IpcTraffic.Accepts(k.traffic.t, c, m) ==> c in k.traffic.t.waiters && c in k.traffic.t.queues;
    if IpcTraffic.Accepts(k.traffic.t, c, m) && k.traffic.t.waiters[c] != [] {
      HeadIsBlocked(k, c);
    }
    hide TrafficOk, BoxesOk, MutexesOk, SemaphoresOk, IpcTraffic.Advance;
    assert PlaceOk(k, p, k.places[p]);
  }

  lemma MailTreats(k: Kernel, to: int, letter: IpcMailbox.Message, p: int)
    requires Ok(k) && p in k.places && k.places[p].Blocked?
    ensures Treated(k, Mail(to, letter), MailStep(k, to, letter), p)
  {
    assert PlaceOk(k, p, k.places[p]);
    if to in k.boxes {
      assert BoxOk(k.boxes[to], to, k.places[to]);
      MailSent(k.boxes[to], to, k.places[to], letter);
    }
    hide Ok, BoxOk, IpcMailbox.SendStep;
  }

  lemma UnlockTreats(k: Kernel, q: int, i: nat, p: int)
    requires Ok(k) && IsFree(k, q) && i < |k.mutexes| && p in k.places && k.places[p].Blocked?
    ensures Treated(k, Unlock(q, i), UnlockStep(k, q, i), p)
  {
    assert PlaceOk(k, p, k.places[p]) && PlaceOk(k, q, k.places[q]) && MutexOk(k.mutexes[i], i, k.places, k.nextPid);
    hide Ok;
    UnlockMutex(k.mutexes[i], i, k.places, k.nextPid, q);
    hide MutexOk, SyncModel.Next;
  }

  lemma UpTreats(k: Kernel, i: nat, p: int)
    requires Ok(k) && i < |k.semaphores| && p in k.places && k.places[p].Blocked?
    ensures Treated(k, Up(i), UpStep(k, i), p)
  {
    assert PlaceOk(k, p, k.places[p]) && SemaphoreOk(k.semaphores[i], i, k.places);
    hide Ok;
    UpSemaphore(k.semaphores[i], i, k.places);
    hide SemaphoreOk, SyncModel.SemNext;
  }

  lemma PlainTreats(k: Kernel, step: Step, p: int)
    requires Ok(k) && Enabled(k, step) && Plain(step) && p in k.places && k.places[p].Blocked?
    ensures Treated(k, step, Next(k, step), p)
  {
    HasBox(k, p);
    PlainIs(k, step);
    hide Ok, Next, IpcTraffic.Advance;
  }

  lemma PassingTreats(k: Kernel, step: Step, p: int)
    requires Ok(k) && Enabled(k, step) && Passing(step) && p in k.places && k.places[p].Blocked?
    ensures Treated(k, step, Next(k, step), p)
  {
    PassingIs(k, step);
    hide Ok, Next, IpcTraffic.Advance, IpcMailbox.ReceiveStep, SyncModel.TryLock, SyncModel.TryWait, SyncModel.Next, SyncModel.SemNext;
  }

  lemma Untouched(k: Kernel, step: Step, k': Kernel, p: int)
    requires p in k.places && k.places[p].Blocked? && k'.places == k.places
    ensures Treated(k, step, k', p)
  {
  }

  lemma OtherTreats(k: Kernel, step: Step, p: int)
    requires Ok(k) && Enabled(k, step) && !Plain(step) && !Passing(step) && p in k.places && k.places[p].Blocked?
    ensures Treated(k, step, Next(k, step), p)
  {
    hide *;
    OtherIs(k, step);
    PlainCases(step);
    match step {
      case Send(c, m) => SendTreats(k, c, m, p);
      case Mail(to, letter) => MailTreats(k, to, letter, p);
      case Unlock(q, i) =>
        if i < |k.mutexes| {
          UnlockTreats(k, q, i, p);
        } else {
          Untouched(k, step, k, p);
        }
      case Up(i) =>
        if i < |k.semaphores| {
          UpTreats(k, i, p);
        } else {
          Untouched(k, step, k, p);
        }
      case NewChannel(_) => Untouched(k, step, Next(k, step), p);
      case Join(_, _) => Untouched(k, step, Next(k, step), p);
      case Leave(_, _) => Untouched(k, step, Next(k, step), p);
      case _ =>
    }
  }

  lemma NextTreats(k: Kernel, step: Step, p: int)
    requires Ok(k) && Enabled(k, step) && p in k.places && k.places[p].Blocked?
    ensures Treated(k, step, Next(k, step), p)
  {
    hide *;
    if Plain(step) {
      PlainTreats(k, step, p);
    } else if Passing(step) {
      PassingTreats(k, step, p);
    } else {
      OtherTreats(k, step, p);
    }
  }

  /**
   Over every run: nothing but its own list wakes a blocked process, and only when it is first on
   it; no step ends or moves it otherwise.
   */
  lemma OnlyItsListWakes(steps: seq<Step>, k: Kernel, step: Step, p: int)
    requires Run(Boot(), steps, k) && Enabled(k, step) && p in k.places && k.places[p].Blocked?
    ensures Ok(k) && Treated(k, step, Next(k, step), p)
  {
    BootOk();
    RunKeeps(Boot(), steps, k);
    hide Ok, Run, Treated, Next;
    NextTreats(k, step, p);
  }

  /** A process turned away from a full list of waiters is blocked for good, whatever the others do. */
  lemma {:induction false} TurnedAwayForever(k: Kernel, steps: seq<Step>, k': Kernel, p: int)
    requires Ok(k) && Run(k, steps, k') && p in k.places && k.places[p].Blocked? && !k.places[p].listed
    ensures p in k'.places && k'.places[p] == k.places[p]
    decreases |steps|
  {
    if steps != [] {
      hide Ok, Next, Enabled;
      NextKeeps(k, steps[0]);
      NextTreats(k, steps[0], p);
      TurnedAwayForever(Next(k, steps[0]), steps[1..], k', p);
    }
  }

  /** A lock call or a wait is turned away exactly when it has to wait and the list of waiters is full. */
  lemma TurnedAwayIff(k: Kernel, p: int, i: nat)
    requires Ok(k) && IsFree(k, p)
    ensures i < |k.mutexes| ==>
      var m, places := k.mutexes[i].m, Next(k, Lock(p, i)).places;
      p in places && (places[p] == Blocked(OnMutex(i), false) <==> m.locked && m.owner != p && |m.waiters| == SyncModel.MAX_WAITERS)
    ensures i < |k.semaphores| ==>
      var s, places := k.semaphores[i].s, Next(k, Down(p, i)).places;
      p in places && (places[p] == Blocked(OnSemaphore(i), false) <==> s.count == 0 && |s.waiters| == SyncModel.MAX_WAITERS)
  {
    hide *;
    CanStart(k, p, i);
    PassingIs(k, Lock(p, i));
    PassingIs(k, Down(p, i));
    if i < |k.mutexes| {
      LockTurnsAway(k, p, i);
    }
    if i < |k.semaphores| {
      DownTurnsAway(k, p, i);
    }
  }

  lemma CanStart(k: Kernel, p: int, i: nat)
    requires IsFree(k, p)
    ensures Enabled(k, Lock(p, i)) && Enabled(k, Down(p, i)) && Passing(Lock(p, i)) && Passing(Down(p, i))
  {
  }

  lemma LockTurnsAway(k: Kernel, p: int, i: nat)
    requires Ok(k) && IsFree(k, p) && i < |k.mutexes|
    ensures var m, places := k.mutexes[i].m, LockPass(k, p, i).places;
      p in places && (places[p] == Blocked(OnMutex(i), false) <==> m.locked && m.owner != p && |m.waiters| == SyncModel.MAX_WAITERS)
  {
    assert MutexOk(k.mutexes[i], i, k.places, k.nextPid);
    hide Ok, Common.Distinct, SyncModel.Next;
  }

  lemma DownTurnsAway(k: Kernel, p: int, i: nat)
    requires Ok(k) && IsFree(k, p) && i < |k.semaphores|
    ensures var s, places := k.semaphores[i].s, DownPass(k, p, i).places;
      p in places && (places[p] == Blocked(OnSemaphore(i), false) <==> s.count == 0 && |s.waiters| == SyncModel.MAX_WAITERS)
  {
    assert SemaphoreOk(k.semaphores[i], i, k.places);
    hide Ok, Common.Distinct, SyncModel.SemNext;
  }

  // ---------------------------------------------------------------- no wake-up is lost

  /** The processes woken on channel `c` that have not run since. */
  ghost function Coming(k: Kernel, c: int): set<int> {
    set p | p in k.places && k.places[p] == Woken(OnChannel(c))
  }

  /**
   Over every run: while a process is blocked on a channel, there is for every message queued on
   it another process that was woken for that channel and has yet to run.
   */
  lemma NoLostWakeup(steps: seq<Step>, k: Kernel, p: int)
    requires Run(Boot(), steps, k) && p in k.places && k.places[p].Blocked? && k.places[p].at.OnChannel?
    ensures var c := k.places[p].at.c; c in k.traffic.t.queues && |k.traffic.t.queues[c]| <= |Coming(k, c)|
  {
    hide *;
    BootOk();
    RunKeeps(Boot(), steps, k);
    EnoughComing(k, p);
  }

  lemma EnoughComing(k: Kernel, p: int)
    requires Ok(k) && p in k.places && k.places[p].Blocked? && k.places[p].at.OnChannel?
    ensures var c := k.places[p].at.c; c in k.traffic.t.queues && |k.traffic.t.queues[c]| <= |Coming(k, c)|
  {
    var c, w := k.places[p].at.c, Traffic(k);
    assert IpcTraffic.WorldOk(w) && IpcTraffic.Lively(w);
    hide Ok;
    assert IpcTraffic.PhaseOk(w, p);
    IpcTraffic.LivelyIs(w);
    hide IpcTraffic.WorldOk, IpcTraffic.Lively, IpcTraffic.ChannelOk;
    assert IpcTraffic.LivelyAt(w, c);
    ComingIs(k, c);
  }

  lemma ComingIs(k: Kernel, c: int)
    ensures IpcTraffic.WokenOn(Traffic(k), c) == Coming(k, c)
  {
    var w := Traffic(k);
    forall p: int
      ensures p in IpcTraffic.WokenOn(w, c) <==> p in Coming(k, c)
    {
    }
  }

  /** Over every run: a process blocked in its mailbox has no letter there that it waits for. */
  lemma NoMissedMail(steps: seq<Step>, k: Kernel, p: int)
    requires Run(Boot(), steps, k) && p in k.places && k.places[p].Blocked? && k.places[p].at.OnMail?
    ensures p in k.boxes && forall j :: 0 <= j < |k.boxes[p].queue| ==> !IpcMailbox.Matches(k.places[p].at.from, k.boxes[p].queue[j])
  {
    BootOk();
    RunKeeps(Boot(), steps, k);
    hide Run, TrafficOk, MutexesOk, SemaphoresOk, IpcMailbox.InOrder;
    assert BoxOk(k.boxes[p], p, k.places[p]);
  }

  /** Over every run: a process woken in a lock call owns the mutex, and its next pass gets it in. */
  lemma WokenGetsTheLock(steps: seq<Step>, k: Kernel, p: int, allowed: set<int>)
    requires Run(Boot(), steps, k) && p in k.places && k.places[p].Woken? && k.places[p].at.OnMutex?
    ensures Ok(k) && Enabled(k, Resume(p, allowed))
    ensures var i, k' := k.places[p].at.i, Next(k, Resume(p, allowed));
      && i < |k.mutexes| == |k'.mutexes| && k.mutexes[i].m.owner == p
      && p in k'.places && k'.places[p] == Free && k'.mutexes[i].inside == {p}
  {
    BootOk();
    RunKeeps(Boot(), steps, k);
    hide *;
    CanResume(k, p, allowed);
    PassingIs(k, Resume(p, allowed));
    HasBox(k, p);
    WokenOwns(k, p, allowed);
  }

  lemma CanResume(k: Kernel, p: int, allowed: set<int>)
    requires p in k.places && k.places[p].Woken?
    ensures Enabled(k, Resume(p, allowed)) && Passing(Resume(p, allowed))
  {
  }

  lemma WokenOwns(k: Kernel, p: int, allowed: set<int>)
    requires Ok(k) && p in k.places && k.places[p].Woken? && k.places[p].at.OnMutex?
    ensures var i, k' := k.places[p].at.i, ResumeStep(k, p, allowed);
      && i < |k.mutexes| == |k'.mutexes| && k.mutexes[i].m.owner == p
      && p in k'.places && k'.places[p] == Free && k'.mutexes[i].inside == {p}
  {
    var i := k.places[p].at.i;
    assert PlaceOk(k, p, k.places[p]) && MutexOk(k.mutexes[i], i, k.places, k.nextPid);
    hide Ok;
    assert k.mutexes[i].inside + {p} == {p};
  }

  /** Over every run of the whole system, what the four protocols guarantee by themselves. */
  lemma PartsGuaranteed(steps: seq<Step>, k: Kernel)
    requires Run(Boot(), steps, k)
    ensures IpcTraffic.WorldOk(Traffic(k)) && IpcTraffic.Lively(Traffic(k))
    ensures forall p :: p in k.places ==> p in k.boxes && IpcMailbox.WorldOk(Box(k, p))
    ensures forall i :: 0 <= i < |k.mutexes| ==> SyncModel.WorldOk(k.mutexes[i])
    ensures forall i :: 0 <= i < |k.semaphores| ==> SyncModel.SemOk(k.semaphores[i])
  {
    BootOk();
    RunKeeps(Boot(), steps, k);
    hide Run, IpcTraffic.WorldOk, IpcTraffic.Lively, IpcMailbox.WorldOk, SyncModel.WorldOk, SyncModel.SemOk;
    assert forall p :: p in k.boxes ==> BoxOk(k.boxes[p], p, k.places[p]);
    assert forall i :: 0 <= i < |k.mutexes| ==> MutexOk(k.mutexes[i], i, k.places, k.nextPid);
    assert forall i :: 0 <= i < |k.semaphores| ==> SemaphoreOk(k.semaphores[i], i, k.places);
  }

  // ---------------------------------------------------------------- a mutex whose owner is gone

  predicate Orphaned(k: Kernel, i: nat) {
    i < |k.mutexes| && k.mutexes[i].m.locked && k.mutexes[i].m.owner !in k.places
  }

  /** Somewhere in the run a process exits while it owns mutex `i`. */
  ghost predicate ExitsOwning(k: Kernel, steps: seq<Step>, i: nat)
    decreases |steps|
  {
    && steps != [] && Ok(k) && Enabled(k, steps[0])
    && ((steps[0].Exit? && i < |k.mutexes| && k.mutexes[i].m.owner == steps[0].p) || ExitsOwning(Next(k, steps[0]), steps[1..], i))
  }

  /** How a pass of the lock loop or an unlock changes the owner. */
  ghost predicate OwnerMoves(k: Kernel, k': Kernel, i: nat) {
    && |k'.mutexes| == |k.mutexes|
    && (i < |k.mutexes| ==>
      var m, m' := k.mutexes[i].m, k'.mutexes[i].m;
      && (m'.owner == m.owner || m'.owner == NOBODY || m'.owner in k'.places)
      && (m.owner != NOBODY && m.owner !in k.places ==> m'.owner == m.owner))
  }

  lemma LockMoves(k: Kernel, p: int, j: nat, i: nat)
    requires Ok(k) && p in k.places && j < |k.mutexes|
    ensures OwnerMoves(k, LockPass(k, p, j), i) && LockPass(k, p, j).places.Keys == k.places.Keys
  {
    assert MutexOk(k.mutexes[j], j, k.places, k.nextPid);
    hide Ok, SyncModel.Register;
  }

  lemma UnlockMoves(k: Kernel, p: int, j: nat, i: nat)
    requires Ok(k) && p in k.places && j < |k.mutexes|
    ensures OwnerMoves(k, UnlockStep(k, p, j), i) && UnlockStep(k, p, j).places.Keys == k.places.Keys
  {
    var m := k.mutexes[j].m;
    assert MutexOk(k.mutexes[j], j, k.places, k.nextPid);
    assert m.waiters != [] ==> m.waiters[0] in m.waiters && m.waiters[0] in k.places;
    hide Ok;
  }

  lemma ExitMoves(k: Kernel, p: int, i: nat)
    requires Ok(k) && IsFree(k, p)
    ensures |End(k, p).mutexes| == |k.mutexes| && (i < |k.mutexes| ==> End(k, p).mutexes[i].m == k.mutexes[i].m)
    ensures End(k, p).places.Keys == k.places.Keys - {p}
  {
    hide Ok, IpcTraffic.Advance;
  }

  /** The mutexes are the same, and so are the live processes. */
  predicate MutexesLeft(k: Kernel, k': Kernel) {
    k'.mutexes == k.mutexes && k'.places.Keys == k.places.Keys
  }

  lemma PassMoves(k: Kernel, step: Step)
    requires Ok(k) && Enabled(k, step) && (step.Receive? || step.Fetch? || step.Down?)
    ensures MutexesLeft(k, Next(k, step))
  {
    PassingIs(k, step);
    hide Ok, Next, IpcTraffic.Advance, IpcMailbox.ReceiveStep, SyncModel.TryWait, SyncModel.SemNext;
  }

  lemma ResumeMoves(k: Kernel, p: int, allowed: set<int>, i: nat)
    requires Ok(k) && Enabled(k, Resume(p, allowed))
    ensures OwnerMoves(k, ResumeStep(k, p, allowed), i) && ResumeStep(k, p, allowed).places.Keys == k.places.Keys
  {
    HasBox(k, p);
    if k.places[p].at.OnMutex? {
      LockMoves(k, p, k.places[p].at.i, i);
      hide Ok, LockPass;
    } else {
      hide Ok, IpcTraffic.Advance, IpcMailbox.ReceiveStep, SyncModel.TryWait, SyncModel.SemNext;
    }
  }

  lemma SignalMoves(k: Kernel, step: Step)
    requires Ok(k) && Enabled(k, step) && !Plain(step) && !Passing(step) && !step.Unlock?
    ensures MutexesLeft(k, Next(k, step))
  {
    OtherIs(k, step);
    hide Ok, Next, IpcTraffic.Advance, IpcTraffic.Send, IpcMailbox.SendStep, SyncModel.SemNext, SyncModel.Post;
  }

  /** The live processes and the mutexes after a step. */
  ghost predicate Changes(k: Kernel, step: Step, k': Kernel, i: nat) {
    && k'.places.Keys == (if step.Create? then k.places.Keys + {k.nextPid} else if step.Exit? then k.places.Keys - {step.p} else k.places.Keys)
    && |k.mutexes| <= |k'.mutexes| && (|k.mutexes| < |k'.mutexes| ==> k'.mutexes == k.mutexes + [SyncModel.Created()])
    && (i < |k.mutexes| ==>
      var m, m' := k.mutexes[i].m, k'.mutexes[i].m;
      && (m'.owner == m.owner || m'.owner == NOBODY || m'.owner in k'.places)
      && ((m.owner != NOBODY && m.owner !in k.places) || step.Exit? ==> m'.owner == m.owner))
  }

  lemma ChangesMoves(k: Kernel, step: Step, k': Kernel, i: nat)
    requires OwnerMoves(k, k', i) && k'.places.Keys == k.places.Keys && !step.Create? && !step.Exit?
    ensures Changes(k, step, k', i)
  {
  }

  lemma ChangesLeft(k: Kernel, step: Step, k': Kernel, i: nat)
    requires MutexesLeft(k, k') && !step.Create? && !step.Exit?
    ensures Changes(k, step, k', i)
  {
  }

  lemma PlainChanges(k: Kernel, step: Step, i: nat)
    requires Ok(k) && Enabled(k, step) && Plain(step)
    ensures Changes(k, step, Next(k, step), i)
  {
    PlainIs(k, step);
    hide Ok, Next, IpcTraffic.Advance, End;
    if step.Exit? {
      ExitMoves(k, step.p, i);
    }
  }

  lemma NextChanges(k: Kernel, step: Step, i: nat)
    requires Ok(k) && Enabled(k, step)
    ensures Changes(k, step, Next(k, step), i)
  {
    hide *;
    PlainCases(step);
    if Plain(step) {
      PlainChanges(k, step, i);
    } else {
      var k' := Next(k, step);
      if Passing(step) {
        PassingIs(k, step);
      } else {
        OtherIs(k, step);
      }
      match step {
        case Lock(p, j) =>
          if j < |k.mutexes| {
            LockMoves(k, p, j, i);
            ChangesMoves(k, step, k', i);
          } else {
            SameMutexes(k);
            ChangesLeft(k, step, k', i);
          }
        case Unlock(p, j) =>
          FreeIs(k, p);
          if j < |k.mutexes| {
            UnlockMoves(k, p, j, i);
            ChangesMoves(k, step, k', i);
          } else {
            SameMutexes(k);
            ChangesLeft(k, step, k', i);
          }
        case Resume(p, allowed) =>
          ResumeMoves(k, p, allowed, i);
          ChangesMoves(k, step, k', i);
        case Receive(_, _, _) => PassMoves(k, step); ChangesLeft(k, step, k', i);
        case Fetch(_, _, _) => PassMoves(k, step); ChangesLeft(k, step, k', i);
        case Down(_, _) => PassMoves(k, step); ChangesLeft(k, step, k', i);
        case _ => SignalMoves(k, step); ChangesLeft(k, step, k', i);
      }
    }
  }

  lemma SameMutexes(k: Kernel)
    ensures MutexesLeft(k, k)
  {
  }

  /** A step leaves a mutex with an owner that is gone exactly when it had one before or the owner exits. */
  lemma OrphanStep(k: Kernel, step: Step, i: nat)
    requires Ok(k) && Enabled(k, step)
    ensures Orphaned(Next(k, step), i) <==> Orphaned(k, i) || (step.Exit? && i < |k.mutexes| && k.mutexes[i].m.owner == step.p)
  {
    NextChanges(k, step, i);
    NextKeeps(k, step);
    if i < |k.mutexes| {
      OwnerKnown(k, i);
      OwnerKnown(Next(k, step), i);
    }
    OrphanAfter(k, step, Next(k, step), i);
  }

  lemma OrphanAfter(k: Kernel, step: Step, k': Kernel, i: nat)
    requires Changes(k, step, k', i) && NOBODY !in k.places && (step.Exit? ==> step.p in k.places)
    requires i < |k.mutexes| ==>
      var m, m' := k.mutexes[i].m, k'.mutexes[i].m;
      (m.locked <==> m.owner != NOBODY) && m.owner < k.nextPid && (m'.locked <==> m'.owner != NOBODY)
    ensures Orphaned(k', i) <==> Orphaned(k, i) || (step.Exit? && i < |k.mutexes| && k.mutexes[i].m.owner == step.p)
  {
    hide Ok;
  }

  lemma OwnerKnown(k: Kernel, i: nat)
    requires Ok(k) && i < |k.mutexes|
    ensures var m := k.mutexes[i].m; (m.locked <==> m.owner != NOBODY) && m.owner < k.nextPid && NOBODY !in k.places
  {
    assert MutexOk(k.mutexes[i], i, k.places, k.nextPid);
  }

  lemma {:induction false} OrphanRun(k: Kernel, steps: seq<Step>, k': Kernel, i: nat)
    requires Ok(k) && Run(k, steps, k')
    ensures Orphaned(k', i) <==> Orphaned(k, i) || ExitsOwning(k, steps, i)
    decreases |steps|
  {
    if steps != [] {
      hide Ok, Next, Enabled, Orphaned;
      NextKeeps(k, steps[0]);
      OrphanStep(k, steps[0], i);
      OrphanRun(Next(k, steps[0]), steps[1..], k', i);
    }
  }

  /** Over every run: a mutex is locked by a process that is gone exactly when some process exited owning it. */
  lemma OrphanedIff(steps: seq<Step>, k: Kernel, i: nat)
    requires Run(Boot(), steps, k)
    ensures Orphaned(k, i) <==> ExitsOwning(Boot(), steps, i)
  {
    BootOk();
    assert !Orphaned(Boot(), i);
    hide Run, ExitsOwning, Orphaned, Ok, Boot;
    OrphanRun(Boot(), steps, k, i);
  }

  /** Such a mutex stays as it is: nobody is ever inside again, and every further lock call blocks. */
  lemma {:induction false} NobodyGetsIn(k: Kernel, steps: seq<Step>, k': Kernel, i: nat, p: int)
    requires Ok(k) && Run(k, steps, k') && Orphaned(k, i)
    ensures Ok(k') && Orphaned(k', i) && k'.mutexes[i].m.owner == k.mutexes[i].m.owner && k'.mutexes[i].inside == {}
    ensures IsFree(k', p) ==> p in Next(k', Lock(p, i)).places && Next(k', Lock(p, i)).places[p].Blocked?
    decreases |steps|
  {
    if steps != [] {
      hide Ok, Next, Enabled, Orphaned;
      NextKeeps(k, steps[0]);
      OrphanStep(k, steps[0], i);
      OwnerStays(k, steps[0], i);
      NobodyGetsIn(Next(k, steps[0]), steps[1..], k', i, p);
    } else {
      hide Run;
      LockBlocks(k, i, p);
    }
  }

  lemma OwnerStays(k: Kernel, step: Step, i: nat)
    requires Ok(k) && Enabled(k, step) && Orphaned(k, i)
    ensures i < |Next(k, step).mutexes| && i < |k.mutexes| && Next(k, step).mutexes[i].m.owner == k.mutexes[i].m.owner
  {
    NextChanges(k, step, i);
    OwnerKnown(k, i);
    hide Ok, Next;
  }

  lemma LockBlocks(k: Kernel, i: nat, p: int)
    requires Ok(k) && Orphaned(k, i)
    ensures k.mutexes[i].inside == {}
    ensures IsFree(k, p) ==> p in Next(k, Lock(p, i)).places && Next(k, Lock(p, i)).places[p].Blocked?
  {
    assert MutexOk(k.mutexes[i], i, k.places, k.nextPid);
    hide Ok;
  }
}
