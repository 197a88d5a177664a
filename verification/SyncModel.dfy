/**
 Mutexes and semaphores as protocols.  A step is one pass of a lock or wait loop, one unlock
 or one post; a process that blocked may run its loop again at any time, woken or not.
 */
module SyncModel {
  import opened Common

  const MAX_WAITERS: nat := 8
  const NOBODY: int := -1

  /** The waiter list after `p` asks to wait: nobody twice, and a full list stays as it is. */
  function Register(waiters: seq<int>, p: int): seq<int> {
    if p in waiters || |waiters| >= MAX_WAITERS then waiters else waiters + [p]
  }

  // ---------------------------------------------------------------- the mutex

  datatype Mutex = Mutex(used: bool, locked: bool, owner: int, waiters: seq<int>)

  datatype Attempt = Acquired | Blocked | Refused

  /** One pass of the lock loop by process `p`. */
  function TryLock(m: Mutex, p: int): (Mutex, Attempt) {
    if !m.used then (m, Refused)
    else if !m.locked then (m.(locked := true, owner := p), Acquired)
    else if m.owner == p then (m, Acquired)
    else (m.(waiters := Register(m.waiters, p)), Blocked)
  }

  /** Unlock by process `p`: ownership goes straight to the first waiter.  None is an error. */
  function Unlock(m: Mutex, p: int): (Mutex, bool, int) {
    if !m.used || !m.locked || m.owner != p then (m, false, NOBODY)
    else if m.waiters != [] then (m.(owner := m.waiters[0], waiters := m.waiters[1..]), true, m.waiters[0])
    else (m.(locked := false, owner := NOBODY), true, NOBODY)
  }

  /**
   A mutex and the processes around it: `pending` are in the middle of a lock call, `inside`
   have got the lock and not given it back, `gone` have exited, and `away` are pending and found
   the waiter list full at their last pass.  `registered` and `granted` record, in order, who
   joined the waiter list and who was handed the lock from it.
   */
  datatype World = World(m: Mutex, pending: set<int>, inside: set<int>, gone: set<int>, away: set<int>, registered: seq<int>, granted: seq<int>)

  /** A pass by `p` that blocks finds no room on the waiter list. */
  predicate ListFull(m: Mutex, p: int) {
    |m.waiters| >= MAX_WAITERS && p !in m.waiters
  }

  datatype Step = Lock(p: int) | Release(p: int) | Vanish(p: int)

  predicate Enabled(w: World, step: Step) {
    step.p > 0 && step.p !in w.gone && (step.Release? ==> step.p !in w.pending)
  }

  function Next(w: World, step: Step): World {
    match step
    case Lock(p) =>
      var (m, r) := TryLock(w.m, p);
      if r.Blocked? then
        w.(m := m, pending := w.pending + {p}, away := if ListFull(w.m, p) then w.away + {p} else w.away - {p},
          registered := w.registered + m.waiters[|w.m.waiters|..])
      else
        w.(m := m, pending := w.pending - {p}, away := w.away - {p}, inside := if r.Acquired? then w.inside + {p} else w.inside)
    case Release(p) =>
      var (m, ok, woken) := Unlock(w.m, p);
      if ok then
        w.(m := m, inside := w.inside - {p}, granted := if woken == NOBODY then w.granted else w.granted + [woken])
      else w
    case Vanish(p) =>
      w.(pending := w.pending - {p}, inside := w.inside - {p}, away := w.away - {p}, gone := w.gone + {p})
  }

  /** The mutex itself: only a locked one has an owner and waiters, and the owner does not wait. */
  ghost predicate MutexOk(m: Mutex) {
    && (!m.locked ==> m.owner == NOBODY && m.waiters == [])
    && (m.locked ==> m.used && m.owner > 0)
    && Distinct(m.waiters) && m.owner !in m.waiters && |m.waiters| <= MAX_WAITERS
    && (forall p :: p in m.waiters ==> p > 0)
  }

  ghost predicate WorldOk(w: World) {
    && MutexOk(w.m)
    && w.inside <= {w.m.owner} && NOBODY !in w.inside && w.inside !! w.gone
    && (forall p :: p in w.m.waiters ==> p in w.pending || p in w.gone)
    && (w.m.owner in w.pending ==> w.m.owner !in w.inside)
    && w.registered == w.granted + w.m.waiters
    && (forall p :: p in w.pending ==> (p in w.away <==> p != w.m.owner && p !in w.m.waiters))
    && NOBODY !in w.gone && w.away <= w.pending && (forall p :: p in w.pending ==> p > 0) && w.m.used
  }

  lemma RegisterFacts(waiters: seq<int>, p: int)
    requires Distinct(waiters) && |waiters| <= MAX_WAITERS
    ensures Distinct(Register(waiters, p)) && |Register(waiters, p)| <= MAX_WAITERS
    ensures waiters <= Register(waiters, p) && forall x :: x in Register(waiters, p) ==> x in waiters || x == p
    ensures Register(waiters, p) == waiters + Register(waiters, p)[|waiters|..]
  {
  }

  lemma LockKeeps(w: World, p: int)
    requires WorldOk(w) && Enabled(w, Lock(p))
    ensures WorldOk(Next(w, Lock(p)))
  {
    RegisterFacts(w.m.waiters, p);
    var (m, r) := TryLock(w.m, p);
    hide Register, Distinct;
    assert !w.m.locked ==> w.inside == {};
    if r.Blocked? {
      assert w.registered + m.waiters[|w.m.waiters|..] == w.granted + m.waiters;
    }
  }

  lemma ReleaseKeeps(w: World, p: int)
    requires WorldOk(w) && Enabled(w, Release(p))
    ensures WorldOk(Next(w, Release(p)))
  {
    var q := w.m.waiters;
    if q != [] {
      assert q == [q[0]] + q[1..];
      assert forall x :: x in q[1..] ==> x in q;
      assert q[0] !in q[1..];
      assert w.granted + [q[0]] + q[1..] == w.granted + q;
      assert q[0] in q;
    }
  }

  /** Every step keeps the invariant. */
  lemma NextKeeps(w: World, step: Step)
    requires WorldOk(w) && Enabled(w, step)
    ensures WorldOk(Next(w, step))
  {
    if step.Lock? {
      LockKeeps(w, step.p);
    } else if step.Release? {
      ReleaseKeeps(w, step.p);
    }
  }

  ghost predicate Run(w: World, steps: seq<Step>, w': World)
    decreases |steps|
  {
    if steps == [] then w' == w else Enabled(w, steps[0]) && Run(Next(w, steps[0]), steps[1..], w')
  }

  lemma {:induction false} RunKeeps(w: World, steps: seq<Step>, w': World)
    requires WorldOk(w) && Run(w, steps, w')
    ensures WorldOk(w')
    decreases |steps|
  {
    if steps != [] {
      hide WorldOk, Next, Enabled;
      NextKeeps(w, steps[0]);
      RunKeeps(Next(w, steps[0]), steps[1..], w');
    }
  }

  /** A mutex just created, with no process around it. */
  function Created(): World {
    World(Mutex(true, false, NOBODY, []), {}, {}, {}, {}, [], [])
  }

  lemma {:induction false} OneElement(s: set<int>, x: int)
    requires s <= {x}
    ensures |s| <= 1
  {
    if x in s {
      assert s == {x};
    } else {
      assert s == {};
    }
  }

  /**
   Mutual exclusion over every run: at most one process has the lock, it is the recorded
   owner, an unlocked mutex has no waiters, and the lock is handed to the waiters in the
   order in which they registered.
   */
  lemma MutualExclusion(steps: seq<Step>, w: World)
    requires Run(Created(), steps, w)
    ensures |w.inside| <= 1 && w.inside <= {w.m.owner}
    ensures !w.m.locked ==> w.m.waiters == [] && w.inside == {}
    ensures w.m.owner !in w.m.waiters && Distinct(w.m.waiters)
    ensures w.granted <= w.registered && w.registered == w.granted + w.m.waiters
  {
    RunKeeps(Created(), steps, w);
    OneElement(w.inside, w.m.owner);
  }

  /** Over every run, a pass of the lock loop succeeds exactly for the process recorded as owner after it, and alone. */
  lemma SuccessMeansOwner(steps: seq<Step>, w: World, p: int)
    requires Run(Created(), steps, w) && Enabled(w, Lock(p))
    ensures var w' := Next(w, Lock(p));
      && (p in w'.inside <==> w'.m.owner == p)
      && (p in w'.inside ==> w'.inside == {p} && w'.m.locked)
      && (p !in w'.inside ==> w'.m == w.m.(waiters := Register(w.m.waiters, p)) && p in w'.pending)
  {
    RunKeeps(Created(), steps, w);
    hide Run;
    LockKeeps(w, p);
  }

  /** No barging: while somebody waits, the owner changes only by an unlock, and to the first waiter. */
  lemma NoBarging(w: World, step: Step)
    requires WorldOk(w) && Enabled(w, step) && w.m.waiters != []
    ensures var w' := Next(w, step);
      && w'.m.locked
      && (w'.m.owner != w.m.owner ==>
        && step == Release(w.m.owner) && w'.m.owner == w.m.waiters[0] && w'.m.waiters == w.m.waiters[1..])
      && (w'.m.owner == w.m.owner ==> w.m.waiters <= w'.m.waiters)
  {
    RegisterFacts(w.m.waiters, step.p);
  }

  // ---------------------------------------------------------------- who waits without being registered

  /**
   Over every run, a process in the middle of a lock call is the owner or on the waiter list,
   unless the list was full at its last pass.
   */
  lemma PendingIffNotTurnedAway(steps: seq<Step>, w: World, p: int)
    requires Run(Created(), steps, w) && p in w.pending
    ensures p == w.m.owner || p in w.m.waiters <==> p !in w.away
  {
    RunKeeps(Created(), steps, w);
  }

  ghost function Elements(q: seq<int>): set<int> {
    set i | 0 <= i < |q| :: q[i]
  }

  lemma {:induction false} DistinctCount(q: seq<int>)
    requires Distinct(q)
    ensures |Elements(q)| == |q|
  {
    if q != [] {
      var rest := q[..|q| - 1];
      DistinctCount(rest);
      assert Elements(q) == Elements(rest) + {q[|q| - 1]};
      assert q[|q| - 1] !in Elements(rest);
    }
  }

  lemma SubsetSize(a: set<int>, b: set<int>)
    requires a <= b
    ensures |a| <= |b|
  {
    assert b == a + (b - a);
  }

  /** A full list, its owner and one more process are ten. */
  lemma FullListTakesTen(m: Mutex, p: int, users: set<int>)
    requires MutexOk(m) && m.locked && m.owner != p && ListFull(m, p)
    requires p in users && m.owner in users && forall x :: x in m.waiters ==> x in users
    ensures |users| >= 10
  {
    var all := Elements(m.waiters) + {m.owner} + {p};
    DistinctCount(m.waiters);
    SubsetSize(all, users);
  }

  /** Only processes of `users` lock. */
  ghost predicate LockedBy(steps: seq<Step>, users: set<int>) {
    forall i :: 0 <= i < |steps| && steps[i].Lock? ==> steps[i].p in users
  }

  ghost predicate FewUsers(w: World, users: set<int>) {
    && WorldOk(w) && w.away == {}
    && (w.m.locked ==> w.m.owner in users) && forall x :: x in w.m.waiters ==> x in users
  }

  lemma FewUsersKept(w: World, step: Step, users: set<int>)
    requires FewUsers(w, users) && Enabled(w, step) && |users| <= 9 && (step.Lock? ==> step.p in users)
    ensures FewUsers(Next(w, step), users)
  {
    NextKeeps(w, step);
    RegisterFacts(w.m.waiters, step.p);
    hide Register, Distinct;
    if step.Lock? && w.m.locked && w.m.owner != step.p && ListFull(w.m, step.p) {
      FullListTakesTen(w.m, step.p, users);
    } else if step.Release? && w.m.waiters != [] {
      assert w.m.waiters[0] in w.m.waiters;
      assert forall x :: x in w.m.waiters[1..] ==> x in w.m.waiters;
    }
  }

  lemma {:induction false} FewUsersRun(w: World, steps: seq<Step>, w': World, users: set<int>)
    requires FewUsers(w, users) && Run(w, steps, w') && |users| <= 9 && LockedBy(steps, users)
    ensures FewUsers(w', users)
    decreases |steps|
  {
    if steps != [] {
      hide FewUsers, Next, Enabled;
      FewUsersKept(w, steps[0], users);
      FewUsersRun(Next(w, steps[0]), steps[1..], w', users);
    }
  }

  /** With at most nine processes using the mutex, every process in a lock call is the owner or registered. */
  lemma NineUsersAllRegistered(steps: seq<Step>, w: World, users: set<int>)
    requires Run(Created(), steps, w) && |users| <= 9 && LockedBy(steps, users)
    ensures w.away == {}
    ensures forall p :: p in w.pending ==> p == w.m.owner || p in w.m.waiters
  {
    FewUsersRun(Created(), steps, w, users);
  }

  lemma AwayKept(w: World, step: Step, p: int)
    requires WorldOk(w) && Enabled(w, step) && p in w.away && step.p != p
    ensures p in Next(w, step).away && p in Next(w, step).pending
    ensures w.granted <= Next(w, step).granted && p !in Next(w, step).granted[|w.granted|..]
  {
    if step.Release? && w.m.waiters != [] {
      assert w.m.waiters[0] in w.m.waiters;
    }
  }

  lemma GrantedThen(a: seq<int>, b: seq<int>, c: seq<int>, p: int)
    requires a <= b <= c && p !in b[|a|..] && p !in c[|b|..]
    ensures a <= c && p !in c[|a|..]
  {
    assert c[|a|..] == b[|a|..] + c[|b|..];
  }

  /**
   A process that was turned away is never handed the lock and never woken: whatever the others
   do, also when they are all done, it stays in its lock call until it runs by itself.
   */
  lemma {:induction false} TurnedAwayIsForgotten(w: World, steps: seq<Step>, w': World, p: int)
    requires WorldOk(w) && Run(w, steps, w') && p in w.away && forall i :: 0 <= i < |steps| ==> steps[i].p != p
    ensures p in w'.pending && p in w'.away && w'.m.owner != p
    ensures w.granted <= w'.granted && p !in w'.granted[|w.granted|..]
    decreases |steps|
  {
    if steps != [] {
      hide Next, Enabled, WorldOk;
      var u := Next(w, steps[0]);
      NextKeeps(w, steps[0]);
      AwayKept(w, steps[0], p);
      TurnedAwayIsForgotten(u, steps[1..], w', p);
      GrantedThen(w.granted, u.granted, w'.granted, p);
    } else {
      hide Distinct;
      assert w.granted[|w.granted|..] == [];
    }
  }

  /**
   Exit leaves the mutexes alone: once the owner is gone, the mutex stays locked, nobody is ever
   handed the lock and nobody gets in, whatever the others do.
   */
  lemma {:induction false} OrphanedForever(w: World, steps: seq<Step>, w': World)
    requires WorldOk(w) && Run(w, steps, w') && w.m.owner in w.gone
    ensures w'.m.locked && w'.m.owner == w.m.owner && w'.m.owner in w'.gone
    ensures w'.inside == {} && w'.granted == w.granted && w.m.waiters <= w'.m.waiters
    decreases |steps|
  {
    if steps != [] {
      hide Next, Enabled, WorldOk;
      NextKeeps(w, steps[0]);
      OrphanedStep(w, steps[0]);
      OrphanedForever(Next(w, steps[0]), steps[1..], w');
    } else {
      OrphanedNow(w);
    }
  }

  lemma OrphanedNow(w: World)
    requires WorldOk(w) && w.m.owner in w.gone
    ensures w.m.locked && w.inside == {}
  {
  }

  lemma OrphanedStep(w: World, step: Step)
    requires WorldOk(w) && w.m.owner in w.gone && Enabled(w, step)
    ensures var w' := Next(w, step); w'.m.owner == w.m.owner && w'.m.owner in w'.gone && w'.granted == w.granted && w.m.waiters <= w'.m.waiters
  {
    RegisterFacts(w.m.waiters, step.p);
  }

  /** Processes 1 to n ask for the lock, one after the other. */
  function Asking(n: nat): seq<Step> {
    seq(n, i requires 0 <= i < n => Lock(i + 1))
  }

  function Numbers(a: nat, n: nat): set<int>
    requires a > 0
  {
    if n < a then {} else Numbers(a, n - 1) + {n}
  }

  lemma {:induction false} NumbersAre(a: nat, n: nat, i: int)
    requires a > 0
    ensures i in Numbers(a, n) <==> a <= i <= n
  {
    if n >= a {
      NumbersAre(a, n - 1, i);
    }
  }

  /** Process 1 has it, the next eight wait in order, the others are turned away. */
  function Crowd(n: nat): World
    requires n >= 1
  {
    var listed := if n <= 9 then n else 9;
    var queue := seq(listed - 1, i requires 0 <= i < listed - 1 => i + 2);
    World(Mutex(true, true, 1, queue), Numbers(2, n), {1}, {}, Numbers(10, n), queue, [])
  }

  lemma CrowdStep(n: nat)
    requires n >= 1
    ensures Enabled(Crowd(n), Lock(n + 1)) && Next(Crowd(n), Lock(n + 1)) == Crowd(n + 1)
  {
    var w, v := Crowd(n), Crowd(n + 1);
    assert w.pending + {n + 1} == v.pending;
    NumbersAre(10, n, n + 1);
    if n <= 8 {
      assert v.m.waiters == w.m.waiters + [n + 1];
      assert v.m.waiters[|w.m.waiters|..] == [n + 1];
      assert w.away - {n + 1} == v.away;
    } else {
      assert v.m.waiters == w.m.waiters;
      assert w.m.waiters[|w.m.waiters|..] == [];
      assert w.away + {n + 1} == v.away;
    }
  }

  lemma {:induction false} RunThen(w: World, steps: seq<Step>, u: World, step: Step)
    requires Run(w, steps, u) && Enabled(u, step)
    ensures Run(w, steps + [step], Next(u, step))
    decreases |steps|
  {
    hide Next, Enabled;
    if steps == [] {
      assert (steps + [step])[1..] == [];
    } else {
      RunThen(Next(w, steps[0]), steps[1..], u, step);
      assert (steps + [step])[1..] == steps[1..] + [step];
    }
  }

  /** From the tenth process on, askers are blocked without being registered. */
  lemma {:induction false} TenthIsTurnedAway(n: nat)
    requires n >= 1
    ensures Run(Created(), Asking(n), Crowd(n))
    ensures n >= 10 ==> n in Crowd(n).pending && n in Crowd(n).away && n != Crowd(n).m.owner && n !in Crowd(n).m.waiters
  {
    if n == 1 {
      assert Asking(1) == [Lock(1)] && [Lock(1)][1..] == [];
      var one := Crowd(1);
      assert one.pending == {} && one.away == {};
      assert Next(Created(), Lock(1)) == one;
    } else {
      NumbersAre(2, n, n);
      NumbersAre(10, n, n);
      TenthIsTurnedAway(n - 1);
      CrowdStep(n - 1);
      RunThen(Created(), Asking(n - 1), Crowd(n - 1), Lock(n));
      assert Asking(n) == Asking(n - 1) + [Lock(n)];
    }
  }

  // ---------------------------------------------------------------- the semaphore

  datatype Semaphore = Semaphore(used: bool, count: int, waiters: seq<int>)

  function TryWait(s: Semaphore, p: int): (Semaphore, Attempt) {
    if !s.used then (s, Refused)
    else if s.count > 0 then (s.(count := s.count - 1), Acquired)
    else (s.(waiters := Register(s.waiters, p)), Blocked)
  }

  /** A post that finds a waiter wakes it and leaves the count as it is. */
  function Post(s: Semaphore): (Semaphore, bool, int) {
    if !s.used then (s, false, NOBODY)
    else if s.waiters != [] then (s.(waiters := s.waiters[1..]), true, s.waiters[0])
    else (s.(count := s.count + 1), true, NOBODY)
  }

  datatype SemStep = Wait(p: int) | Give

  /** A semaphore with the numbers of completed waits, posts, and posts that only woke a waiter. */
  datatype SemWorld = SemWorld(s: Semaphore, initial: nat, waits: nat, posts: nat, wakes: nat)

  function SemNext(w: SemWorld, step: SemStep): SemWorld {
    match step
    case Wait(p) =>
      var (s, r) := TryWait(w.s, p);
      w.(s := s, waits := if r.Acquired? then w.waits + 1 else w.waits)
    case Give =>
      var (s, ok, woken) := Post(w.s);
      if ok then w.(s := s, posts := w.posts + 1, wakes := if w.s.waiters != [] then w.wakes + 1 else w.wakes) else w
  }

  /** Units are conserved: each is counted, was taken, or was spent on a wake-up. */
  ghost predicate SemOk(w: SemWorld) {
    && w.s.count >= 0 && w.waits + w.s.count + w.wakes == w.initial + w.posts
    && (w.s.count > 0 ==> w.s.waiters == [])
    && Distinct(w.s.waiters) && |w.s.waiters| <= MAX_WAITERS
  }

  ghost predicate SemRun(w: SemWorld, steps: seq<SemStep>, w': SemWorld)
    decreases |steps|
  {
    if steps == [] then w' == w else SemRun(SemNext(w, steps[0]), steps[1..], w')
  }

  lemma SemNextKeeps(w: SemWorld, step: SemStep)
    requires SemOk(w)
    ensures SemOk(SemNext(w, step)) && SemNext(w, step).initial == w.initial
  {
    if step.Wait? {
      RegisterFacts(w.s.waiters, step.p);
    }
  }

  /** Completed waits never exceed the initial count plus the posts; what is missing was spent on wake-ups. */
  lemma {:induction false} WaitsNeverExceed(w: SemWorld, steps: seq<SemStep>, w': SemWorld)
    requires SemOk(w) && SemRun(w, steps, w')
    ensures w'.initial == w.initial && w'.waits <= w'.initial + w'.posts
    ensures w'.waits + w'.s.count + w'.wakes == w'.initial + w'.posts
    ensures w'.s.count > 0 ==> w'.s.waiters == []
    decreases |steps|
  {
    if steps != [] {
      hide SemOk, SemNext;
      SemNextKeeps(w, steps[0]);
      WaitsNeverExceed(SemNext(w, steps[0]), steps[1..], w');
    }
  }

  /** A semaphore just created. */
  function FreshSemaphore(initial: nat): SemWorld {
    SemWorld(Semaphore(true, initial, []), initial, 0, 0, 0)
  }

  lemma {:induction false} SemRunKeeps(w: SemWorld, steps: seq<SemStep>, w': SemWorld)
    requires SemOk(w) && SemRun(w, steps, w')
    ensures SemOk(w') && w'.s.used == w.s.used
    decreases |steps|
  {
    if steps != [] {
      hide SemOk;
      SemNextKeeps(w, steps[0]);
      SemRunKeeps(SemNext(w, steps[0]), steps[1..], w');
    }
  }

  /** Over every run from creation, completed waits never exceed the initial count plus the posts. */
  lemma WaitsFromCreation(initial: nat, steps: seq<SemStep>, w: SemWorld)
    requires SemRun(FreshSemaphore(initial), steps, w)
    ensures w.waits <= initial + w.posts && w.waits + w.s.count + w.wakes == initial + w.posts
  {
    WaitsNeverExceed(FreshSemaphore(initial), steps, w);
  }

  function Gives(n: nat): seq<SemStep> {
    seq(n, i => Give)
  }

  /**
   Posts in a row, in any state a run reaches: as many as there are registered waiters only take
   those off the list, in order; each further one adds a unit.
   */
  lemma {:induction false} PostsInARow(w: SemWorld, n: nat, w': SemWorld)
    requires SemOk(w) && w.s.used && SemRun(w, Gives(n), w')
    ensures var served := if n <= |w.s.waiters| then n else |w.s.waiters|;
      && w'.s.count == w.s.count + n - served && w'.s.waiters == w.s.waiters[served..]
      && w'.waits == w.waits && w'.wakes == w.wakes + served
    decreases n
  {
    if n > 0 {
      assert Gives(n)[0] == Give && Gives(n)[1..] == Gives(n - 1);
      SemNextKeeps(w, Give);
      PostsInARow(SemNext(w, Give), n - 1, w');
    }
  }

  /**
   In every state a run from creation reaches, a post that wakes a waiter gives it no unit: the
   pass it makes next blocks again.
   */
  lemma WokenWaiterBlocksAgain(initial: nat, steps: seq<SemStep>, w: SemWorld)
    requires SemRun(FreshSemaphore(initial), steps, w) && w.s.waiters != []
    ensures var p, w1 := w.s.waiters[0], SemNext(w, Give);
      && Post(w.s).2 == p && w1.s.count == 0
      && SemNext(w1, Wait(p)).waits == w.waits && p in SemNext(w1, Wait(p)).s.waiters
  {
    SemRunKeeps(FreshSemaphore(initial), steps, w);
    hide SemRun;
    var q := w.s.waiters;
    assert q[0] !in q[1..];
  }
}
