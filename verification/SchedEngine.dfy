/**
 The scheduler on its tables: threads in a fixed array, ready queues and sleep list linked
 through it.  Every routine is proved to take the step of the transition system.
 */
module SchedEngine {
  import opened Common
  import opened SchedModel
  import opened SchedLists
  import opened SchedLinks
  import opened SchedInvariant
  import opened SchedSleep
  import opened SchedSteps
  import opened SchedGlue

  class Scheduler {
    const procs: array<Proc>
    const nextRun: array<int>
    const nextSleep: array<int>
    const onQueue: array<bool>
    const head: array<int>
    const tail: array<int>
    const bitmap: array<bool>
    var sleepHead: int
    var current: int
    var nextPid: nat
    ghost var queues: Queues
    ghost var sleepers: seq<nat>
    ghost var phase: Phase

    ghost predicate Tables() {
      && procs.Length == SLOTS && nextRun.Length == SLOTS && nextSleep.Length == SLOTS && onQueue.Length == SLOTS
      && head.Length == LEVELS && tail.Length == LEVELS && bitmap.Length == LEVELS
      && nextRun != nextSleep && nextRun != head && nextRun != tail && nextSleep != head && nextSleep != tail && head != tail
      && onQueue != bitmap
    }

    ghost predicate ReadyLists()
      reads this`queues, nextRun, head, tail, bitmap, onQueue
    {
      RunLists(nextRun[..], head[..], tail[..], bitmap[..], onQueue[..], queues)
    }

    ghost predicate SleepList()
      reads this`sleepers, this`sleepHead, nextSleep
    {
      Linked(nextSleep[..], sleepHead, sleepers) && Distinct(sleepers)
    }

    ghost predicate Valid()
      reads this, procs, nextRun, nextSleep, onQueue, head, tail, bitmap
    {
      Tables() && ReadyLists() && SleepList() && -1 <= current < SLOTS
    }

    /** The state of the transition system that the tables hold. */
    ghost function St(): State
      reads this, procs
    {
      State(procs[..], queues, sleepers, Opt(current), phase, nextPid)
    }

    lemma Parts()
      requires Valid()
      ensures Tables() && ReadyLists() && SleepList() && -1 <= current < 32
      ensures procs.Length == nextRun.Length == nextSleep.Length == onQueue.Length == 32
      ensures head.Length == tail.Length == bitmap.Length == 4 == |queues|
      ensures nextRun != nextSleep && nextRun != head && nextRun != tail && nextSleep != head && nextSleep != tail && head != tail && onQueue != bitmap
      ensures RunLists(nextRun[..], head[..], tail[..], bitmap[..], onQueue[..], queues)
      ensures Linked(nextSleep[..], sleepHead, sleepers) && Distinct(sleepers)
      ensures SLOTS == 32 && LEVELS == 4 && IDLE == 0
      ensures St() == State(procs[..], queues, sleepers, Opt(current), phase, nextPid)
    {
      hide Linked, Distinct, QueueWired, Separate;
    }

    lemma Pack()
      requires Tables() && -1 <= current < 32
      requires RunLists(nextRun[..], head[..], tail[..], bitmap[..], onQueue[..], queues)
      requires Linked(nextSleep[..], sleepHead, sleepers) && Distinct(sleepers)
      ensures Valid()
      ensures St() == State(procs[..], queues, sleepers, Opt(current), phase, nextPid)
    {
      hide Linked, Distinct, RunLists;
    }

    // -------------------------------------------------------------- ready queues

    /** Appends a thread to the queue of its priority, unless it is idle or queued already. */
    method EnqueueReady(p: nat)
      requires Valid() && p < SLOTS
      modifies this`queues, nextRun, head, tail, bitmap, onQueue
      ensures Valid() && p < |old(St()).procs| && St() == Enqueue(old(St()), p)
    {
      hide *;
      Parts();
      RunListsOn(nextRun[..], head[..], tail[..], bitmap[..], onQueue[..], queues, p);
      EnqueueIs(St(), p);
      if p == IDLE || onQueue[p] {
        return;
      }
      var k := Clamp(procs[p].dyn);
      EnqueueWired(nextRun[..], head[..], tail[..], bitmap[..], onQueue[..], queues, k, p);
      nextRun[p] := -1;
      if head[k] < 0 {
        head[k] := p;
        tail[k] := p;
      } else {
        nextRun[tail[k]] := p;
        tail[k] := p;
      }
      bitmap[k] := true;
      onQueue[p] := true;
      queues := PutLast(queues, k, p);
      Pack();
    }

    /** Unlinks a thread from the queue it is on. */
    method RemoveFromReady(p: nat)
      requires Valid() && p < SLOTS
      modifies this`queues, nextRun, head, tail, bitmap, onQueue
      ensures Valid() && St() == old(St()).(queues := TakeOut(old(queues), p))
    {
      hide *;
      Parts();
      var k := 0;
      while k < LEVELS
        invariant k <= LEVELS && Valid() && queues == old(queues) && St() == old(St())
        invariant forall j :: 0 <= j < k ==> p !in queues[j]
        invariant nextRun[..] == old(nextRun[..]) && head[..] == old(head[..]) && tail[..] == old(tail[..])
        invariant bitmap[..] == old(bitmap[..]) && onQueue[..] == old(onQueue[..])
      {
        Parts();
        RunListsAt(nextRun[..], head[..], tail[..], bitmap[..], onQueue[..], queues, k);
        var prev, iter := -1, head[k];
        ghost var i := 0;
        ghost var q := queues[k];
        LinkedHead(nextRun[..], head[k], q);
        PtrIs(q, 0);
        while iter >= 0
          invariant i <= |q| && iter == Ptr(q, i) && prev == (if i == 0 then -1 else q[i - 1])
          invariant iter >= 0 ==> i < |q| && iter == q[i]
          invariant iter < 0 ==> i == |q|
          invariant forall j :: 0 <= j < i ==> q[j] != p
          invariant nextRun[..] == old(nextRun[..]) && head[..] == old(head[..]) && tail[..] == old(tail[..])
          invariant bitmap[..] == old(bitmap[..]) && onQueue[..] == old(onQueue[..]) && queues == old(queues)
          decreases |q| - i
        {
          LinkedRange(nextRun[..], head[k], q, i);
          LinkedNext(nextRun[..], head[k], q, i);
          if iter == p {
            IndexedIn(q, i);
            TakeOutAt(queues, p, k);
            RemoveWired(nextRun[..], head[..], tail[..], bitmap[..], onQueue[..], queues, k, i);
            UnlinkedIs(nextRun[..], q, i);
            if prev >= 0 {
              nextRun[prev] := nextRun[iter];
            } else {
              head[k] := nextRun[iter];
            }
            if tail[k] == iter {
              tail[k] := prev;
            }
            if head[k] < 0 {
              bitmap[k] := false;
            }
            nextRun[iter] := -1;
            onQueue[iter] := false;
            queues := queues[k := Without(q, p)];
            Pack();
            return;
          }
          PtrIs(q, i + 1);
          prev := iter;
          iter := nextRun[iter];
          i := i + 1;
        }
        NoneBefore(q, p);
        Pack();
        k := k + 1;
      }
      TakeOutNone(queues, p);
    }

    /** Takes the head of the first nonempty queue, by the bitmap. */
    method DequeueNext() returns (r: int)
      requires Valid()
      modifies this`queues, nextRun, head, tail, bitmap, onQueue
      ensures Valid() && -1 <= r < SLOTS && Opt(r) == First(old(queues))
      ensures St() == if r < 0 then old(St()) else old(St()).(queues := TakeOut(old(queues), r))
    {
      hide *;
      Parts();
      var k := 0;
      while k < LEVELS
        invariant nextRun[..] == old(nextRun[..]) && head[..] == old(head[..]) && tail[..] == old(tail[..])
        invariant bitmap[..] == old(bitmap[..]) && onQueue[..] == old(onQueue[..]) && queues == old(queues)
        invariant k <= LEVELS && forall j :: 0 <= j < k ==> queues[j] == []
      {
        RunListsAt(nextRun[..], head[..], tail[..], bitmap[..], onQueue[..], queues, k);
        if bitmap[k] {
          ghost var q := queues[k];
          PtrIs(q, 0);
          r := head[k];
          OptIs(r);
          LinkedRange(nextRun[..], head[k], q, 0);
          LinkedNext(nextRun[..], head[k], q, 0);
          IndexedIn(q, 0);
          FirstIs(queues, k);
          TakeOutAt(queues, r, k);
          RemoveWired(nextRun[..], head[..], tail[..], bitmap[..], onQueue[..], queues, k, 0);
          UnlinkedIs(nextRun[..], q, 0);
          OneLeft(q);
          PtrIs(q, 1);
          LastIs(q);
          head[k] := nextRun[r];
          if head[k] < 0 {
            tail[k] := -1;
            bitmap[k] := false;
          }
          nextRun[r] := -1;
          onQueue[r] := false;
          queues := queues[k := Without(q, r)];
          Pack();
          return;
        }
        k := k + 1;
      }
      FirstNone(queues);
      OptIs(-1);
      Pack();
      return -1;
    }

    /** Takes out the eligible ready thread with the least key, if there is one. */
    method Pick(rule: Rule) returns (best: int)
      requires Valid()
      modifies this`queues, nextRun, head, tail, bitmap, onQueue
      ensures Valid() && -1 <= best < SLOTS
      ensures InRange(old(St()).procs, Flatten(old(queues))) && Opt(best) == Search(old(St()).procs, rule, Flatten(old(queues)), None)
      ensures St() == if best < 0 then old(St()) else old(St()).(queues := TakeOut(old(queues), best))
    {
      hide *;
      Parts();
      ghost var all := procs[..];
      FlattenBelow(nextRun[..], head[..], tail[..], bitmap[..], onQueue[..], queues, all);
      AheadStart(queues);
      best := -1;
      OptIs(best);
      ghost var target := Search(all, rule, Flatten(queues), None);
      var k := 0;
      while k < LEVELS
        invariant k <= LEVELS && -1 <= best < SLOTS && (Opt(best).Some? ==> Opt(best).value < |all|)
        invariant nextRun[..] == old(nextRun[..]) && head[..] == old(head[..]) && tail[..] == old(tail[..])
        invariant bitmap[..] == old(bitmap[..]) && onQueue[..] == old(onQueue[..]) && procs[..] == all
        invariant k < LEVELS ==> InRange(all, Ahead(queues, k, 0)) && target == Search(all, rule, Ahead(queues, k, 0), Opt(best))
        invariant k == LEVELS ==> target == Opt(best)
        modifies {}
      {
        RunListsAt(nextRun[..], head[..], tail[..], bitmap[..], onQueue[..], queues, k);
        ghost var q := queues[k];
        var iter := head[k];
        ghost var i := 0;
        PtrIs(q, 0);
        OptIs(best);
        while iter >= 0
          invariant i <= |q| && iter == Ptr(q, i) && -1 <= best < SLOTS
          invariant iter >= 0 ==> i < |q| && iter == q[i]
          invariant iter < 0 ==> i == |q|
          invariant InRange(all, Ahead(queues, k, i)) && (Opt(best).Some? ==> Opt(best).value < |all|)
          invariant target == Search(all, rule, Ahead(queues, k, i), Opt(best))
          invariant nextRun[..] == old(nextRun[..]) && head[..] == old(head[..]) && tail[..] == old(tail[..])
          invariant bitmap[..] == old(bitmap[..]) && onQueue[..] == old(onQueue[..]) && procs[..] == all
          modifies {}
          decreases |q| - i
        {
          LinkedRange(nextRun[..], head[k], q, i);
          LinkedNext(nextRun[..], head[k], q, i);
          AheadStep(queues, k, i);
          OptIs(best);
          SearchCons(all, rule, Ahead(queues, k, i), Opt(best));
          BetterIs(all, rule, Opt(best), iter);
          if Eligible(procs[iter], rule) {
            if best < 0 || Key(procs[iter], rule) < Key(procs[best], rule) {
              best := iter;
            }
          }
          OptIs(best);
          PtrIs(q, i + 1);
          iter := nextRun[iter];
          i := i + 1;
        }
        AheadNext(queues, k);
        SearchNil(all, rule, Opt(best));
        k := k + 1;
      }
      Pack();
      if best >= 0 {
        RemoveFromReady(best);
      }
    }

    /** Chooses and takes out the next thread to run; -1 if none is ready. */
    method SelectNext() returns (r: int)
      requires Valid()
      modifies this`queues, nextRun, head, tail, bitmap, onQueue
      ensures Valid() && -1 <= r < SLOTS
      ensures InRange(old(St()).procs, Flatten(old(queues))) && Opt(r) == Choice(old(St()).procs, old(queues))
      ensures St() == if r < 0 then old(St()) else old(St()).(queues := TakeOut(old(queues), r))
    {
      hide *;
      Parts();
      FlattenBelow(nextRun[..], head[..], tail[..], bitmap[..], onQueue[..], queues, procs[..]);
      ChoiceIs(procs[..], queues);
      r := Pick(ByDeadline);
      OptIs(r);
      if r >= 0 {
        return;
      }
      Parts();
      r := Pick(ByRuntime);
      OptIs(r);
      if r >= 0 {
        return;
      }
      Parts();
      r := DequeueNext();
      OptIs(r);
    }

    // -------------------------------------------------------------- the sleep list

    /** Unlinks a thread from the sleep list, if it is on it. */
    method RemoveFromSleep(p: nat)
      requires Valid() && p < SLOTS
      modifies this`sleepers, this`sleepHead, nextSleep
      ensures Valid() && St() == old(St()).(sleep := Without(old(sleepers), p))
      ensures p !in sleepers
    {
      hide *;
      Parts();
      WithoutGone(sleepers, p);
      LinkedHead(nextSleep[..], sleepHead, sleepers);
      PtrIs(sleepers, 0);
      if sleepHead < 0 {
        NoneBefore(sleepers, p);
        WithoutAbsent(sleepers, p);
        return;
      }
      LinkedRange(nextSleep[..], sleepHead, sleepers, 0);
      LinkedNext(nextSleep[..], sleepHead, sleepers, 0);
      if sleepHead == p {
        LinkedRemove(nextSleep[..], sleepHead, sleepers, 0);
        TailDistinct(sleepers);
        sleepHead := nextSleep[p];
        nextSleep[p] := -1;
        sleepers := sleepers[1..];
        Pack();
        return;
      }
      var prev, iter := sleepHead, nextSleep[sleepHead];
      ghost var i := 1;
      PtrIs(sleepers, 1);
      while iter >= 0
        invariant 1 <= i <= |sleepers| && iter == Ptr(sleepers, i) && prev == sleepers[i - 1]
        invariant iter >= 0 ==> i < |sleepers| && iter == sleepers[i]
        invariant iter < 0 ==> i == |sleepers|
        invariant forall j :: 0 <= j < i ==> sleepers[j] != p
        invariant nextSleep[..] == old(nextSleep[..]) && sleepHead == old(sleepHead) && sleepers == old(sleepers)
        decreases |sleepers| - i
      {
        LinkedRange(nextSleep[..], sleepHead, sleepers, i);
        LinkedNext(nextSleep[..], sleepHead, sleepers, i);
        if iter == p {
          LinkedRemove(nextSleep[..], sleepHead, sleepers, i);
          WithoutAt(sleepers, i);
          WithoutFacts(sleepers, p);
          nextSleep[prev] := nextSleep[iter];
          nextSleep[iter] := -1;
          sleepers := Without(sleepers, p);
          Pack();
          return;
        }
        PtrIs(sleepers, i + 1);
        prev := iter;
        iter := nextSleep[iter];
        i := i + 1;
      }
      NoneBefore(sleepers, p);
      WithoutAbsent(sleepers, p);
      Pack();
    }

    /** Links a thread into the sleep list by its wake time, behind equal ones. */
    method InsertSleep(p: nat)
      requires Valid() && p < SLOTS
      modifies this`sleepers, this`sleepHead, nextSleep
      ensures Valid() && p < |procs[..]| && (forall i :: 0 <= i < |Without(old(sleepers), p)| ==> Without(old(sleepers), p)[i] < |procs[..]|)
      ensures St() == old(St()).(sleep := InsertByWake(procs[..], Without(old(sleepers), p), p))
    {
      hide *;
      RemoveFromSleep(p);
      Parts();
      ghost var q, all, links := sleepers, procs[..], nextSleep[..];
      LinkedInRange(nextSleep[..], sleepHead, q, all);
      LinkedHead(nextSleep[..], sleepHead, q);
      PtrIs(q, 0);
      if sleepHead < 0 || procs[p].wake < procs[sleepHead].wake {
        LinkedInsert(nextSleep[..], sleepHead, q, p, 0);
        InsertFront(all, q, p);
        InsertedMember(q, p, 0);
        nextSleep[p] := sleepHead;
        sleepHead := p;
        sleepers := InsertByWake(all, q, p);
        Pack();
        return;
      }
      var iter: nat := sleepHead;
      ghost var i := 0;
      BehindStart(all, q, p);
      LinkedNext(nextSleep[..], sleepHead, q, 0);
      PtrIs(q, 1);
      while nextSleep[iter] >= 0 && procs[nextSleep[iter]].wake <= procs[p].wake
        invariant Behind(all, q, p, i) && i < |q| && iter == q[i] && iter < 32 && nextSleep[iter] == Ptr(q, i + 1)
        invariant nextSleep[iter] >= 0 ==> i + 1 < |q| && nextSleep[iter] == q[i + 1] && nextSleep[iter] < 32
        invariant nextSleep[iter] < 0 ==> i + 1 == |q|
        invariant nextSleep[..] == links
        modifies {}
        decreases |q| - i
      {
        BehindStep(all, q, p, i);
        LinkedRange(nextSleep[..], sleepHead, q, i + 1);
        LinkedNext(nextSleep[..], sleepHead, q, i + 1);
        PtrIs(q, i + 2);
        iter := nextSleep[iter];
        i := i + 1;
        BehindParts(all, q, p, i);
      }
      BehindParts(all, q, p, i);
      BehindDone(all, q, p, i);
      LinkedInsert(nextSleep[..], sleepHead, q, p, i + 1);
      InsertedMember(q, p, i + 1);
      nextSleep[p] := nextSleep[iter];
      nextSleep[iter] := p;
      sleepers := InsertByWake(all, q, p);
      Pack();
    }

    /** Makes a thread ready at its boosted priority. */
    method MakeAwake(p: nat)
      requires Valid() && p < SLOTS
      modifies this`queues, procs, nextRun, head, tail, bitmap, onQueue
      ensures Valid() && p < |old(St()).procs| && St() == Awake(old(St()), p)
    {
      hide *;
      Parts();
      AwakeIs(St(), p);
      procs[p] := procs[p].(dyn := Boosted(procs[p].base), state := Ready);
      Pack();
      EnqueueReady(p);
    }

    /** Pops the sleepers that are due. */
    method WakeDue(now: nat)
      requires Valid()
      modifies this`queues, this`sleepers, this`sleepHead, procs, nextRun, nextSleep, head, tail, bitmap, onQueue
      ensures Valid() && St() == WakeSleepers(old(St()), now)
    {
      hide *;
      Parts();
      LinkedInRange(nextSleep[..], sleepHead, sleepers, procs[..]);
      LinkedHead(nextSleep[..], sleepHead, sleepers);
      PtrIs(sleepers, 0);
      while sleepHead >= 0 && procs[sleepHead].wake <= now
        invariant Valid() && WakeSleepers(St(), now) == WakeSleepers(old(St()), now)
        invariant procs.Length == 32 && sleepHead < 32 && sleepHead == Ptr(sleepers, 0)
        invariant if sleepers == [] then sleepHead == -1 else sleepHead == sleepers[0]
        invariant forall i :: 0 <= i < |sleepers| ==> sleepers[i] < procs.Length
        decreases |sleepers|
      {
        Parts();
        ghost var s := St();
        WakeIs(s, now);
        PopIs(s);
        var p: nat := sleepHead;
        LinkedNext(nextSleep[..], sleepHead, sleepers, 0);
        LinkedRemove(nextSleep[..], sleepHead, sleepers, 0);
        TailDistinct(sleepers);
        sleepHead := nextSleep[p];
        nextSleep[p] := -1;
        sleepers := sleepers[1..];
        procs[p] := procs[p].(wake := 0);
        Pack();
        MakeAwake(p);
        Parts();
        LinkedInRange(nextSleep[..], sleepHead, sleepers, procs[..]);
        LinkedHead(nextSleep[..], sleepHead, sleepers);
        PtrIs(sleepers, 0);
      }
      Parts();
      WakeIs(St(), now);
    }

    // -------------------------------------------------------------- thread routines

    /** The running thread gives up the processor but stays ready. */
    method YieldCurrent()
      requires Valid() && Ok(St()) && Enabled(St(), Yield)
      modifies this, procs, nextRun, head, tail, bitmap, onQueue
      ensures Valid() && Ok(St()) && St() == Next(old(St()), Yield)
    {
      hide *;
      NextIs(St(), Yield);
      Parts();
      NextKeeps(St(), Yield);
      RunningPhase(St(), Yield);
      RunningParts(St());
      OptIs(current);
      YieldIs(St());
      if current == IDLE {
        return;
      }
      var p := procs[current];
      procs[current] := p.(dyn := p.base, state := Ready, remaining := 0);
      Pack();
      EnqueueReady(current);
      Parts();
      phase := Switching;
      Pack();
    }

    /** The running thread waits until it is woken. */
    method BlockCurrent()
      requires Valid() && Ok(St()) && Enabled(St(), Block)
      modifies this, procs
      ensures Valid() && Ok(St()) && St() == Next(old(St()), Block)
    {
      hide *;
      NextIs(St(), Block);
      Parts();
      NextKeeps(St(), Block);
      RunningPhase(St(), Block);
      RunningParts(St());
      OptIs(current);
      BlockIs(St());
      if current == IDLE {
        return;
      }
      procs[current] := procs[current].(state := Waiting, remaining := 0);
      phase := Switching;
      Pack();
    }

    /** The running thread waits for a number of ticks. */
    method SleepCurrent(ticks: nat, now: nat)
      requires Valid() && Ok(St()) && Enabled(St(), SleepFor(ticks, now))
      modifies this, procs, nextSleep
      ensures Valid() && Ok(St()) && St() == Next(old(St()), SleepFor(ticks, now))
    {
      ghost var step := SleepFor(ticks, now);
      hide *;
      NextIs(St(), step);
      Parts();
      NextKeeps(St(), step);
      RunningPhase(St(), step);
      RunningParts(St());
      OkParts(St());
      OptIs(current);
      SleepIs(St(), ticks, now);
      if current == IDLE {
        return;
      }
      var delay := if ticks == 0 then 1 else ticks;
      procs[current] := procs[current].(wake := now + delay, state := Waiting, remaining := 0);
      Pack();
      InsertSleep(current);
      Parts();
      phase := Switching;
      Pack();
    }

    /** The running thread ends. */
    method ExitCurrent()
      requires Valid() && Ok(St()) && Enabled(St(), Exit)
      modifies this, procs, nextRun, nextSleep, onQueue
      ensures Valid() && Ok(St()) && St() == Next(old(St()), Exit)
    {
      hide *;
      NextIs(St(), Exit);
      Parts();
      NextKeeps(St(), Exit);
      RunningPhase(St(), Exit);
      RunningParts(St());
      OptIs(current);
      ExitIs(St());
      NotIdle(St());
      NotQueued(St(), {current}, current);
      RemoveFromSleep(current);
      Parts();
      RunListsOn(nextRun[..], head[..], tail[..], bitmap[..], onQueue[..], queues, current);
      OffQueue(nextRun[..], head[..], tail[..], bitmap[..], onQueue[..], queues, current);
      onQueue[current] := false;
      nextRun[current] := -1;
      procs[current] := procs[current].(state := Zombie);
      phase := Switching;
      Pack();
    }

    /** The running thread loses the processor. */
    method PreemptRunning(demote: bool)
      requires Valid() && 0 <= current < SLOTS && demote == (current != IDLE)
      modifies this, procs, nextRun, head, tail, bitmap, onQueue
      ensures Valid() && old(St()).current.Some? && old(St()).current.value < |old(St()).procs| && St() == Preempt(old(St()))
    {
      hide *;
      Parts();
      OptIs(current);
      PreemptIs(St());
      if current == IDLE {
        phase := Switching;
        Pack();
        return;
      }
      var p := procs[current];
      if demote && p.dyn < MAX_PRIORITY {
        p := p.(dyn := p.dyn + 1);
      }
      procs[current] := p.(state := Ready);
      Pack();
      EnqueueReady(current);
      Parts();
      phase := Switching;
      Pack();
    }

    /** A timer tick while a thread runs. */
    method SchedulerTick(now: nat)
      requires Valid() && Ok(St()) && Enabled(St(), Tick(now))
      modifies this, procs, nextRun, nextSleep, head, tail, bitmap, onQueue
      ensures Valid() && Ok(St()) && St() == Next(old(St()), Tick(now))
    {
      hide *;
      NextIs(St(), Tick(now));
      Parts();
      NextKeeps(St(), Tick(now));
      RunningPhase(St(), Tick(now));
      RunningParts(St());
      TickWakes(St(), now);
      OptIs(current);
      TickIs(St(), now);
      WakeDue(now);
      Parts();
      if current == IDLE {
        BitmapIs(nextRun[..], head[..], tail[..], bitmap[..], onQueue[..], queues);
        if bitmap[0] || bitmap[1] || bitmap[2] || bitmap[3] {
          PreemptRunning(false);
        }
        return;
      }
      var left := if procs[current].remaining > 0 then procs[current].remaining - 1 else 0;
      procs[current] := procs[current].(remaining := left);
      Pack();
      if left == 0 {
        PreemptRunning(true);
      }
    }

    /** Wakes a thread if it waits. */
    method WakeThread(p: nat)
      requires Valid() && Ok(St()) && Enabled(St(), Wake(p)) && p < SLOTS
      modifies this, procs, nextRun, nextSleep, head, tail, bitmap, onQueue
      ensures Valid() && Ok(St()) && St() == Next(old(St()), Wake(p))
    {
      hide *;
      NextIs(St(), Wake(p));
      Parts();
      NextKeeps(St(), Wake(p));
      WakeStepIs(St(), p);
      if !procs[p].state.Waiting? {
        return;
      }
      RemoveFromSleep(p);
      MakeAwake(p);
    }

    /** Makes a new thread in the first free slot; false if there is none. */
    method CreateThread(priority: nat) returns (ok: bool)
      requires Valid() && Ok(St()) && Enabled(St(), Create(priority))
      modifies this, procs, nextRun, nextSleep, head, tail, bitmap, onQueue
      ensures Valid() && Ok(St()) && St() == Next(old(St()), Create(priority))
      ensures ok <==> FreeSlot(old(St()).procs, 0).Some?
    {
      hide *;
      NextIs(St(), Create(priority));
      Parts();
      ghost var s := St();
      NextKeeps(s, Create(priority));
      CreatePhase(s, priority);
      CreateIs(s, priority);
      var i := 0;
      FreeSlotStep(procs[..], 0);
      while i < SLOTS && !(procs[i].state.Unused? || procs[i].state.Zombie?)
        invariant i <= SLOTS && FreeSlot(procs[..], i) == FreeSlot(s.procs, 0) && procs[..] == s.procs
        modifies {}
      {
        FreeSlotStep(procs[..], i);
        i := i + 1;
      }
      FreeSlotStep(procs[..], i);
      if i == SLOTS {
        return false;
      }
      FreeIsUnused(s, i);
      OkParts(s);
      NotQueued(s, InHand(s), i);
      HeldNotAsleep(s, InHand(s), i);
      Parts();
      OffQueue(nextRun[..], head[..], tail[..], bitmap[..], onQueue[..], queues, i);
      LinkedOff(nextSleep[..], sleepHead, sleepers, i);
      onQueue[i] := false;
      nextRun[i] := -1;
      nextSleep[i] := -1;
      procs[i] := NewProc(nextPid, Clamp(priority));
      nextPid := nextPid + 1;
      Pack();
      EnqueueReady(i);
      return true;
    }

    /** Sets the policy of a thread. */
    method SetScheduler(p: nat, policy: Policy, weight: nat, deadline: nat, now: nat)
      requires Valid() && Ok(St()) && Enabled(St(), Configure(p, policy, weight, deadline, now)) && p < SLOTS
      modifies procs
      ensures Valid() && Ok(St()) && St() == Next(old(St()), Configure(p, policy, weight, deadline, now))
    {
      ghost var step := Configure(p, policy, weight, deadline, now);
      hide *;
      NextIs(St(), step);
      Parts();
      NextKeeps(St(), step);
      ConfigureIs(St(), p, policy, weight, deadline, now);
      var w := if weight == 0 then DEFAULT_WEIGHT else weight;
      if policy.Fair? {
        procs[p] := procs[p].(policy := Fair, weight := w, deadline := 0);
      } else {
        var d := if deadline != 0 && deadline < now then now + deadline else deadline;
        procs[p] := procs[p].(policy := Deadline, weight := w, deadline := d);
      }
      Pack();
    }

    // -------------------------------------------------------------- the scheduler loop

    /** Charges the thread that ran, and reclaims it if it ended. */
    method FinishCurrent()
      requires Valid() && Ok(St()) && phase.Switching?
      modifies this, procs, nextRun, nextSleep, head, tail, bitmap, onQueue
      ensures Valid() && phase.Switching? && current == -1
      ensures old(St()).current.Some? ==> old(St()).current.value < |old(St()).procs| && St() == Finish(old(St()), old(St()).current.value)
      ensures old(St()).current.None? ==> St() == old(St())
    {
      hide *;
      Parts();
      OptIs(current);
      ghost var s := St();
      if current < 0 {
        return;
      }
      var c: nat := current;
      FinishSteps(s, c);
      CurrentInRange(s);
      var p := procs[c];
      if c != IDLE && p.policy.Fair? {
        procs[c] := p.(vruntime := p.vruntime + Charge(p));
      }
      Pack();
      if procs[c].state.Zombie? {
        ExitedOff(s, c);
        RemoveFromSleep(c);
        Parts();
        OffQueue(nextRun[..], head[..], tail[..], bitmap[..], onQueue[..], queues, c);
        onQueue[c] := false;
        nextRun[c] := -1;
        procs[c] := Reclaimed();
        Pack();
      }
      if procs[c].state.Ready? && c != IDLE {
        EnqueueReady(c);
        Parts();
      }
      OptIs(-1);
      current := -1;
      Pack();
    }

    /** One turn of the scheduler loop: finish, wake, choose and start. */
    method ScheduleNext(now: nat)
      requires Valid() && Ok(St()) && Enabled(St(), Dispatch(now))
      modifies this, procs, nextRun, nextSleep, head, tail, bitmap, onQueue
      ensures Valid() && Ok(St()) && St() == Next(old(St()), Dispatch(now))
    {
      hide *;
      NextIs(St(), Dispatch(now));
      Parts();
      ghost var s := St();
      NextKeeps(s, Dispatch(now));
      SwitchingPhase(s, now);
      DispatchKeeps(s, now);
      CurrentInRange(s);
      ReturnOf(s, now);
      FinishCurrent();
      WakeDue(now);
      Parts();
      DispatchCases(s, now);
      var next := SelectNext();
      OptIs(next);
      if next < 0 {
        next := IDLE;
      }
      Parts();
      StartIs(St(), next);
      OptIs(next);
      procs[next] := Armed(procs[next].(state := Running));
      current := next;
      phase := InThread;
      Pack();
    }

    /** Clears all tables and makes the idle thread. */
    constructor ()
      ensures Valid() && Ok(St()) && St() == Boot()
      ensures fresh(procs) && fresh(nextRun) && fresh(nextSleep) && fresh(onQueue) && fresh(head) && fresh(tail) && fresh(bitmap)
    {
      procs := new Proc[SLOTS](_ => UnusedProc());
      nextRun := new int[SLOTS](_ => -1);
      nextSleep := new int[SLOTS](_ => -1);
      onQueue := new bool[SLOTS](_ => false);
      head := new int[LEVELS](_ => -1);
      tail := new int[LEVELS](_ => -1);
      bitmap := new bool[LEVELS](_ => false);
      sleepHead, current, nextPid := -1, -1, 1;
      queues, sleepers, phase := seq(LEVELS, i => []), [], Switching;
      new;
      procs[IDLE] := NewProc(0, MAX_PRIORITY);
      EmptyLists(nextRun[..], head[..], tail[..], bitmap[..], onQueue[..], queues);
      BootOk();
      assert procs[..] == Boot().procs;
    }
  }

  lemma PtrIs(q: seq<nat>, i: nat)
    ensures i < |q| ==> Ptr(q, i) == q[i] && Ptr(q, i) >= 0
    ensures i >= |q| ==> Ptr(q, i) == -1
  {
  }

  lemma OneLeft(q: seq<nat>)
    requires q != []
    ensures |q| == 1 <==> q[1..] == []
  {
  }

  lemma LastIs(q: seq<nat>)
    requires q != [] && Distinct(q)
    ensures LastPtr(q) == q[|q| - 1] && (LastPtr(q) == q[0] <==> |q| == 1)
  {
  }

  lemma WithoutGone(q: seq<nat>, p: nat)
    requires Distinct(q)
    ensures p !in Without(q, p)
  {
    WithoutFacts(q, p);
  }

  // ---------------------------------------------------------------- the steps, unfolded

  lemma NextIs(s: State, step: Step)
    requires Ok(s) && Enabled(s, step)
    ensures step.Yield? ==> s.current.Some? && s.current.value < |s.procs| && Next(s, step) == YieldStep(s)
    ensures step.Block? ==> s.current.Some? && s.current.value < |s.procs| && Next(s, step) == BlockStep(s)
    ensures step.SleepFor? ==> s.current.Some? && s.current.value < |s.procs| && InRange(s.procs, s.sleep) && Next(s, step) == SleepStep(s, step.ticks, step.now)
    ensures step.Exit? ==> s.current.Some? && s.current.value < |s.procs| && Next(s, step) == ExitStep(s)
    ensures step.Tick? ==> Next(s, step) == TickStep(s, step.now)
    ensures step.Wake? ==> step.p < |s.procs| && Next(s, step) == WakeStep(s, step.p)
    ensures step.Create? ==> Next(s, step) == CreateStep(s, step.priority)
    ensures step.Configure? ==> step.p < |s.procs| && Next(s, step) == ConfigureStep(s, step.p, step.policy, step.weight, step.deadline, step.now)
    ensures step.Dispatch? ==>
      && InRange(Return(s, step.now).procs, Flatten(Return(s, step.now).queues)) && IDLE < |Return(s, step.now).procs|
      && Next(s, step) == DispatchStep(s, step.now)
  {
    hide Ok, YieldStep, BlockStep, SleepStep, ExitStep, TickStep, WakeStep, CreateStep, ConfigureStep, DispatchStep, Return, Flatten, InRange;
    match step
    case Yield => YieldKeeps(s);
    case Block => BlockKeeps(s);
    case SleepFor(ticks, now) => SleepKeeps(s, ticks, now);
    case Exit => ExitKeeps(s);
    case Dispatch(now) => DispatchKeeps(s, now);
    case _ =>
  }

  lemma RunningPhase(s: State, step: Step)
    requires Enabled(s, step) && (step.Yield? || step.Block? || step.SleepFor? || step.Exit? || step.Tick?)
    ensures s.phase.InThread? && (step.Exit? ==> s.current != Some(IDLE))
  {
  }

  lemma NotIdle(s: State)
    requires s.current != Some(IDLE) && s.current.Some?
    ensures s.current.value != IDLE
  {
  }

  lemma SwitchingPhase(s: State, now: nat)
    requires Enabled(s, Dispatch(now))
    ensures s.phase.Switching?
  {
  }

  lemma CreatePhase(s: State, priority: nat)
    requires Enabled(s, Create(priority))
    ensures s.phase.InThread? || s.current.None?
  {
  }

  lemma YieldIs(s: State)
    requires s.current.Some? && s.current.value < |s.procs|
    ensures var c := s.current.value;
      var s1 := s.(procs := s.procs[c := s.procs[c].(dyn := s.procs[c].base, state := Ready, remaining := 0)]);
      YieldStep(s) == if c == IDLE then s else Enqueue(s1, c).(phase := Switching)
  {
    hide Enqueue;
  }

  lemma BlockIs(s: State)
    requires s.current.Some? && s.current.value < |s.procs|
    ensures var c := s.current.value;
      BlockStep(s) == if c == IDLE then s else s.(procs := s.procs[c := s.procs[c].(state := Waiting, remaining := 0)], phase := Switching)
  {
  }

  lemma SleepIs(s: State, ticks: nat, now: nat)
    requires s.current.Some? && s.current.value < |s.procs| && InRange(s.procs, s.sleep)
    ensures var c := s.current.value;
      var s1 := s.(procs := s.procs[c := s.procs[c].(wake := now + (if ticks == 0 then 1 else ticks), state := Waiting, remaining := 0)]);
      && (forall i :: 0 <= i < |Without(s.sleep, c)| ==> Without(s.sleep, c)[i] < |s.procs|)
      && SleepStep(s, ticks, now) ==
        if c == IDLE then s else s1.(sleep := InsertByWake(s1.procs, Without(s.sleep, c), c), phase := Switching)
  {
    hide InsertByWake, Without;
    WithoutSubset(s.sleep, s.current.value);
  }

  lemma ExitIs(s: State)
    requires s.current.Some? && s.current.value < |s.procs|
    ensures var c := s.current.value;
      ExitStep(s) == s.(procs := s.procs[c := s.procs[c].(state := Zombie)], sleep := Without(s.sleep, c), phase := Switching)
  {
    hide Without;
  }

  lemma PreemptIs(s: State)
    requires s.current.Some? && s.current.value < |s.procs|
    ensures var c := s.current.value;
      var p := s.procs[c];
      var s1 := s.(procs := s.procs[c := p.(dyn := if p.dyn < MAX_PRIORITY then p.dyn + 1 else p.dyn, state := Ready)]);
      Preempt(s) == if c == IDLE then s.(phase := Switching) else Enqueue(s1, c).(phase := Switching)
  {
    hide Enqueue;
  }

  lemma TickIs(s: State, now: nat)
    requires s.current.Some? && s.current.value < |s.procs|
    requires WakeSleepers(s, now).current == s.current && |WakeSleepers(s, now).procs| == |s.procs|
    ensures var s1, c := WakeSleepers(s, now), s.current.value;
      var left := if s1.procs[c].remaining > 0 then s1.procs[c].remaining - 1 else 0;
      var s2 := s1.(procs := s1.procs[c := s1.procs[c].(remaining := left)]);
      TickStep(s, now) ==
        if c == IDLE then (if Flatten(s1.queues) != [] then Preempt(s1) else s1) else if left == 0 then Preempt(s2) else s2
  {
    hide WakeSleepers, Preempt, Flatten;
  }

  lemma WakeStepIs(s: State, p: nat)
    requires p < |s.procs|
    ensures WakeStep(s, p) == if !s.procs[p].state.Waiting? then s else Awake(s.(sleep := Without(s.sleep, p)), p)
  {
    hide Awake, Without;
  }

  lemma FreeSlotStep(procs: seq<Proc>, i: nat)
    requires i <= |procs|
    ensures i == |procs| ==> FreeSlot(procs, i) == None
    ensures i < |procs| && (procs[i].state.Unused? || procs[i].state.Zombie?) ==> FreeSlot(procs, i) == Some(i)
    ensures i < |procs| && !(procs[i].state.Unused? || procs[i].state.Zombie?) ==> FreeSlot(procs, i) == FreeSlot(procs, i + 1)
  {
  }

  lemma CreateIs(s: State, priority: nat)
    ensures var slot := FreeSlot(s.procs, 0);
      && (slot.None? ==> CreateStep(s, priority) == s)
      && (slot.Some? ==>
        var s1 := s.(procs := s.procs[slot.value := NewProc(s.nextPid, Clamp(priority))], nextPid := s.nextPid + 1);
        CreateStep(s, priority) == Enqueue(s1, slot.value))
  {
    hide Enqueue, FreeSlot, NewProc, Clamp;
  }

  lemma ConfigureIs(s: State, p: nat, policy: Policy, weight: nat, deadline: nat, now: nat)
    requires p < |s.procs|
    ensures var w := if weight == 0 then DEFAULT_WEIGHT else weight;
      ConfigureStep(s, p, policy, weight, deadline, now) ==
        if policy.Fair? then s.(procs := s.procs[p := s.procs[p].(policy := Fair, weight := w, deadline := 0)])
        else s.(procs := s.procs[p := s.procs[p].(policy := Deadline, weight := w, deadline := if deadline != 0 && deadline < now then now + deadline else deadline)])
  {
  }

  lemma FinishSteps(s: State, c: nat)
    requires c < |s.procs|
    ensures var p := s.procs[c];
      var s1 := if c == IDLE || p.policy.Deadline? then s else s.(procs := s.procs[c := p.(vruntime := p.vruntime + Charge(p))]);
      var s2 := if p.state.Zombie? then s1.(procs := s1.procs[c := Reclaimed()], sleep := Without(s1.sleep, c)) else s1;
      Finish(s, c) == (if s2.procs[c].state.Ready? && c != IDLE then Enqueue(s2, c) else s2).(current := None)
  {
    hide Enqueue, Charge, Without;
  }

  /** A thread that ended is on no list. */
  lemma ExitedOff(s: State, c: nat)
    requires Ok(s) && s.phase.Switching? && s.current == Some(c) && c < |s.procs| && s.procs[c].state.Zombie?
    ensures !Queued(s.queues, c)
  {
    OkParts(s);
    hide Ok, Held;
    NotQueued(s, InHand(s), c);
  }

  lemma ReturnOf(s: State, now: nat)
    requires s.current.Some? ==> s.current.value < |s.procs|
    ensures Return(s, now) == WakeSleepers(if s.current.None? then s else Finish(s, s.current.value), now)
  {
    hide Finish, WakeSleepers;
  }

  lemma DispatchCases(s: State, now: nat)
    requires InRange(Return(s, now).procs, Flatten(Return(s, now).queues)) && IDLE < |Return(s, now).procs|
    ensures var r := Return(s, now);
      var next := Choice(r.procs, r.queues);
      && (next.None? ==> DispatchStep(s, now) == Start(r, IDLE))
      && (next.Some? && next.value < |r.procs| ==> DispatchStep(s, now) == Start(r.(queues := TakeOut(r.queues, next.value)), next.value))
  {
    hide Return, Choice, Start, TakeOut, Flatten;
  }

  lemma StartIs(s: State, p: nat)
    requires p < |s.procs|
    ensures Start(s, p) == s.(procs := s.procs[p := Armed(s.procs[p].(state := Running))], current := Some(p), phase := InThread)
  {
    hide Armed;
  }

  lemma BitmapIs(next: seq<int>, head: seq<int>, tail: seq<int>, bits: seq<bool>, on: seq<bool>, queues: Queues)
    requires RunLists(next, head, tail, bits, on, queues)
    ensures |bits| == 4 && (Flatten(queues) != [] <==> bits[0] || bits[1] || bits[2] || bits[3])
  {
    forall k | 0 <= k < LEVELS
      ensures bits[k] == (queues[k] != [])
    {
      RunListsAt(next, head, tail, bits, on, queues, k);
    }
    hide RunLists, Flatten;
    EmptyAhead(queues, bits);
  }

  /** Links and flag of a thread on no queue may be reset. */
  lemma OffQueue(next: seq<int>, head: seq<int>, tail: seq<int>, bits: seq<bool>, on: seq<bool>, queues: Queues, p: nat)
    requires RunLists(next, head, tail, bits, on, queues) && p < SLOTS && !Queued(queues, p)
    ensures |next| == |on| == SLOTS && RunLists(next[p := -1], head, tail, bits, on[p := false], queues)
  {
    hide *;
    RunListsParts(next, head, tail, bits, on, queues);
    forall k | 0 <= k < LEVELS
      ensures QueueWired(next[p := -1], head[k], tail[k], bits[k], queues[k])
    {
      RunListsAt(next, head, tail, bits, on, queues, k);
      NotOn(queues, p, k);
      LinkedFrame(next, next[p := -1], head[k], queues[k]);
      QueueWiredIntro(next[p := -1], head[k], tail[k], bits[k], queues[k]);
    }
    forall x | 0 <= x < SLOTS
      ensures on[p := false][x] == Queued(queues, x)
    {
      RunListsOn(next, head, tail, bits, on, queues, x);
    }
    RunListsIntro(next[p := -1], head, tail, bits, on[p := false], queues);
  }

  lemma LinkedOff(next: seq<int>, head: int, q: seq<nat>, p: nat)
    requires Linked(next, head, q) && p < |next| && p !in q
    ensures Linked(next[p := -1], head, q)
  {
    LinkedFrame(next, next[p := -1], head, q);
  }

  lemma EmptyLists(next: seq<int>, head: seq<int>, tail: seq<int>, bits: seq<bool>, on: seq<bool>, queues: Queues)
    requires |next| == |on| == SLOTS && |head| == |tail| == |bits| == |queues| == LEVELS
    requires forall k :: 0 <= k < LEVELS ==> head[k] == -1 && tail[k] == -1 && !bits[k] && queues[k] == []
    requires forall p :: 0 <= p < SLOTS ==> !on[p]
    ensures RunLists(next, head, tail, bits, on, queues)
  {
    assert forall k :: 0 <= k < LEVELS ==> QueueWired(next, head[k], tail[k], bits[k], queues[k]);
  }
}
