/**
 * The scheduler's calls as the kernel carries them out on its queues and
 * thread records (kernel/proc/sched.c, kthread.c, kmutex.c).  A call that
 * blocks ends where it enters sched_switch; Switch is the rest of that
 * function, and leaves the next thread running out of its own call.
 */
module Scheduler {
  import opened Basics
  import opened Sched
  import opened SchedRuns
  import opened SchedOrder
  import opened SchedCalls

  class Kernel {
    var threads: map<Tid, Thread>
    var queues: map<Qid, Queue>
    var mutexes: map<Mid, Mutex>
    var cur: Tid
    var switching: bool
    var ret: Ret

    function Now(): State
      reads this
    {
      State(threads, queues, mutexes, cur, switching, ret)
    }

    // ------------------------------------------------- the private operations

    /** ktqueue_enqueue. */
    method Enqueue(q: Qid, t: Tid)
      requires q in queues && t in threads && threads[t].wchan.None?
      modifies this`threads, this`queues
      ensures Now() == Sched.Enqueue(old(Now()), q, t)
    {
      queues := queues[q := Queue([t] + queues[q].list, queues[q].size + 1)];
      threads := threads[t := threads[t].(wchan := Some(q))];
    }

    /** ktqueue_dequeue. */
    method Dequeue(q: Qid) returns (r: Option<Tid>)
      requires q in queues && (queues[q].list != [] ==> Tail(Now(), q) in threads)
      modifies this`threads, this`queues
      ensures if old(queues[q].list) == [] then r.None? && Now() == old(Now())
              else r == Some(Tail(old(Now()), q)) && Now() == Sched.Dequeue(old(Now()), q)
    {
      if queues[q].list == [] { return None; }
      var t := queues[q].list[|queues[q].list| - 1];
      queues := queues[q := Queue(queues[q].list[..|queues[q].list| - 1], queues[q].size - 1)];
      threads := threads[t := threads[t].(wchan := None)];
      r := Some(t);
    }

    /** ktqueue_remove. */
    method Remove(q: Qid, t: Tid)
      requires q in queues && t in threads
      modifies this`threads, this`queues
      ensures Now() == RemoveFrom(old(Now()), q, t)
    {
      queues := queues[q := Queue(Without(queues[q].list, t), queues[q].size - 1)];
      threads := threads[t := threads[t].(wchan := None)];
    }

    method PutRunnable(t: Tid)
      requires RUNQ in queues && t in threads && threads[t].wchan.None?
      modifies this`threads, this`queues
      ensures Now() == MakeRunnable(old(Now()), t)
    {
      threads := threads[t := threads[t].(state := Running)];
      Enqueue(RUNQ, t);
    }

    /** The current thread sleeps, on behalf of mutex m or of none. */
    method Block(q: Qid, cancellable: bool, m: Option<Mid>)
      requires q in queues && cur in threads && threads[cur].wchan.None?
      modifies this
      ensures Now() == Sched.SleepOn(old(Now()), q, cancellable, m)
    {
      threads := threads[cur := threads[cur].(state := if cancellable then SleepCancellable else Sleep, call := Sleeping(cancellable, m))];
      Enqueue(q, cur);
      switching, ret := true, Nothing;
    }

    /** A sleep that a cancelled thread does not enter. */
    method BlockCancellable(q: Qid, m: Option<Mid>) returns (interrupted: bool)
      requires q in queues && cur in threads && threads[cur].wchan.None?
      modifies this
      ensures Now() == Sched.CancellableSleepOn(old(Now()), q, m) && interrupted == old(threads[cur].cancelled)
    {
      interrupted := threads[cur].cancelled;
      if interrupted {
        threads := threads[cur := threads[cur].(state := Exited)];
        ret := if m.Some? then LockInterrupted(m.value) else Interrupted;
      } else {
        Block(q, true, m);
      }
    }

    method WakeOldest(q: Qid) returns (r: Option<Tid>)
      requires q in queues && RUNQ in queues && (queues[q].list != [] ==> Tail(Now(), q) in threads)
      modifies this`threads, this`queues
      ensures Now() == Sched.WakeupOn(old(Now()), q)
      ensures r == if old(queues[q].list) == [] then None else Some(Tail(old(Now()), q))
    {
      r := Dequeue(q);
      if r.Some? { PutRunnable(r.value); }
    }

    // ----------------------------------------------------------------- threads

    /** kthread_create: the new thread is on no queue. */
    method Create(t: Tid)
      requires Good(Now()) && Enabled(Now(), Action.Create(t))
      modifies this`threads
      ensures Good(Now()) && Now() == Apply(old(Now()), Action.Create(t))
      ensures t in threads && threads[t].state == NoState && !threads[t].cancelled && threads[t].call == NoCall
      ensures Only(old(Now()), Now(), {t}, {}) && forall q :: q in queues ==> t !in queues[q].list
    {
      StepGood(Now(), Action.Create(t));
      threads := threads[t := Thread(NoState, false, None, NoCall)];
      OnNoQueue(Now(), t);
    }

    /** sched_make_runnable for a new thread: it is the last to run. */
    method Start(t: Tid)
      requires Good(Now()) && Enabled(Now(), Action.Start(t))
      modifies this`threads, this`queues
      ensures Good(Now()) && Now() == Apply(old(Now()), Action.Start(t))
      ensures RUNQ in old(queues) && AtDist(Now(), |old(queues[RUNQ].list)|, t)
      ensures Only(old(Now()), Now(), {t}, {RUNQ}) && Readied(old(Now()), Now(), t)
    {
      hide SchedInv, MutexesOk;
      StepGood(Now(), Action.Start(t));
      Idle(Now(), t);
      PutRunnable(t);
    }

    /** kthread_exit, up to the switch: the thread is on no queue; that it never runs again is ThreadExit.NeverRunsAgain. */
    method Exit()
      requires Good(Now()) && Enabled(Now(), DoExit)
      modifies this
      ensures Good(Now()) && Now() == Apply(old(Now()), DoExit)
      ensures cur in threads && threads[cur].state == Exited && switching && forall q :: q in queues ==> cur !in queues[q].list
      ensures cur == old(cur) && mutexes == old(mutexes) && Only(old(Now()), Now(), {cur}, {})
    {
      StepGood(Now(), DoExit);
      threads := threads[cur := threads[cur].(state := Exited)];
      switching, ret := true, Nothing;
      OnNoQueue(Now(), cur);
    }

    /** sched_cancel: a cancellable sleep ends, its thread is the last to run; otherwise it stays where it is. */
    method Cancel(t: Tid)
      requires Good(Now()) && Enabled(Now(), DoCancel(t))
      modifies this`threads, this`queues
      ensures Good(Now()) && Now() == Apply(old(Now()), DoCancel(t))
      ensures t in threads && threads[t].cancelled && RUNQ in old(queues)
      ensures if old(threads[t].state) == SleepCancellable
        then AtDist(Now(), |old(queues[RUNQ].list)|, t) && Interrupts(old(Now()), Now(), t)
        else queues == old(queues) && threads == old(threads)[t := old(threads[t]).(cancelled := true)]
    {
      hide SchedInv, MutexesOk;
      StepGood(Now(), DoCancel(t));
      Cancellable(Now(), t);
      threads := threads[t := threads[t].(cancelled := true)];
      if threads[t].state == SleepCancellable {
        Remove(threads[t].wchan.value, t);
        PutRunnable(t);
      }
    }

    // ------------------------------------------------------------------ queues

    /** sched_sleep_on: the caller is the newest sleeper on the queue. */
    method SleepOn(q: Qid)
      requires Good(Now()) && Enabled(Now(), DoSleep(q))
      modifies this
      ensures Good(Now()) && Now() == Apply(old(Now()), DoSleep(q))
      ensures q in queues && queues[q].list == [cur] + old(queues[q].list) && switching
      ensures cur == old(cur) && mutexes == old(mutexes)
      ensures InCall(Now(), cur, Sleeping(false, None)) && Only(old(Now()), Now(), {cur}, {q})
    {
      hide SchedInv, MutexesOk;
      StepGood(Now(), DoSleep(q));
      Current(Now());
      Block(q, false, None);
    }

    /** sched_cancellable_sleep_on: so is this one, unless it had been cancelled before. */
    method CancellableSleepOn(q: Qid) returns (interrupted: bool)
      requires Good(Now()) && Enabled(Now(), DoCancellableSleep(q))
      modifies this
      ensures Good(Now()) && Now() == Apply(old(Now()), DoCancellableSleep(q))
      ensures interrupted <==> old(cur) in old(threads) && old(threads)[old(cur)].cancelled
      ensures switching <==> !interrupted
      ensures q in queues && queues[q].list == if interrupted then old(queues[q].list) else [cur] + old(queues[q].list)
      ensures cur == old(cur) && cur in threads && mutexes == old(mutexes) && Only(old(Now()), Now(), {cur}, {q})
      ensures if interrupted then ret == Interrupted && threads[cur].state == Exited else InCall(Now(), cur, Sleeping(true, None))
    {
      hide SchedInv, MutexesOk;
      StepGood(Now(), DoCancellableSleep(q));
      Current(Now());
      interrupted := BlockCancellable(q, None);
    }

    /** sched_wakeup_on: the oldest sleeper, if any, is the last to run. */
    method WakeupOn(q: Qid) returns (r: Option<Tid>)
      requires Good(Now()) && Enabled(Now(), DoWakeup(q))
      modifies this`threads, this`queues
      ensures Good(Now()) && Now() == Apply(old(Now()), DoWakeup(q))
      ensures r.None? <==> old(queues[q].list) == []
      ensures r.Some? ==>
        && RUNQ in old(queues) && AtDist(Now(), |old(queues[RUNQ].list)|, r.value)
        && q in queues && old(queues[q].list) == queues[q].list + [r.value]
        && Only(old(Now()), Now(), {r.value}, {q, RUNQ}) && Readied(old(Now()), Now(), r.value)
      ensures r.None? ==> Now() == old(Now())
    {
      hide SchedInv, MutexesOk;
      StepGood(Now(), DoWakeup(q));
      WakeupInv(Now(), q);
      r := WakeOldest(q);
    }

    /** sched_broadcast_on: every sleeper is behind those who could run, in the order in which they fell asleep. */
    method BroadcastOn(q: Qid)
      requires Good(Now()) && Enabled(Now(), DoBroadcast(q))
      modifies this`threads, this`queues
      ensures Good(Now()) && Now() == Apply(old(Now()), DoBroadcast(q))
      ensures q in queues && queues[q].list == [] && RUNQ in queues && RUNQ in old(queues)
      ensures queues[RUNQ].list == old(queues[q].list) + old(queues[RUNQ].list)
      ensures Only(old(Now()), Now(), Members(old(queues[q].list)), {q, RUNQ})
      ensures forall t :: t in old(queues[q].list) ==> Readied(old(Now()), Now(), t)
    {
      hide SchedInv, MutexesOk, Sched.WakeupOn, SchedRuns.BroadcastOn, Only, Readied;
      ghost var s0 := Now();
      BroadcastOnly(s0, q, |s0.queues[q].list|);
      StepGood(s0, DoBroadcast(q));
      HasQueues(s0);
      while queues[q].list != []
        invariant Good(Now()) && PlainQueue(Now(), q) && RUNQ in queues
        invariant SchedRuns.BroadcastOn(Now(), q, |queues[q].list|) == SchedRuns.BroadcastOn(s0, q, |s0.queues[q].list|)
        invariant queues[q].list + queues[RUNQ].list == s0.queues[q].list + s0.queues[RUNQ].list
        decreases |queues[q].list|
      {
        WakeupInv(Now(), q);
        WakeupMutexes(Now(), q);
        WakeupShrinks(Now(), q);
        var t := WakeOldest(q);
      }
      NoneLeft(Now(), q);
    }

    /**
     * The end of sched_switch, once the run queue has a thread, and the
     * resumed thread's way out of its call: the oldest runnable thread runs,
     * and if that is out of a lock call that succeeded it holds the mutex.
     */
    method Switch()
      requires Good(Now()) && Enabled(Now(), DoDispatch)
      modifies this
      ensures Good(Now()) && Now() == Apply(old(Now()), DoDispatch)
      ensures AtDist(old(Now()), 0, cur) && !switching
      ensures ret.Locked? ==> ret.m in mutexes && mutexes[ret.m].holder == Some(cur)
      ensures mutexes == old(mutexes) && Only(old(Now()), Now(), {cur}, {RUNQ})
      ensures RUNQ in queues && old(queues[RUNQ].list) == queues[RUNQ].list + [cur]
      ensures cur in old(threads) && (old(threads)[cur].call.Sleeping? ==>
        Returned(Now(), cur, old(threads)[cur].call, old(threads)[cur].cancelled))
      ensures old(threads)[cur].call == NoCall ==> ret == Nothing && cur in threads && threads[cur].state == Running
    {
      hide SchedInv, MutexesOk, Returned, Only;
      ghost var s0 := Now();
      StepGood(s0, DoDispatch);
      DispatchInv(s0);
      FirstInLine(s0);
      DispatchOnly(s0);
      var next := Dequeue(RUNQ);
      cur := next.value;
      ret := Resumed(threads[cur]);
      if ret.Interrupted? || ret.LockInterrupted? { threads := threads[cur := threads[cur].(state := Exited)]; }
      threads := threads[cur := threads[cur].(call := NoCall)];
      switching := false;
      assert Now() == Apply(s0, DoDispatch);
      if ret.Locked? { LockReturns(s0, DoDispatch, ret.m); }
      if s0.threads[cur].call.Sleeping? { DispatchCalls(s0, cur, s0.threads[cur].call); }
    }

    // ----------------------------------------------------------------- mutexes

    /** kmutex_lock: the caller has the mutex at once if it was free, and is otherwise the newest waiter. */
    method Lock(m: Mid)
      requires Good(Now()) && Enabled(Now(), DoLock(m))
      modifies this
      ensures Good(Now()) && Now() == Apply(old(Now()), DoLock(m)) && m in mutexes
      ensures switching <==> old(mutexes[m].holder).Some?
      ensures !switching ==> mutexes[m].holder == Some(cur) && ret == Locked(m) && queues == old(queues)
      ensures switching ==> mutexes == old(mutexes) && NewestWaiter(old(Now()), Now(), m)
      ensures cur == old(cur) && (if switching then InCall(Now(), cur, Sleeping(false, Some(m))) else threads == old(threads))
      ensures Only(old(Now()), Now(), {cur}, {mutexes[m].waitq}) && OnlyMutex(old(Now()), Now(), m)
    {
      hide SchedInv, MutexesOk;
      StepGood(Now(), DoLock(m));
      Current(Now());
      WaitqFacts(Now(), m);
      if mutexes[m].holder.None? {
        mutexes := mutexes[m := Mutex(Some(cur), mutexes[m].waitq)];
        ret := Locked(m);
      } else {
        Block(mutexes[m].waitq, false, Some(m));
      }
    }

    /** kmutex_lock_cancellable: a caller that has been cancelled neither waits for a held mutex nor gets it. */
    method LockCancellable(m: Mid) returns (interrupted: bool)
      requires Good(Now()) && Enabled(Now(), DoLockCancellable(m))
      modifies this
      ensures Good(Now()) && Now() == Apply(old(Now()), DoLockCancellable(m)) && m in mutexes
      ensures interrupted <==> old(mutexes[m].holder).Some? && old(cur) in old(threads) && old(threads)[old(cur)].cancelled
      ensures switching <==> old(mutexes[m].holder).Some? && !interrupted
      ensures !switching && !interrupted ==> mutexes[m].holder == Some(cur) && ret == Locked(m) && queues == old(queues)
      ensures interrupted ==> mutexes[m].holder != Some(cur) && ret == LockInterrupted(m) && queues == old(queues)
      ensures switching ==> mutexes == old(mutexes) && NewestWaiter(old(Now()), Now(), m)
      ensures cur == old(cur) && Only(old(Now()), Now(), {cur}, {mutexes[m].waitq}) && OnlyMutex(old(Now()), Now(), m)
      ensures switching ==> InCall(Now(), cur, Sleeping(true, Some(m)))
      ensures interrupted ==> cur in threads && threads[cur].state == Exited
      ensures !switching && !interrupted ==> threads == old(threads)
    {
      hide SchedInv, MutexesOk;
      StepGood(Now(), DoLockCancellable(m));
      Current(Now());
      WaitqFacts(Now(), m);
      interrupted := false;
      if mutexes[m].holder.None? {
        mutexes := mutexes[m := Mutex(Some(cur), mutexes[m].waitq)];
        ret := Locked(m);
      } else {
        interrupted := BlockCancellable(mutexes[m].waitq, Some(m));
      }
    }

    /** kmutex_unlock: the oldest waiter has the mutex and is the last to run; without one the mutex is free. */
    method Unlock(m: Mid)
      requires Good(Now()) && Enabled(Now(), DoUnlock(m))
      modifies this
      ensures Good(Now()) && Now() == Apply(old(Now()), DoUnlock(m)) && m in mutexes
      ensures mutexes[m].holder.None? <==> NoWaiter(old(Now()), m)
      ensures mutexes[m].holder.Some? ==>
        && RUNQ in old(queues) && AtDist(Now(), |old(queues[RUNQ].list)|, mutexes[m].holder.value)
        && OldestWaiter(old(Now()), Now(), m, mutexes[m].holder.value)
        && Only(old(Now()), Now(), {mutexes[m].holder.value}, {mutexes[m].waitq, RUNQ})
        && Readied(old(Now()), Now(), mutexes[m].holder.value)
      ensures mutexes[m].holder.None? ==> threads == old(threads) && queues == old(queues)
      ensures cur == old(cur) && !switching && OnlyMutex(old(Now()), Now(), m)
    {
      hide SchedInv, MutexesOk, Only, Readied, OnlyMutex;
      ghost var s0 := Now();
      StepGood(s0, DoUnlock(m));
      UnlockGood(s0, m);
      UnlockOnly(s0, m);
      WaitqFacts(s0, m);
      var next := WakeOldest(mutexes[m].waitq);
      mutexes := mutexes[m := Mutex(next, mutexes[m].waitq)];
    }
  }

  // -------------------------------------------------------- what is left alone

  /** Threads other than those of ts, and queues other than those of qs, are as before. */
  ghost predicate Only(s: State, e: State, ts: set<Tid>, qs: set<Qid>) {
    && s.threads.Keys <= e.threads.Keys <= s.threads.Keys + ts && e.queues.Keys == s.queues.Keys
    && (forall t :: t in s.threads && t !in ts ==> e.threads[t] == s.threads[t])
    && (forall q :: q in s.queues && q !in qs ==> e.queues[q] == s.queues[q])
  }

  function Members(l: seq<Tid>): set<Tid> { set t | t in l }

  /** Mutexes other than m are as before, and so is the queue of m. */
  ghost predicate OnlyMutex(s: State, e: State, m: Mid) {
    && m in s.mutexes && e.mutexes.Keys == s.mutexes.Keys && e.mutexes[m].waitq == s.mutexes[m].waitq
    && (forall k :: k in s.mutexes && k != m ==> e.mutexes[k] == s.mutexes[k])
  }

  /** t has become runnable, still in its call and as cancelled as it was. */
  ghost predicate Readied(s: State, e: State, t: Tid) {
    && t in s.threads && t in e.threads && e.threads[t].state == Running
    && e.threads[t].call == s.threads[t].call && e.threads[t].cancelled == s.threads[t].cancelled
  }

  /** t, now cancelled, has been taken off the queue on which it slept, and is runnable. */
  ghost predicate Interrupts(s: State, e: State, t: Tid) {
    && t in s.threads && s.threads[t].wchan.Some? && t in e.threads
    && e.threads[t].state == Running && e.threads[t].cancelled && e.threads[t].call == s.threads[t].call
    && var q := s.threads[t].wchan.value;
    && Only(s, e, {t}, {q, RUNQ}) && q in s.queues && e.queues[q].list == Without(s.queues[q].list, t)
  }

  // ------------------------------------------------------- waiters of a mutex

  ghost predicate NoWaiter(s: State, m: Mid) {
    m in s.mutexes && s.mutexes[m].waitq in s.queues && s.queues[s.mutexes[m].waitq].list == []
  }

  /** The current thread has joined m's queue behind the others. */
  ghost predicate NewestWaiter(s: State, e: State, m: Mid) {
    && m in s.mutexes && s.mutexes[m].waitq in s.queues && s.mutexes[m].waitq in e.queues
    && e.queues[s.mutexes[m].waitq].list == [s.cur] + s.queues[s.mutexes[m].waitq].list
  }

  /** t, which waited longest for m, has left its queue, and the others are in the same order. */
  ghost predicate OldestWaiter(s: State, e: State, m: Mid, t: Tid) {
    && m in s.mutexes && s.mutexes[m].waitq in s.queues && s.mutexes[m].waitq in e.queues
    && s.queues[s.mutexes[m].waitq].list == e.queues[s.mutexes[m].waitq].list + [t]
  }

  // ------------------------------------------------ what the invariant gives

  lemma HasQueues(s: State)
    requires Good(s)
    ensures RUNQ in s.queues
  {
  }

  lemma Current(s: State)
    requires Good(s) && !s.switching
    ensures s.cur in s.threads && s.threads[s.cur].wchan.None? && RUNQ in s.queues
  {
    HasQueues(s);
    InvAt(s, s.cur);
  }

  lemma Idle(s: State, t: Tid)
    requires Good(s) && Enabled(s, Action.Start(t))
    ensures s.threads[t].wchan.None? && RUNQ in s.queues
  {
    HasQueues(s);
    InvAt(s, t);
  }

  lemma Cancellable(s: State, t: Tid)
    requires Good(s) && Enabled(s, DoCancel(t))
    ensures RUNQ in s.queues
    ensures s.threads[t].state == SleepCancellable ==> s.threads[t].wchan.Some? && s.threads[t].wchan.value in s.queues && s.threads[t].wchan != Some(RUNQ)
  {
    HasQueues(s);
    InvAt(s, t);
    if s.threads[t].wchan.Some? { WchanKnown(s, t); }
    hide SchedInv, MutexesOk;
  }

  lemma WakeupOnly(s: State, q: Qid)
    requires SchedInv(s) && q in s.queues && q != RUNQ
    ensures RUNQ in s.queues && (s.queues[q].list != [] ==> Tail(s, q) in s.threads)
    ensures s.queues[q].list != [] ==>
      && Only(s, WakeupOn(s, q), {Tail(s, q)}, {q, RUNQ}) && Readied(s, WakeupOn(s, q), Tail(s, q))
      && s.queues[q].list == WakeupOn(s, q).queues[q].list + [Tail(s, q)] && Tail(s, q) !in WakeupOn(s, q).queues[q].list
  {
    hide SchedInv, NoDup;
    WakeupInv(s, q);
    NoneTwice(s, q);
    if s.queues[q].list != [] { LastGone(s.queues[q].list); }
  }

  lemma NoneTwice(s: State, q: Qid)
    requires SchedInv(s) && q in s.queues
    ensures NoDup(s.queues[q].list)
  {
    assert QueueOk(s, q);
  }

  lemma UnlockOnly(s: State, m: Mid)
    requires Good(s) && Enabled(s, DoUnlock(m))
    ensures OnlyMutex(s, Apply(s, DoUnlock(m)), m) && s.mutexes[m].waitq in s.queues && RUNQ in s.queues
    ensures s.queues[s.mutexes[m].waitq].list != [] ==>
      && var t := Tail(s, s.mutexes[m].waitq);
      && Only(s, Apply(s, DoUnlock(m)), {t}, {s.mutexes[m].waitq, RUNQ}) && Readied(s, Apply(s, DoUnlock(m)), t)
  {
    hide SchedInv, MutexesOk, WakeupOn;
    WaitqFacts(s, m);
    WakeupOnly(s, s.mutexes[m].waitq);
    WakeupMutexesSame(s, s.mutexes[m].waitq);
  }

  lemma WakeupMutexesSame(s: State, q: Qid)
    requires q in s.queues && RUNQ in s.queues && (s.queues[q].list != [] ==> Tail(s, q) in s.threads)
    ensures WakeupOn(s, q).mutexes == s.mutexes
  {
  }

  lemma OnlyNone(s: State, ts: set<Tid>, qs: set<Qid>)
    ensures Only(s, s, ts, qs)
  {
  }

  /** One thread is readied and leaves the queue, then the rest of the queue is. */
  lemma OnlyBoth(s: State, s1: State, e: State, t: Tid, l: seq<Tid>, q: Qid)
    requires Only(s, s1, {t}, {q, RUNQ}) && Readied(s, s1, t) && t !in l
    requires Only(s1, e, Members(l), {q, RUNQ}) && forall u :: u in l ==> Readied(s1, e, u)
    ensures Only(s, e, Members(l + [t]), {q, RUNQ}) && forall u :: u in l + [t] ==> Readied(s, e, u)
  {
    forall u | u in l ensures Readied(s, e, u) { assert Readied(s1, e, u); }
  }

  lemma {:induction false} BroadcastOnly(s: State, q: Qid, n: nat)
    requires Good(s) && PlainQueue(s, q) && n == |s.queues[q].list|
    ensures RUNQ in s.queues
    ensures Only(s, SchedRuns.BroadcastOn(s, q, n), Members(s.queues[q].list), {q, RUNQ})
    ensures forall t :: t in s.queues[q].list ==> Readied(s, SchedRuns.BroadcastOn(s, q, n), t)
    decreases n
  {
    hide SchedInv, MutexesOk, Sched.WakeupOn, Only, Readied;
    WakeupOnly(s, q);
    if n == 0 { OnlyNone(s, Members(s.queues[q].list), {q, RUNQ}); }
    if n > 0 {
      var s1 := Sched.WakeupOn(s, q);
      WakeupInv(s, q);
      WakeupMutexes(s, q);
      StillPlain(s, q);
      BroadcastOnly(s1, q, n - 1);
      OnlyBoth(s, s1, SchedRuns.BroadcastOn(s1, q, n - 1), Tail(s, q), s1.queues[q].list, q);
    }
  }

  lemma DispatchOnly(s: State)
    requires Good(s) && Enabled(s, DoDispatch)
    ensures var e := Apply(s, DoDispatch);
      && e.mutexes == s.mutexes && Only(s, e, {e.cur}, {RUNQ})
      && RUNQ in s.queues && s.queues[RUNQ].list == e.queues[RUNQ].list + [e.cur]
  {
    hide SchedInv, MutexesOk;
    DispatchInv(s);
  }

  /** The dispatched thread was runnable. */
  lemma FirstInLine(s: State)
    requires Good(s) && Enabled(s, DoDispatch)
    ensures Tail(s, RUNQ) in s.threads && s.threads[Tail(s, RUNQ)].state == Running
  {
    hide MutexesOk;
    DispatchInv(s);
    assert QueueOk(s, RUNQ) && Tail(s, RUNQ) in s.queues[RUNQ].list;
    assert StateOk(s, Tail(s, RUNQ));
  }

  lemma OnNoQueue(s: State, t: Tid)
    requires Good(s) && t in s.threads && s.threads[t].wchan.None?
    ensures forall q :: q in s.queues ==> t !in s.queues[q].list
  {
    forall q | q in s.queues ensures t !in s.queues[q].list { assert QueueOk(s, q); }
    hide MutexesOk;
  }

  lemma WakeupShrinks(s: State, q: Qid)
    requires Good(s) && PlainQueue(s, q) && s.queues[q].list != [] && RUNQ in s.queues && Tail(s, q) in s.threads
    ensures q in WakeupOn(s, q).queues && |WakeupOn(s, q).queues[q].list| == |s.queues[q].list| - 1
    ensures SchedRuns.BroadcastOn(WakeupOn(s, q), q, |s.queues[q].list| - 1) == SchedRuns.BroadcastOn(s, q, |s.queues[q].list|)
    ensures PlainQueue(WakeupOn(s, q), q) && RUNQ in WakeupOn(s, q).queues
    ensures WakeupOn(s, q).queues[q].list + WakeupOn(s, q).queues[RUNQ].list == s.queues[q].list + s.queues[RUNQ].list
  {
    hide SchedInv, MutexesOk;
  }

  lemma NoneLeft(s: State, q: Qid)
    requires q in s.queues && RUNQ in s.queues && s.queues[q].list == []
    ensures SchedRuns.BroadcastOn(s, q, 0) == s && s.queues[q].list + s.queues[RUNQ].list == s.queues[RUNQ].list
  {
  }
}
