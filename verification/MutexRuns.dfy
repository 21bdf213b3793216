/**
 * Who gets a mutex, over whole runs: waiters that are not cancelled get it in
 * the order in which they blocked, and a cancellable lock call that reports an
 * interruption leaves its caller the holder exactly when the cancel came after
 * the hand-off (kernel/proc/kmutex.c, sched.c:125-162, 227-247).
 */
module MutexRuns {
  import opened Basics
  import opened Sched
  import opened SchedRuns
  import opened SchedOrder
  import opened SchedCalls

  // -------------------------------------------------- the order of acquisition

  /** What a cancel does to a mutex and its queue. */
  lemma CancelEffect(s: State, x: Tid, m: Mid)
    requires Good(s) && Enabled(s, DoCancel(x)) && m in s.mutexes
    ensures var e := Apply(s, DoCancel(x)); var q := s.mutexes[m].waitq;
      && q in s.queues && q in e.queues && m in e.mutexes && e.mutexes[m] == s.mutexes[m]
      && (forall t :: t in e.queues[q].list ==> t in s.queues[q].list)
      && (forall t :: t in s.queues[q].list && t != x ==> t in e.queues[q].list)
  {
    hide SchedInv, MutexesOk, Without;
    WaitqFacts(s, m);
    CancelInv(s, x);
    WithoutIs(s.queues[s.mutexes[m].waitq].list, x);
  }

  /** A waiter that is not cancelled leaves the queue only as the holder. */
  lemma LeavesAsHolder(s: State, a: Action, m: Mid, t: Tid)
    requires Good(s) && Enabled(s, a) && OnMutexQueue(s, t, m) && a != DoCancel(t)
    ensures m in Apply(s, a).mutexes
    ensures OnMutexQueue(Apply(s, a), t, m) || Apply(s, a).mutexes[m].holder == Some(t)
  {
    hide SchedInv, MutexesOk, LockOn, UnlockOf, CancelThread, BroadcastOn, AtDist;
    match a
    case DoBroadcast(q) => BroadcastEffect(s, q, |s.queues[q].list|, m);
    case DoCancel(x) => CancelEffect(s, x, m);
    case DoLock(k) => LockEffect(s, k, false, m);
    case DoLockCancellable(k) => LockEffect(s, k, true, m);
    case DoUnlock(k) =>
      if k == m {
        HandOff(s, m);
        UnlockKeeps(s, m);
        var l := s.queues[s.mutexes[m].waitq].list;
        if t != l[|l| - 1] { NotLast(l, t); }
      } else {
        UnlockOther(s, k, m);
      }
    case _ => PlainEffect(s, a, m);
  }

  /** t holds m in some state of the run. */
  ghost predicate Acquires(s: State, acts: seq<Action>, m: Mid, t: Tid)
    requires Good(s) && Legal(s, acts)
    decreases |acts|
  {
    || (m in s.mutexes && s.mutexes[m].holder == Some(t))
    || (acts != [] && (StepGood(s, acts[0]); Acquires(Apply(s, acts[0]), acts[1..], m, t)))
  }

  /**
   * First come, first served: if u was not before t on the queue of m, and t
   * is not cancelled, then u holds m only after t has held it.
   */
  lemma {:induction false} AcquireInOrder(s: State, acts: seq<Action>, m: Mid, t: Tid, u: Tid)
    requires Good(s) && Legal(s, acts) && Ahead(s, m, t, u) && DoCancel(t) !in acts
    requires m in Run(s, acts).mutexes && Run(s, acts).mutexes[m].holder == Some(u)
    ensures Acquires(s, acts, m, t)
    decreases |acts|
  {
    hide SchedInv, MutexesOk, Apply, Enabled;
    if acts != [] {
      StepGood(s, acts[0]);
      var s1 := Apply(s, acts[0]);
      LeavesAsHolder(s, acts[0], m, t);
      if OnMutexQueue(s1, t, m) {
        StepAhead(s, acts[0], m, t, u);
        AcquireInOrder(s1, acts[1..], m, t, u);
      } else {
        Already(s1, acts[1..], m, t);
      }
    }
  }

  lemma Already(s: State, acts: seq<Action>, m: Mid, t: Tid)
    requires Good(s) && Legal(s, acts) && m in s.mutexes && s.mutexes[m].holder == Some(t)
    ensures Acquires(s, acts, m, t)
  {
  }

  // ---------------------------------------------------------- interruptions

  /** t is suspended in a cancellable call to lock m. */
  ghost predicate InLock(s: State, t: Tid, m: Mid) {
    InCall(s, t, Sleeping(true, Some(m)))
  }

  lemma NotRunning(s: State, t: Tid, m: Mid)
    requires Good(s) && InLock(s, t, m)
    ensures !Runs(s, t) && WaiterOk(s, t, m) && m in s.mutexes && MutexOk(s, m)
  {
    InvAt(s, t);
    WaiterAt(s, t, m);
    MutexAt(s, m);
    hide SchedInv, MutexesOk;
  }

  /**
   * A cancel decides: the thread now has the mutex exactly if it was already
   * off the queue, and in any case waits for it no more.
   */
  lemma CancelDecides(s: State, t: Tid, m: Mid)
    requires Good(s) && Enabled(s, DoCancel(t)) && InLock(s, t, m) && !s.threads[t].cancelled
    ensures var e := Apply(s, DoCancel(t));
      && InLock(e, t, m) && e.threads[t].cancelled && !OnMutexQueue(e, t, m)
      && m in e.mutexes && (e.mutexes[m].holder == Some(t) <==> !OnMutexQueue(s, t, m))
  {
    hide SchedInv, MutexesOk, Without;
    NotRunning(s, t, m);
    WaitqFacts(s, m);
    InvAt(s, t);
    WithoutIs(s.queues[s.mutexes[m].waitq].list, t);
  }

  /** Once a thread is off the queue, only it could change whether it holds the mutex. */
  lemma HolderStable(s: State, a: Action, t: Tid, m: Mid)
    requires Good(s) && Enabled(s, a) && InLock(s, t, m) && !OnMutexQueue(s, t, m)
    ensures m in s.mutexes && m in Apply(s, a).mutexes && !OnMutexQueue(Apply(s, a), t, m)
    ensures Apply(s, a).mutexes[m].holder == Some(t) <==> s.mutexes[m].holder == Some(t)
  {
    hide SchedInv, MutexesOk, LockOn, UnlockOf, CancelThread, BroadcastOn, AtDist;
    NotRunning(s, t, m);
    match a
    case DoBroadcast(q) => BroadcastEffect(s, q, |s.queues[q].list|, m);
    case DoCancel(x) => CancelEffect(s, x, m);
    case DoLock(k) => LockEffect(s, k, false, m);
    case DoLockCancellable(k) => LockEffect(s, k, true, m);
    case DoUnlock(k) => if k == m { HandOff(s, m); UnlockKeeps(s, m); } else { UnlockOther(s, k, m); }
    case _ => PlainEffect(s, a, m);
  }

  // ------------------------------------------- interruptions over whole runs

  /** t was on the queue of m when it was first cancelled. */
  ghost predicate QueuedAtCancel(s: State, acts: seq<Action>, t: Tid, m: Mid)
    requires Good(s) && Legal(s, acts)
    decreases |acts|
  {
    acts != [] &&
    if acts[0] == DoCancel(t) then OnMutexQueue(s, t, m)
    else (StepGood(s, acts[0]); QueuedAtCancel(Apply(s, acts[0]), acts[1..], t, m))
  }

  /** Off the queue, a suspended thread keeps or lacks the mutex until it is back. */
  lemma {:induction false} StaysDecided(s: State, acts: seq<Action>, t: Tid, m: Mid)
    requires Good(s) && Legal(s, acts) && Suspended(s, acts, t, Sleeping(true, Some(m))) && m in s.mutexes && !OnMutexQueue(s, t, m)
    ensures m in Run(s, acts).mutexes && (Run(s, acts).mutexes[m].holder == Some(t) <==> s.mutexes[m].holder == Some(t))
    decreases |acts|
  {
    hide SchedInv, MutexesOk, Apply, Enabled;
    if acts != [] {
      StepGood(s, acts[0]);
      HolderStable(s, acts[0], t, m);
      StaysDecided(Apply(s, acts[0]), acts[1..], t, m);
    }
  }

  /** The call returns interrupted exactly when its thread was cancelled on the way. */
  lemma ReturnsInterrupted(s: State, acts: seq<Action>, t: Tid, m: Mid)
    requires Good(s) && Legal(s, acts) && Suspended(s, acts, t, Sleeping(true, Some(m))) && acts != []
    requires !InLock(Run(s, acts), t, m)
    ensures Run(s, acts).cur == t && !Run(s, acts).switching
    ensures Run(s, acts).ret == if s.threads[t].cancelled || DoCancel(t) in acts then LockInterrupted(m) else Locked(m)
  {
    CallReturns(s, acts, t, Sleeping(true, Some(m)));
  }

  /**
   * A cancellable lock call that had to wait and reports an interruption has
   * left its caller the holder exactly when the caller was off the queue, that
   * is, had been handed the mutex, when it was cancelled.
   */
  lemma {:induction false} InterruptedExactly(s: State, acts: seq<Action>, t: Tid, m: Mid)
    requires Good(s) && Legal(s, acts) && Suspended(s, acts, t, Sleeping(true, Some(m))) && InLock(s, t, m) && !s.threads[t].cancelled
    requires !InLock(Run(s, acts), t, m) && Run(s, acts).ret == LockInterrupted(m)
    ensures Run(s, acts).cur == t && m in Run(s, acts).mutexes && DoCancel(t) in acts
    ensures Run(s, acts).mutexes[m].holder == Some(t) <==> !QueuedAtCancel(s, acts, t, m)
    decreases |acts|
  {
    hide SchedInv, MutexesOk, Apply, Enabled;
    ReturnsInterrupted(s, acts, t, m);
    StepGood(s, acts[0]);
    var s1 := Apply(s, acts[0]);
    assert acts == [acts[0]] + acts[1..];
    if acts[0] == DoCancel(t) {
      CancelDecides(s, t, m);
      StaysDecided(s1, acts[1..], t, m);
    } else {
      CallStays(s, acts[0], t, Sleeping(true, Some(m)));
      if |acts| > 1 { InterruptedExactly(s1, acts[1..], t, m); }
    }
  }

  /** A call that is interrupted without waiting does not get the mutex. */
  lemma InterruptedAtOnce(s: State, m: Mid)
    requires Good(s) && Enabled(s, DoLockCancellable(m)) && Apply(s, DoLockCancellable(m)).ret == LockInterrupted(m)
    ensures var e := Apply(s, DoLockCancellable(m));
      && !e.switching && e.cur == s.cur && m in e.mutexes && e.mutexes[m] == s.mutexes[m] && e.mutexes[m].holder != Some(e.cur)
  {
    hide SchedInv, MutexesOk;
    LockGood(s, m, true);
  }
}
