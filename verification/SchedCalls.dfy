/**
 * Blocking calls over whole runs: a thread stays in the call in which it is
 * suspended until it is dispatched, and what the call returns depends only on
 * the kind of the call and on whether the thread was cancelled
 * (kernel/proc/sched.c:102-162, 285-351, kernel/proc/kmutex.c:32-83).
 */
module SchedCalls {
  import opened Basics
  import opened Sched
  import opened SchedRuns
  import opened SchedOrder

  /** t is suspended in call c. */
  ghost predicate InCall(s: State, t: Tid, c: Call) {
    c.Sleeping? && t in s.threads && s.threads[t].call == c
  }

  /** t runs, back from call c, with the result that a thread cancelled or not gets. */
  ghost predicate Returned(e: State, t: Tid, c: Call, cancelled: bool) {
    && c.Sleeping? && e.cur == t && !e.switching && t in e.threads && e.threads[t].call == NoCall
    && (c == Sleeping(true, None) ==> e.ret == if cancelled then Interrupted else Slept)
    && (c == Sleeping(false, None) ==> e.ret == Slept)
    && (forall m :: c == Sleeping(true, Some(m)) ==> e.ret == if cancelled then LockInterrupted(m) else Locked(m))
    && (forall m :: c == Sleeping(false, Some(m)) ==> e.ret == Locked(m))
    && e.threads[t].state == if c.cancellable && cancelled then Exited else Running
  }

  lemma Awaits(s: State, t: Tid, c: Call)
    requires Good(s) && InCall(s, t, c)
    ensures !Runs(s, t)
  {
    InvAt(s, t);
    hide SchedInv, MutexesOk;
  }

  /** The thread is in the same call as before, and neither more nor less cancelled. */
  ghost predicate SameCall(s: State, e: State, t: Tid) {
    && t in s.threads && t in e.threads
    && e.threads[t].call == s.threads[t].call && e.threads[t].cancelled == s.threads[t].cancelled
  }

  /** The current thread's own calls, and new threads. */
  lemma OwnCalls(s: State, a: Action, t: Tid, c: Call)
    requires Good(s) && Enabled(s, a) && InCall(s, t, c)
    requires a.Create? || a.Clone? || a.Start? || a.Yield? || a.DoSleep? || a.DoCancellableSleep? || a.DoExit?
    ensures SameCall(s, Apply(s, a), t) && Apply(s, a).cur == s.cur && (s.switching ==> Apply(s, a).switching)
  {
    hide SchedInv, MutexesOk;
    Awaits(s, t, c);
    Queues(s);
    HasRunq(s);
  }

  lemma LockCalls(s: State, k: Mid, cancellable: bool, t: Tid, c: Call)
    requires Good(s) && !s.switching && k in s.mutexes && s.mutexes[k].holder != Some(s.cur) && InCall(s, t, c)
    ensures s.cur in s.threads && s.mutexes[k].waitq in s.queues
    ensures SameCall(s, LockOn(s, k, cancellable), t) && LockOn(s, k, cancellable).cur == s.cur
  {
    hide SchedInv, MutexesOk;
    Awaits(s, t, c);
    LockGood(s, k, cancellable);
  }

  lemma WakeCalls(s: State, q: Qid, t: Tid)
    requires SchedInv(s) && q in s.queues && q != RUNQ && t in s.threads
    ensures RUNQ in s.queues && (s.queues[q].list != [] ==> Tail(s, q) in s.threads)
    ensures SameCall(s, WakeupOn(s, q), t) && WakeupOn(s, q).cur == s.cur && WakeupOn(s, q).switching == s.switching
  {
    hide SchedInv;
    WakeupInv(s, q);
  }

  lemma {:induction false} BroadcastCalls(s: State, q: Qid, n: nat, t: Tid)
    requires Good(s) && PlainQueue(s, q) && t in s.threads
    ensures RUNQ in s.queues && SameCall(s, BroadcastOn(s, q, n), t)
    decreases n
  {
    hide SchedInv, MutexesOk, WakeupOn;
    WakeCalls(s, q, t);
    if n > 0 && s.queues[q].list != [] {
      WakeupInv(s, q);
      WakeupMutexes(s, q);
      StillPlain(s, q);
      BroadcastCalls(WakeupOn(s, q), q, n - 1, t);
    }
  }

  lemma StillPlain(s: State, q: Qid)
    requires Good(s) && PlainQueue(s, q) && RUNQ in s.queues && (s.queues[q].list != [] ==> Tail(s, q) in s.threads)
    ensures PlainQueue(WakeupOn(s, q), q)
  {
    hide SchedInv, MutexesOk;
  }

  lemma CancelCalls(s: State, x: Tid, t: Tid)
    requires Good(s) && Enabled(s, DoCancel(x)) && t in s.threads
    ensures var e := Apply(s, DoCancel(x));
      && t in e.threads && e.threads[t].call == s.threads[t].call
      && e.threads[t].cancelled == (s.threads[t].cancelled || x == t)
      && e.cur == s.cur && e.switching == s.switching
  {
    hide SchedInv, MutexesOk, Without;
    CancelInv(s, x);
  }

  /** The dispatched thread comes out of its call; all others stay in theirs. */
  lemma DispatchCalls(s: State, t: Tid, c: Call)
    requires Good(s) && Enabled(s, DoDispatch) && InCall(s, t, c)
    ensures var e := Apply(s, DoDispatch);
      if Tail(s, RUNQ) == t then Returned(e, t, c, s.threads[t].cancelled) && !InCall(e, t, c) else SameCall(s, e, t) && e.cur != t
  {
    hide SchedInv, MutexesOk;
    InvAt(s, t);
    Queues(s);
    DispatchInv(s);
  }

  lemma UnlockCalls(s: State, k: Mid, t: Tid)
    requires Good(s) && Enabled(s, DoUnlock(k)) && t in s.threads
    ensures var e := Apply(s, DoUnlock(k)); SameCall(s, e, t) && e.cur == s.cur && e.switching == s.switching
  {
    hide SchedInv, MutexesOk, WakeupOn;
    WaitqFacts(s, k);
    WakeCalls(s, s.mutexes[k].waitq, t);
  }

  /** A suspended call goes on until its thread is dispatched, and only a cancel marks it. */
  lemma CallStays(s: State, a: Action, t: Tid, c: Call)
    requires Good(s) && Enabled(s, a) && InCall(s, t, c)
    ensures a.DoDispatch? && Tail(s, RUNQ) == t ==>
      Returned(Apply(s, a), t, c, s.threads[t].cancelled) && !InCall(Apply(s, a), t, c)
    ensures !(a.DoDispatch? && Tail(s, RUNQ) == t) ==>
      && InCall(Apply(s, a), t, c) && Apply(s, a).threads[t].cancelled == (s.threads[t].cancelled || a == DoCancel(t))
  {
    hide SchedInv, MutexesOk, LockOn, UnlockOf, CancelThread, BroadcastOn, Dispatch, WakeupOn, SleepOn,
      CancellableSleepOn, MakeRunnable, SetThread, Returned;
    match a
    case DoWakeup(q) => WakeCalls(s, q, t);
    case DoBroadcast(q) => BroadcastCalls(s, q, |s.queues[q].list|, t);
    case DoCancel(x) => CancelCalls(s, x, t);
    case DoLock(k) => LockCalls(s, k, false, t, c);
    case DoLockCancellable(k) => LockCalls(s, k, true, t, c);
    case DoUnlock(k) => UnlockCalls(s, k, t);
    case DoDispatch => DispatchCalls(s, t, c);
    case _ => OwnCalls(s, a, t, c);
  }

  /** A cancel marks its thread for good and nothing else marks one; a clone is marked as its maker is. */
  lemma StepCancelled(s: State, a: Action, t: Tid)
    requires Good(s) && Enabled(s, a)
    ensures t in s.threads ==>
      t in Apply(s, a).threads && Apply(s, a).threads[t].cancelled == (s.threads[t].cancelled || a == DoCancel(t))
    ensures t in Apply(s, a).threads && t !in s.threads ==>
      && (a == Create(t) || a == Clone(t))
      && Apply(s, a).threads[t].cancelled == (a == Clone(t) && s.cur in s.threads && s.threads[s.cur].cancelled)
  {
    hide SchedInv, MutexesOk, BroadcastOn, CancelThread, UnlockOf, WakeupOn, Dispatch, LockOn, SleepOn, CancellableSleepOn;
    Queues(s);
    HasRunq(s);
    match a
    case DoSleep(q) => SleepThreads(s, q, false, None, t);
    case DoCancellableSleep(q) => SleepThreads(s, q, true, None, t);
    case DoWakeup(q) => WakeThreads(s, q, t);
    case DoBroadcast(q) => BroadcastThreads(s, q, |s.queues[q].list|, t);
    case DoCancel(x) => CancelThreads(s, x, t);
    case DoLock(k) => LockThreads(s, k, false, t);
    case DoLockCancellable(k) => LockThreads(s, k, true, t);
    case DoUnlock(k) => UnlockThreads(s, k, t);
    case DoDispatch => DispatchThreads(s, t);
    case _ =>
  }

  /** The same threads, and t as cancelled as before. */
  ghost predicate SameMark(s: State, e: State, t: Tid) {
    (t in e.threads <==> t in s.threads) && (t in s.threads ==> e.threads[t].cancelled == s.threads[t].cancelled)
  }

  lemma SleepThreads(s: State, q: Qid, cancellable: bool, m: Option<Mid>, t: Tid)
    requires q in s.queues && s.cur in s.threads
    ensures SameMark(s, SleepOn(s, q, cancellable, m), t) && SameMark(s, CancellableSleepOn(s, q, m), t)
  {
  }

  lemma LockThreads(s: State, k: Mid, cancellable: bool, t: Tid)
    requires Good(s) && !s.switching && k in s.mutexes && s.mutexes[k].holder != Some(s.cur)
    ensures s.cur in s.threads && s.mutexes[k].waitq in s.queues && SameMark(s, LockOn(s, k, cancellable), t)
  {
    hide SchedInv, MutexesOk, SleepOn, CancellableSleepOn;
    LockGood(s, k, cancellable);
    SleepThreads(s, s.mutexes[k].waitq, cancellable, Some(k), t);
  }

  lemma WakeThreads(s: State, q: Qid, t: Tid)
    requires SchedInv(s) && q in s.queues && q != RUNQ
    ensures RUNQ in s.queues && (s.queues[q].list != [] ==> Tail(s, q) in s.threads) && SameMark(s, WakeupOn(s, q), t)
  {
    hide SchedInv;
    WakeupInv(s, q);
  }

  lemma {:induction false} BroadcastThreads(s: State, q: Qid, n: nat, t: Tid)
    requires Good(s) && PlainQueue(s, q)
    ensures RUNQ in s.queues && SameMark(s, BroadcastOn(s, q, n), t)
    decreases n
  {
    hide SchedInv, MutexesOk, WakeupOn;
    WakeThreads(s, q, t);
    if n > 0 && s.queues[q].list != [] {
      WakeupInv(s, q);
      WakeupMutexes(s, q);
      StillPlain(s, q);
      BroadcastThreads(WakeupOn(s, q), q, n - 1, t);
    }
  }

  lemma CancelThreads(s: State, x: Tid, t: Tid)
    requires Good(s) && Enabled(s, DoCancel(x))
    ensures var e := Apply(s, DoCancel(x));
      (t in e.threads <==> t in s.threads) && (t in s.threads ==> e.threads[t].cancelled == (s.threads[t].cancelled || x == t))
  {
    hide SchedInv, MutexesOk, Without;
    CancelInv(s, x);
  }

  lemma UnlockThreads(s: State, k: Mid, t: Tid)
    requires Good(s) && Enabled(s, DoUnlock(k))
    ensures SameMark(s, Apply(s, DoUnlock(k)), t)
  {
    hide SchedInv, MutexesOk, WakeupOn;
    WaitqFacts(s, k);
    WakeThreads(s, s.mutexes[k].waitq, t);
  }

  lemma DispatchThreads(s: State, t: Tid)
    requires Good(s) && Enabled(s, DoDispatch)
    ensures SameMark(s, Apply(s, DoDispatch), t)
  {
    hide SchedInv, MutexesOk;
    DispatchInv(s);
  }

  /** t stays in its call through the run, up to the last step. */
  ghost predicate Suspended(s: State, acts: seq<Action>, t: Tid, c: Call)
    requires Good(s) && Legal(s, acts)
    decreases |acts|
  {
    acts != [] ==> InCall(s, t, c) && (StepGood(s, acts[0]); Suspended(Apply(s, acts[0]), acts[1..], t, c))
  }

  /**
   * What every suspended call returns, over any run: a cancellable one comes
   * back interrupted exactly when its thread was cancelled before or on the
   * way, and any other one never does.
   */
  lemma {:induction false} CallReturns(s: State, acts: seq<Action>, t: Tid, c: Call)
    requires Good(s) && Legal(s, acts) && Suspended(s, acts, t, c) && acts != [] && !InCall(Run(s, acts), t, c)
    ensures Returned(Run(s, acts), t, c, s.threads[t].cancelled || DoCancel(t) in acts)
    decreases |acts|
  {
    hide SchedInv, MutexesOk, Apply, Enabled, Returned;
    StepGood(s, acts[0]);
    CallStays(s, acts[0], t, c);
    assert acts == [acts[0]] + acts[1..];
    if |acts| > 1 {
      CallReturns(Apply(s, acts[0]), acts[1..], t, c);
    }
  }

  /** A plain cancellable sleep returns interrupted exactly when its thread was cancelled. */
  lemma SleepReturns(s: State, acts: seq<Action>, t: Tid)
    requires Good(s) && Legal(s, acts) && acts != []
    requires Suspended(s, acts, t, Sleeping(true, None)) && !InCall(Run(s, acts), t, Sleeping(true, None))
    ensures var e := Run(s, acts);
      && e.cur == t && !e.switching && t in e.threads
      && (e.ret == Interrupted && e.threads[t].state == Exited <==> s.threads[t].cancelled || DoCancel(t) in acts)
      && (e.ret == Slept && e.threads[t].state == Running <==> !s.threads[t].cancelled && DoCancel(t) !in acts)
  {
    CallReturns(s, acts, t, Sleeping(true, None));
  }

  /** A plain sleep that is not cancellable always returns as if woken. */
  lemma DeepSleepReturns(s: State, acts: seq<Action>, t: Tid)
    requires Good(s) && Legal(s, acts) && acts != []
    requires Suspended(s, acts, t, Sleeping(false, None)) && !InCall(Run(s, acts), t, Sleeping(false, None))
    ensures var e := Run(s, acts); e.cur == t && !e.switching && t in e.threads && e.ret == Slept && e.threads[t].state == Running
  {
    CallReturns(s, acts, t, Sleeping(false, None));
  }
}
