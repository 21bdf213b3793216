/**
 * Every run of the scheduler and of the mutexes built on it keeps its
 * invariants; the run queue and the mutex queues are first come, first served
 * (kernel/proc/sched.c, kthread.c, kmutex.c).
 */
module SchedRuns {
  import opened Basics
  import opened Sched

  datatype Action =
    | Create(t: Tid)
    | Clone(t: Tid)
    | Start(t: Tid)
    | Yield
    | DoSleep(q: Qid)
    | DoCancellableSleep(q: Qid)
    | DoWakeup(q: Qid)
    | DoBroadcast(q: Qid)
    | DoCancel(t: Tid)
    | DoExit
    | DoDispatch
    | DoLock(m: Mid)
    | DoLockCancellable(m: Mid)
    | DoUnlock(m: Mid)

  /** A queue to sleep on that is neither the run queue nor a mutex's. */
  ghost predicate PlainQueue(s: State, q: Qid) {
    q in s.queues && q != RUNQ && forall m :: m in s.mutexes ==> s.mutexes[m].waitq != q
  }

  /** Who may act, and the assertions that the calls make; wakeups can come from an interrupt while no thread runs. */
  ghost predicate Enabled(s: State, a: Action) {
    match a
    case Create(t) => !s.switching && t !in s.threads
    case Clone(t) => !s.switching && t !in s.threads && s.cur in s.threads && s.threads[s.cur].state == Running
    case Start(t) => !s.switching && t in s.threads && t != s.cur && s.threads[t].state == NoState
    case Yield => !s.switching
    case DoSleep(q) => !s.switching && PlainQueue(s, q)
    case DoCancellableSleep(q) => !s.switching && PlainQueue(s, q)
    case DoWakeup(q) => PlainQueue(s, q)
    case DoBroadcast(q) => PlainQueue(s, q)
    case DoCancel(t) => !s.switching && t in s.threads && t != s.cur
    case DoExit => !s.switching
    case DoDispatch => s.switching && RUNQ in s.queues && s.queues[RUNQ].list != []
    case DoLock(m) => !s.switching && m in s.mutexes && s.mutexes[m].holder != Some(s.cur)
    case DoLockCancellable(m) => !s.switching && m in s.mutexes && s.mutexes[m].holder != Some(s.cur)
    case DoUnlock(m) => !s.switching && m in s.mutexes && s.mutexes[m].holder == Some(s.cur)
  }

  /** sched_broadcast_on: wake the oldest sleeper until none is left. */
  function BroadcastOn(s: State, q: Qid, n: nat): State
    requires q in s.queues && RUNQ in s.queues
    decreases n
  {
    if n == 0 || s.queues[q].list == [] || Tail(s, q) !in s.threads then s
    else BroadcastOn(WakeupOn(s, q), q, n - 1)
  }

  function SetMutex(s: State, m: Mid, holder: Option<Tid>): State
    requires m in s.mutexes
  {
    s.(mutexes := s.mutexes[m := Mutex(holder, s.mutexes[m].waitq)])
  }

  /** kmutex_lock and kmutex_lock_cancellable. */
  function LockOn(s: State, m: Mid, cancellable: bool): State
    requires m in s.mutexes && s.mutexes[m].waitq in s.queues && s.cur in s.threads
  {
    if s.mutexes[m].holder.None? then SetMutex(s, m, Some(s.cur)).(ret := Locked(m))
    else if cancellable then CancellableSleepOn(s, s.mutexes[m].waitq, Some(m))
    else SleepOn(s, s.mutexes[m].waitq, false, Some(m))
  }

  /** kmutex_unlock: the oldest waiter is woken and becomes the holder. */
  function UnlockOf(s: State, m: Mid): State
    requires m in s.mutexes && s.mutexes[m].waitq in s.queues && RUNQ in s.queues
    requires var q := s.mutexes[m].waitq; s.queues[q].list != [] ==> Tail(s, q) in s.threads
  {
    var q := s.mutexes[m].waitq;
    var next := if s.queues[q].list == [] then None else Some(Tail(s, q));
    SetMutex(WakeupOn(s, q), m, next)
  }

  function Apply(s: State, a: Action): State
    requires SchedInv(s) && MutexesOk(s) && Enabled(s, a)
  {
    TailsKnown(s);
    match a
    case Create(t) => SetThread(s, t, Thread(NoState, false, None, NoCall))
    case Clone(t) => MakeRunnable(SetThread(s, t, Thread(Running, s.threads[s.cur].cancelled, None, NoCall)), t)
    case Start(t) => MakeRunnable(s, t)
    case Yield => MakeRunnable(s, s.cur).(switching := true, ret := Nothing)
    case DoSleep(q) => SleepOn(s, q, false, None)
    case DoCancellableSleep(q) => CancellableSleepOn(s, q, None)
    case DoWakeup(q) => WakeupOn(s, q)
    case DoBroadcast(q) => BroadcastOn(s, q, |s.queues[q].list|)
    case DoCancel(t) => CancelThread(s, t)
    case DoExit => SetThread(s, s.cur, s.threads[s.cur].(state := Exited)).(switching := true, ret := Nothing)
    case DoDispatch => Dispatch(s)
    case DoLock(m) => LockOn(s, m, false)
    case DoLockCancellable(m) => LockOn(s, m, true)
    case DoUnlock(m) => UnlockOf(s, m)
  }

  lemma TailsKnown(s: State)
    requires SchedInv(s)
    ensures forall q :: q in s.queues && s.queues[q].list != [] ==> Tail(s, q) in s.threads
  {
    forall q | q in s.queues && s.queues[q].list != [] ensures Tail(s, q) in s.threads { DequeueOk(s, q); }
  }

  // ----------------------------------------------------------------- mutexes

  ghost predicate MutexOk(s: State, m: Mid)
    requires m in s.mutexes
  {
    var mx := s.mutexes[m];
    && mx.waitq in s.queues && mx.waitq != RUNQ
    && (mx.holder.Some? ==> mx.holder.value in s.threads && mx.holder.value !in s.queues[mx.waitq].list)
    && (s.queues[mx.waitq].list != [] ==> mx.holder.Some?)
    && (forall t :: t in s.queues[mx.waitq].list ==> t in s.threads && WaitsFor(s, t, m))
  }

  /** Thread t is suspended in a call to lock m. */
  ghost predicate WaitsFor(s: State, t: Tid, m: Mid)
    requires t in s.threads
  {
    s.threads[t].call.Sleeping? && s.threads[t].call.mutex == Some(m)
  }

  predicate Asleep(th: Thread) { th.state == Sleep || th.state == SleepCancellable }

  /**
   * A thread in a lock call is still queued, or has been handed the mutex, or
   * was cancelled; if it sleeps, it sleeps on that mutex's own queue.
   */
  ghost predicate WaiterOk(s: State, t: Tid, m: Mid)
    requires t in s.threads
  {
    WaitsFor(s, t, m) ==>
      && m in s.mutexes && s.mutexes[m].waitq in s.queues
      && (Asleep(s.threads[t]) ==> s.threads[t].wchan == Some(s.mutexes[m].waitq))
      && (t in s.queues[s.mutexes[m].waitq].list || s.mutexes[m].holder == Some(t) || (s.threads[t].call.cancellable && s.threads[t].cancelled))
  }

  ghost predicate MutexesOk(s: State) {
    && (forall m :: m in s.mutexes ==> MutexOk(s, m))
    && (forall m, k :: m in s.mutexes && k in s.mutexes && m != k ==> s.mutexes[m].waitq != s.mutexes[k].waitq)
    && (forall t, m: Mid :: t in s.threads ==> WaiterOk(s, t, m))
  }

  // -------------------------------------------- the scheduler's own invariant

  lemma InvAt(s: State, t: Tid)
    requires SchedInv(s) && t in s.threads
    ensures StateOk(s, t)
  {
  }

  /** A step that changes one thread, and perhaps whether the current one runs on. */
  lemma OneThread(s: State, s': State, t: Tid)
    requires SchedInv(s) && QueuesOk(s') && t in s'.threads && s'.cur == s.cur
    requires s'.threads.Keys == s.threads.Keys + {t} && forall u :: u in s.threads && u != t ==> s'.threads[u] == s.threads[u]
    requires StateOk(s', t) && (s'.switching == s.switching || (t == s.cur && s'.switching))
    ensures SchedInv(s')
  {
    hide QueuesOk;
    forall u | u in s'.threads ensures StateOk(s', u) {
      if u != t { InvAt(s, u); }
    }
  }

  lemma CreateInv(s: State, t: Tid)
    requires SchedInv(s) && Enabled(s, Create(t))
    ensures SchedInv(SetThread(s, t, Thread(NoState, false, None, NoCall)))
  {
    hide QueuesOk;
    HasRunq(s);
    AddOk(s, t, Thread(NoState, false, None, NoCall));
    OneThread(s, SetThread(s, t, Thread(NoState, false, None, NoCall)), t);
  }

  lemma CloneInv(s: State, t: Tid, th: Thread)
    requires SchedInv(s) && Enabled(s, Clone(t)) && th == Thread(Running, s.threads[s.cur].cancelled, None, NoCall)
    ensures RUNQ in s.queues && SchedInv(MakeRunnable(SetThread(s, t, th), t))
  {
    hide QueuesOk;
    HasRunq(s);
    AddOk(s, t, th);
    RunnableOk(SetThread(s, t, th), t);
    OneThread(s, MakeRunnable(SetThread(s, t, th), t), t);
  }

  lemma StartInv(s: State, t: Tid)
    requires SchedInv(s) && Enabled(s, Start(t))
    ensures RUNQ in s.queues && SchedInv(MakeRunnable(s, t))
  {
    hide QueuesOk;
    HasRunq(s);
    InvAt(s, t);
    RunnableOk(s, t);
    OneThread(s, MakeRunnable(s, t), t);
  }

  /** The queues do not care who is current, nor what was returned. */
  lemma SameQueues(s: State, s': State)
    requires QueuesOk(s) && s'.queues == s.queues && s'.threads == s.threads && s'.cur in s.threads
    ensures QueuesOk(s')
  {
    forall q | q in s'.queues ensures QueueOk(s', q) { assert QueueOk(s, q); }
    forall t | t in s'.threads ensures OnIts(s', t) { assert OnIts(s, t); }
  }

  lemma YieldInv(s: State)
    requires SchedInv(s) && !s.switching
    ensures RUNQ in s.queues && s.cur in s.threads && SchedInv(MakeRunnable(s, s.cur).(switching := true, ret := Nothing))
  {
    hide QueuesOk;
    HasRunq(s);
    InvAt(s, s.cur);
    RunnableOk(s, s.cur);
    var s1 := MakeRunnable(s, s.cur);
    SameQueues(s1, s1.(switching := true, ret := Nothing));
    OneThread(s, s1.(switching := true, ret := Nothing), s.cur);
  }

  lemma SleepInv(s: State, q: Qid, cancellable: bool, m: Option<Mid>)
    requires SchedInv(s) && !s.switching && q in s.queues && q != RUNQ
    ensures s.cur in s.threads && SchedInv(SleepOn(s, q, cancellable, m))
  {
    hide QueuesOk;
    HasRunq(s);
    InvAt(s, s.cur);
    var th := s.threads[s.cur].(state := if cancellable then SleepCancellable else Sleep, call := Sleeping(cancellable, m));
    var s1 := SetThread(s, s.cur, th);
    SetOk(s, s.cur, th);
    EnqueueOk(s1, q, s.cur);
    SameQueues(Enqueue(s1, q, s.cur), SleepOn(s, q, cancellable, m));
    OneThread(s, SleepOn(s, q, cancellable, m), s.cur);
  }

  lemma CancellableSleepInv(s: State, q: Qid, m: Option<Mid>)
    requires SchedInv(s) && !s.switching && q in s.queues && q != RUNQ
    ensures s.cur in s.threads && SchedInv(CancellableSleepOn(s, q, m))
  {
    hide QueuesOk, SleepOn;
    HasRunq(s);
    InvAt(s, s.cur);
    if s.threads[s.cur].cancelled {
      var th := s.threads[s.cur].(state := Exited);
      SetOk(s, s.cur, th);
      SameQueues(SetThread(s, s.cur, th), CancellableSleepOn(s, q, m));
      OneThread(s, CancellableSleepOn(s, q, m), s.cur);
    } else {
      SleepInv(s, q, true, m);
    }
  }

  lemma WakeupInv(s: State, q: Qid)
    requires SchedInv(s) && q in s.queues && q != RUNQ
    ensures RUNQ in s.queues && (s.queues[q].list != [] ==> Tail(s, q) in s.threads) && SchedInv(WakeupOn(s, q))
  {
    hide QueuesOk;
    HasRunq(s);
    if s.queues[q].list != [] {
      var t := Tail(s, q);
      DequeueOk(s, q);
      InvAt(s, t);
      RunnableOk(Dequeue(s, q), t);
      OneThread(s, WakeupOn(s, q), t);
    }
  }

  lemma CancelInv(s: State, t: Tid)
    requires SchedInv(s) && t in s.threads && t != s.cur && !s.switching
    ensures RUNQ in s.queues && SchedInv(CancelThread(s, t))
  {
    hide QueuesOk;
    HasRunq(s);
    InvAt(s, t);
    var th := s.threads[t].(cancelled := true);
    var s1 := SetThread(s, t, th);
    SetOk(s, t, th);
    if s.threads[t].state == SleepCancellable {
      WchanKnown(s, t);
      RemoveOk(s1, th.wchan.value, t);
      RunnableOk(RemoveFrom(s1, th.wchan.value, t), t);
    }
    OneThread(s, CancelThread(s, t), t);
  }

  lemma WchanKnown(s: State, t: Tid)
    requires QueuesOk(s) && t in s.threads && s.threads[t].wchan.Some?
    ensures s.threads[t].wchan.value in s.queues && t in s.queues[s.threads[t].wchan.value].list
  {
    assert OnIts(s, t);
  }

  lemma ExitInv(s: State)
    requires SchedInv(s) && !s.switching
    ensures s.cur in s.threads
    ensures SchedInv(SetThread(s, s.cur, s.threads[s.cur].(state := Exited)).(switching := true, ret := Nothing))
  {
    hide QueuesOk;
    HasRunq(s);
    InvAt(s, s.cur);
    var th := s.threads[s.cur].(state := Exited);
    SetOk(s, s.cur, th);
    SameQueues(SetThread(s, s.cur, th), SetThread(s, s.cur, th).(switching := true, ret := Nothing));
    OneThread(s, SetThread(s, s.cur, th).(switching := true, ret := Nothing), s.cur);
  }

  lemma DispatchInv(s: State)
    requires SchedInv(s) && Enabled(s, DoDispatch)
    ensures Tail(s, RUNQ) in s.threads && SchedInv(Dispatch(s))
  {
    hide QueuesOk;
    var t := Tail(s, RUNQ);
    DequeueOk(s, RUNQ);
    InvAt(s, t);
    var s1, s' := Dequeue(s, RUNQ), Dispatch(s);
    SetOk(s1, t, s'.threads[t]);
    SameQueues(SetThread(s1, t, s'.threads[t]), s');
    forall u | u in s'.threads ensures StateOk(s', u) {
      InvAt(s, u);
    }
  }

  // ------------------------------------------------- the mutexes' invariant

  ghost predicate OnMutexQueue(s: State, t: Tid, m: Mid) {
    m in s.mutexes && s.mutexes[m].waitq in s.queues && t in s.queues[s.mutexes[m].waitq].list
  }

  /** The thread is in the same call as before, or in none for a mutex, on whose queue it is not. */
  ghost predicate CallKept(s: State, s': State, t: Tid)
    requires t in s'.threads
  {
    var c := s'.threads[t].call;
    || (t in s.threads && c == s.threads[t].call && (s.threads[t].cancelled ==> s'.threads[t].cancelled)
        && (Asleep(s'.threads[t]) ==> Asleep(s.threads[t]) && s'.threads[t].wchan == s.threads[t].wchan))
    || ((c.Sleeping? ==> c.mutex.None?) && forall m: Mid :: !OnMutexQueue(s, t, m))
  }

  /** A step that leaves the mutexes and their queues alone. */
  ghost predicate MutexFrame(s: State, s': State) {
    && s'.mutexes == s.mutexes && s.threads.Keys <= s'.threads.Keys
    && (forall m :: m in s.mutexes && s.mutexes[m].waitq in s.queues ==>
          s.mutexes[m].waitq in s'.queues && s'.queues[s.mutexes[m].waitq].list == s.queues[s.mutexes[m].waitq].list)
    && (forall t :: t in s'.threads ==> CallKept(s, s', t))
  }

  lemma FrameMutex(s: State, s': State, m: Mid)
    requires MutexesOk(s) && MutexFrame(s, s') && m in s.mutexes
    ensures MutexOk(s', m)
  {
    assert MutexOk(s, m);
    forall t | t in s'.queues[s'.mutexes[m].waitq].list ensures t in s'.threads && WaitsFor(s', t, m) {
      assert OnMutexQueue(s, t, m);
      assert CallKept(s, s', t);
    }
  }

  lemma FrameWaiter(s: State, s': State, t: Tid, m: Mid)
    requires MutexesOk(s) && MutexFrame(s, s') && t in s'.threads
    ensures WaiterOk(s', t, m)
  {
    assert CallKept(s, s', t);
    if t in s.threads { assert WaiterOk(s, t, m); }
  }

  lemma FrameMutexes(s: State, s': State)
    requires MutexesOk(s) && MutexFrame(s, s')
    ensures MutexesOk(s')
  {
    forall m | m in s'.mutexes ensures MutexOk(s', m) { FrameMutex(s, s', m); }
    forall t, m: Mid | t in s'.threads ensures WaiterOk(s', t, m) { FrameWaiter(s, s', t, m); }
    hide MutexOk, WaiterOk, CallKept;
  }

  /** Facts about a mutex's queue that the frames need. */
  lemma WaitqFacts(s: State, m: Mid)
    requires SchedInv(s) && MutexesOk(s) && m in s.mutexes
    ensures var q := s.mutexes[m].waitq; q in s.queues && q != RUNQ && QueueOk(s, q)
    ensures forall k :: k in s.mutexes && k != m ==> s.mutexes[k].waitq != s.mutexes[m].waitq
  {
    assert MutexOk(s, m);
  }

  /** A thread on no mutex's queue: its kt_wchan says so. */
  lemma NotOnMutexQueue(s: State, t: Tid, m: Mid)
    requires SchedInv(s) && MutexesOk(s) && (t in s.threads ==> s.threads[t].wchan.None? || s.threads[t].wchan == Some(RUNQ))
    ensures !OnMutexQueue(s, t, m)
  {
    if OnMutexQueue(s, t, m) { WaitqFacts(s, m); }
  }

  /** One thread moves between queues that are not mutexes' queues. */
  lemma PlainMove(s: State, s': State, t: Tid)
    requires SchedInv(s) && MutexesOk(s) && s'.mutexes == s.mutexes && t in s'.threads
    requires s'.threads.Keys == s.threads.Keys + {t} && forall u :: u in s.threads && u != t ==> s'.threads[u] == s.threads[u]
    requires CallKept(s, s', t)
    requires forall q :: q in s.queues && q != RUNQ && !PlainQueue(s, q) ==> q in s'.queues && s'.queues[q] == s.queues[q]
    ensures MutexesOk(s')
  {
    forall m | m in s.mutexes && s.mutexes[m].waitq in s.queues
      ensures s.mutexes[m].waitq in s'.queues && s'.queues[s.mutexes[m].waitq].list == s.queues[s.mutexes[m].waitq].list
    {
      WaitqFacts(s, m);
    }
    forall u | u in s'.threads ensures CallKept(s, s', u) {}
    FrameMutexes(s, s');
  }

  lemma CreateMutexes(s: State, t: Tid)
    requires SchedInv(s) && MutexesOk(s) && Enabled(s, Create(t))
    ensures MutexesOk(SetThread(s, t, Thread(NoState, false, None, NoCall)))
  {
    forall m: Mid ensures !OnMutexQueue(s, t, m) { NotOnMutexQueue(s, t, m); }
    hide SchedInv, MutexesOk, OnMutexQueue;
    PlainMove(s, SetThread(s, t, Thread(NoState, false, None, NoCall)), t);
  }

  lemma CloneMutexes(s: State, t: Tid, th: Thread)
    requires SchedInv(s) && MutexesOk(s) && Enabled(s, Clone(t)) && th == Thread(Running, s.threads[s.cur].cancelled, None, NoCall)
    ensures RUNQ in s.queues && MutexesOk(MakeRunnable(SetThread(s, t, th), t))
  {
    HasRunq(s);
    forall m: Mid ensures !OnMutexQueue(s, t, m) { NotOnMutexQueue(s, t, m); }
    hide SchedInv, MutexesOk, OnMutexQueue;
    PlainMove(s, MakeRunnable(SetThread(s, t, th), t), t);
  }

  lemma RunnableMutexes(s: State, t: Tid)
    requires SchedInv(s) && MutexesOk(s) && t in s.threads
    ensures RUNQ in s.queues && MutexesOk(MakeRunnable(s, t))
  {
    HasRunq(s);
    hide SchedInv, MutexesOk;
    PlainMove(s, MakeRunnable(s, t), t);
  }

  /** Neither switching nor what was returned matters to the mutexes. */
  lemma SameMutexes(s: State, s': State)
    requires MutexesOk(s) && s'.mutexes == s.mutexes && s'.queues == s.queues && s'.threads == s.threads
    ensures MutexesOk(s')
  {
    forall m | m in s'.mutexes ensures MutexOk(s', m) { assert MutexOk(s, m); }
    forall t, m: Mid | t in s'.threads ensures WaiterOk(s', t, m) { assert WaiterOk(s, t, m); }
  }

  lemma SleepMutexes(s: State, q: Qid, cancellable: bool)
    requires SchedInv(s) && MutexesOk(s) && !s.switching && PlainQueue(s, q)
    ensures s.cur in s.threads && MutexesOk(SleepOn(s, q, cancellable, None))
  {
    HasRunq(s);
    InvAt(s, s.cur);
    forall m: Mid ensures !OnMutexQueue(s, s.cur, m) { NotOnMutexQueue(s, s.cur, m); }
    hide SchedInv, MutexesOk, OnMutexQueue;
    PlainMove(s, SleepOn(s, q, cancellable, None), s.cur);
  }

  /** Only the state of a thread changes. */
  lemma ExitMutexes(s: State, t: Tid)
    requires SchedInv(s) && MutexesOk(s) && t in s.threads
    ensures MutexesOk(SetThread(s, t, s.threads[t].(state := Exited)))
  {
    hide SchedInv, MutexesOk;
    PlainMove(s, SetThread(s, t, s.threads[t].(state := Exited)), t);
  }

  lemma WakeupMutexes(s: State, q: Qid)
    requires SchedInv(s) && MutexesOk(s) && PlainQueue(s, q)
    ensures RUNQ in s.queues && (s.queues[q].list != [] ==> Tail(s, q) in s.threads) && MutexesOk(WakeupOn(s, q))
  {
    hide SchedInv, MutexesOk;
    WakeupInv(s, q);
    if s.queues[q].list != [] { PlainMove(s, WakeupOn(s, q), Tail(s, q)); }
  }

  lemma DispatchMutexes(s: State)
    requires SchedInv(s) && MutexesOk(s) && Enabled(s, DoDispatch)
    ensures Tail(s, RUNQ) in s.threads && MutexesOk(Dispatch(s))
  {
    var t := Tail(s, RUNQ);
    DequeueOk(s, RUNQ);
    forall m: Mid ensures !OnMutexQueue(s, t, m) { NotOnMutexQueue(s, t, m); }
    hide SchedInv, MutexesOk, OnMutexQueue;
    PlainMove(s, Dispatch(s), t);
  }

  lemma CancelPlain(s: State, t: Tid)
    requires SchedInv(s) && MutexesOk(s) && t in s.threads && RUNQ in s.queues
    requires s.threads[t].state == SleepCancellable ==> s.threads[t].wchan.Some? && PlainQueue(s, s.threads[t].wchan.value)
    ensures MutexesOk(CancelThread(s, t))
  {
    hide SchedInv, MutexesOk, OnMutexQueue;
    PlainMove(s, CancelThread(s, t), t);
  }

  // ---------------------------------------------------- the mutexes' own steps

  lemma FreeLock(s: State, m: Mid)
    requires SchedInv(s) && MutexesOk(s) && m in s.mutexes && s.mutexes[m].holder.None?
    ensures MutexesOk(SetMutex(s, m, Some(s.cur)).(ret := Locked(m)))
  {
    HasRunq(s);
    WaitqFacts(s, m);
    var s' := SetMutex(s, m, Some(s.cur)).(ret := Locked(m));
    assert MutexOk(s, m);
    forall k | k in s'.mutexes ensures MutexOk(s', k) {
      assert MutexOk(s, k);
    }
    forall t, k: Mid | t in s'.threads ensures WaiterOk(s', t, k) { assert WaiterOk(s, t, k); }
  }

  /** The caller joins the queue of a mutex that another holds. */
  lemma BlockMutex(s: State, m: Mid, cancellable: bool)
    requires SchedInv(s) && MutexesOk(s) && !s.switching && m in s.mutexes
    requires s.mutexes[m].holder.Some? && s.mutexes[m].holder != Some(s.cur)
    ensures s.cur in s.threads && s.mutexes[m].waitq in s.queues
    ensures MutexesOk(SleepOn(s, s.mutexes[m].waitq, cancellable, Some(m)))
  {
    HasRunq(s);
    InvAt(s, s.cur);
    WaitqFacts(s, m);
    var q := s.mutexes[m].waitq;
    var s' := SleepOn(s, q, cancellable, Some(m));
    forall k | k in s'.mutexes ensures MutexOk(s', k) {
      BlockOne(s, m, cancellable, k);
    }
    forall t, k: Mid | t in s'.threads ensures WaiterOk(s', t, k) {
      BlockWaiter(s, m, cancellable, t, k);
    }
    hide SchedInv, MutexOk, WaiterOk, SleepOn;
  }

  lemma BlockOne(s: State, m: Mid, cancellable: bool, k: Mid)
    requires SchedInv(s) && MutexesOk(s) && !s.switching && m in s.mutexes && s.cur in s.threads && s.mutexes[m].waitq in s.queues
    requires s.mutexes[m].holder.Some? && s.mutexes[m].holder != Some(s.cur) && k in s.mutexes
    ensures MutexOk(SleepOn(s, s.mutexes[m].waitq, cancellable, Some(m)), k)
  {
    InvAt(s, s.cur);
    WaitqFacts(s, k);
    assert MutexOk(s, k);
    if k == m { assert QueueOk(s, s.mutexes[m].waitq); }
  }

  lemma BlockWaiter(s: State, m: Mid, cancellable: bool, t: Tid, k: Mid)
    requires SchedInv(s) && MutexesOk(s) && !s.switching && m in s.mutexes && s.cur in s.threads && s.mutexes[m].waitq in s.queues
    requires t in s.threads
    ensures WaiterOk(SleepOn(s, s.mutexes[m].waitq, cancellable, Some(m)), t, k)
  {
    InvAt(s, s.cur);
    assert WaiterOk(s, t, k);
  }

  lemma WaiterAt(s: State, t: Tid, k: Mid)
    requires MutexesOk(s) && t in s.threads
    ensures WaiterOk(s, t, k)
  {
  }

  lemma MutexAt(s: State, k: Mid)
    requires MutexesOk(s) && k in s.mutexes
    ensures MutexOk(s, k)
  {
  }

  lemma UnlockOne(s: State, m: Mid, k: Mid)
    requires SchedInv(s) && MutexesOk(s) && Enabled(s, DoUnlock(m)) && k in s.mutexes && RUNQ in s.queues
    requires s.mutexes[m].waitq in s.queues && (s.queues[s.mutexes[m].waitq].list != [] ==> Tail(s, s.mutexes[m].waitq) in s.threads)
    ensures MutexOk(UnlockOf(s, m), k)
  {
    hide SchedInv, MutexesOk;
    WaitqFacts(s, k);
    WaitqFacts(s, m);
    MutexAt(s, k);
  }

  lemma UnlockWaiter(s: State, m: Mid, t: Tid, k: Mid)
    requires SchedInv(s) && MutexesOk(s) && Enabled(s, DoUnlock(m)) && t in s.threads && RUNQ in s.queues
    requires s.mutexes[m].waitq in s.queues && (s.queues[s.mutexes[m].waitq].list != [] ==> Tail(s, s.mutexes[m].waitq) in s.threads)
    ensures WaiterOk(UnlockOf(s, m), t, k)
  {
    hide SchedInv, MutexesOk;
    WaitqFacts(s, m);
    InvAt(s, t);
    WaiterAt(s, t, k);
    if WaitsFor(s, t, k) {
      WaitqFacts(s, k);
      if k == m {
        var l := s.queues[s.mutexes[m].waitq].list;
        if t in l && t != l[|l| - 1] { NotLast(l, t); }
      }
    }
  }

  lemma UnlockMutexes(s: State, m: Mid)
    requires SchedInv(s) && MutexesOk(s) && Enabled(s, DoUnlock(m))
    ensures RUNQ in s.queues && s.mutexes[m].waitq in s.queues
    ensures s.queues[s.mutexes[m].waitq].list != [] ==> Tail(s, s.mutexes[m].waitq) in s.threads
    ensures MutexesOk(UnlockOf(s, m))
  {
    hide SchedInv, MutexOk, WaiterOk;
    WaitqFacts(s, m);
    WakeupInv(s, s.mutexes[m].waitq);
    var s' := UnlockOf(s, m);
    forall k | k in s'.mutexes ensures MutexOk(s', k) { UnlockOne(s, m, k); }
    forall t, k: Mid | t in s'.threads ensures WaiterOk(s', t, k) { UnlockWaiter(s, m, t, k); }
  }

  /** A cancelled waiter leaves the queue; the mutex stays with its holder. */
  lemma CancelOne(s: State, t: Tid, m: Mid, k: Mid)
    requires SchedInv(s) && MutexesOk(s) && t in s.threads && RUNQ in s.queues && k in s.mutexes
    requires s.threads[t].state == SleepCancellable && OnMutexQueue(s, t, m)
    ensures MutexOk(CancelThread(s, t), k)
  {
    hide SchedInv, MutexesOk, Without;
    WaitqFacts(s, k);
    WaitqFacts(s, m);
    MutexAt(s, k);
    WithoutIs(s.queues[s.mutexes[m].waitq].list, t);
  }

  lemma CancelWaiter(s: State, t: Tid, m: Mid, u: Tid, k: Mid)
    requires SchedInv(s) && MutexesOk(s) && t in s.threads && RUNQ in s.queues && u in s.threads
    requires s.threads[t].state == SleepCancellable && OnMutexQueue(s, t, m)
    ensures WaiterOk(CancelThread(s, t), u, k)
  {
    hide SchedInv, MutexesOk, Without;
    WaitqFacts(s, m);
    InvAt(s, t);
    WaiterAt(s, u, k);
    WithoutIs(s.queues[s.mutexes[m].waitq].list, t);
    if WaitsFor(s, u, k) { WaitqFacts(s, k); }
  }

  lemma CancelMutexes(s: State, t: Tid)
    requires SchedInv(s) && MutexesOk(s) && t in s.threads && t != s.cur && !s.switching
    ensures RUNQ in s.queues && MutexesOk(CancelThread(s, t))
  {
    HasRunq(s);
    if s.threads[t].state == SleepCancellable {
      InvAt(s, t);
      WchanKnown(s, t);
      if m :| OnMutexQueue(s, t, m) {
        hide SchedInv, MutexOk, WaiterOk, Without;
        var s' := CancelThread(s, t);
        forall k | k in s'.mutexes ensures MutexOk(s', k) { CancelOne(s, t, m, k); }
        forall u, k: Mid | u in s'.threads ensures WaiterOk(s', u, k) { CancelWaiter(s, t, m, u, k); }
      } else {
        assert PlainQueue(s, s.threads[t].wchan.value) by { OffMutexQueues(s, t); }
        CancelPlain(s, t);
      }
    } else {
      CancelPlain(s, t);
    }
  }

  lemma OffMutexQueues(s: State, t: Tid)
    requires SchedInv(s) && MutexesOk(s) && t in s.threads && s.threads[t].wchan.Some? && s.threads[t].wchan != Some(RUNQ)
    requires forall m: Mid :: !OnMutexQueue(s, t, m)
    ensures PlainQueue(s, s.threads[t].wchan.value)
  {
    WchanKnown(s, t);
    forall m | m in s.mutexes ensures s.mutexes[m].waitq != s.threads[t].wchan.value {
      assert !OnMutexQueue(s, t, m);
    }
  }
}
