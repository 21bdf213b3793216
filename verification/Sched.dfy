/**
 * Threads, queues and the current thread as a step system: sleep, cancellable
 * sleep, wakeup, broadcast, cancel, switch, make runnable, and the mutex calls
 * built on them (kernel/proc/sched.c, kthread.c, kmutex.c).
 */
module Sched {
  import opened Basics

  type Tid = nat
  type Qid = nat
  type Mid = nat

  /** kt_runq. */
  const RUNQ: Qid := 0

  datatype KtState = NoState | Running | Sleep | SleepCancellable | Exited

  /** The blocking call in which a thread is suspended: a sleep, on behalf of a mutex or not. */
  datatype Call = NoCall | Sleeping(cancellable: bool, mutex: Option<Mid>)

  datatype Thread = Thread(state: KtState, cancelled: bool, wchan: Option<Qid>, call: Call)

  /** ktqueue_t: the head of the list first. */
  datatype Queue = Queue(list: seq<Tid>, size: int)

  datatype Mutex = Mutex(holder: Option<Tid>, waitq: Qid)

  /** What the call from which the current thread came back returned. */
  datatype Ret = Nothing | Slept | Interrupted | Locked(m: Mid) | LockInterrupted(m: Mid)

  /**
   * cur is curthr.  While switching, cur has entered sched_switch: it waits
   * for the run queue to have a thread and runs no further.
   */
  datatype State = State(threads: map<Tid, Thread>, queues: map<Qid, Queue>, mutexes: map<Mid, Mutex>,
                         cur: Tid, switching: bool, ret: Ret)

  // ---------------------------------------------------------------- queues

  function SetThread(s: State, t: Tid, th: Thread): State { s.(threads := s.threads[t := th]) }

  /** ktqueue_enqueue: at the head. */
  function Enqueue(s: State, q: Qid, t: Tid): State
    requires q in s.queues && t in s.threads
  {
    s.(queues := s.queues[q := Queue([t] + s.queues[q].list, s.queues[q].size + 1)],
       threads := s.threads[t := s.threads[t].(wchan := Some(q))])
  }

  /** The thread ktqueue_dequeue returns: the one at the tail. */
  function Tail(s: State, q: Qid): Tid
    requires q in s.queues && s.queues[q].list != []
  {
    s.queues[q].list[|s.queues[q].list| - 1]
  }

  function Dequeue(s: State, q: Qid): State
    requires q in s.queues && s.queues[q].list != [] && Tail(s, q) in s.threads
  {
    var l := s.queues[q].list;
    s.(queues := s.queues[q := Queue(l[..|l| - 1], s.queues[q].size - 1)],
       threads := s.threads[Tail(s, q) := s.threads[Tail(s, q)].(wchan := None)])
  }

  /** ktqueue_remove. */
  function RemoveFrom(s: State, q: Qid, t: Tid): State
    requires q in s.queues && t in s.threads
  {
    s.(queues := s.queues[q := Queue(Without(s.queues[q].list, t), s.queues[q].size - 1)],
       threads := s.threads[t := s.threads[t].(wchan := None)])
  }

  // ------------------------------------------------------------- invariant

  /** The size matches, no thread is twice on the queue, and each knows that it is on it. */
  ghost predicate QueueOk(s: State, q: Qid)
    requires q in s.queues
  {
    && s.queues[q].size == |s.queues[q].list| && NoDup(s.queues[q].list)
    && forall t :: t in s.queues[q].list ==> t in s.threads && s.threads[t].wchan == Some(q)
  }

  /** A thread is on the queue that its kt_wchan names. */
  ghost predicate OnIts(s: State, t: Tid)
    requires t in s.threads
  {
    s.threads[t].wchan.Some? ==> s.threads[t].wchan.value in s.queues && t in s.queues[s.threads[t].wchan.value].list
  }

  ghost predicate QueuesOk(s: State) {
    && RUNQ in s.queues && s.cur in s.threads
    && (forall q :: q in s.queues ==> QueueOk(s, q))
    && (forall t :: t in s.threads ==> OnIts(s, t))
  }

  /** The thread runs: it is current and has not entered a switch. */
  predicate Runs(s: State, t: Tid) { t == s.cur && !s.switching }

  /**
   * The running thread is on no queue; any other is on the run queue exactly
   * when its state is runnable, on a wait queue exactly when it sleeps, and
   * on none when it is new or has exited.
   */
  ghost predicate StateOk(s: State, t: Tid)
    requires t in s.threads
  {
    var th := s.threads[t];
    if Runs(s, t) then th.wchan.None? && th.call == NoCall && (th.state == Running || th.state == Exited)
    else
      && (th.state == Running <==> th.wchan == Some(RUNQ))
      && (th.state == Sleep || th.state == SleepCancellable <==> th.wchan.Some? && th.wchan != Some(RUNQ))
      && (th.state == Sleep ==> th.call.Sleeping? && !th.call.cancellable)
      && (th.state == SleepCancellable ==> th.call.Sleeping? && th.call.cancellable)
      && (th.state == NoState || th.state == Exited ==> th.call == NoCall)
  }

  ghost predicate SchedInv(s: State) {
    QueuesOk(s) && forall t :: t in s.threads ==> StateOk(s, t)
  }

  // ------------------------------------------------------------------ steps

  /** sched_make_runnable. */
  function MakeRunnable(s: State, t: Tid): State
    requires RUNQ in s.queues && t in s.threads
  {
    Enqueue(SetThread(s, t, s.threads[t].(state := Running)), RUNQ, t)
  }

  /** sched_sleep_on, up to the switch. */
  function SleepOn(s: State, q: Qid, cancellable: bool, m: Option<Mid>): State
    requires q in s.queues && s.cur in s.threads
  {
    var th := s.threads[s.cur];
    var s1 := SetThread(s, s.cur, th.(state := if cancellable then SleepCancellable else Sleep, call := Sleeping(cancellable, m)));
    Enqueue(s1, q, s.cur).(switching := true, ret := Nothing)
  }

  /** sched_cancellable_sleep_on: a cancelled thread does not sleep. */
  function CancellableSleepOn(s: State, q: Qid, m: Option<Mid>): State
    requires q in s.queues && s.cur in s.threads
  {
    if s.threads[s.cur].cancelled
    then SetThread(s, s.cur, s.threads[s.cur].(state := Exited)).(ret := if m.Some? then LockInterrupted(m.value) else Interrupted)
    else SleepOn(s, q, true, m)
  }

  /** sched_wakeup_on: the oldest sleeper becomes runnable. */
  function WakeupOn(s: State, q: Qid): State
    requires q in s.queues && RUNQ in s.queues && (s.queues[q].list != [] ==> Tail(s, q) in s.threads)
  {
    if s.queues[q].list == [] then s else MakeRunnable(Dequeue(s, q), Tail(s, q))
  }

  /** sched_cancel. */
  function CancelThread(s: State, t: Tid): State
    requires t in s.threads && RUNQ in s.queues
  {
    var th := s.threads[t];
    var s1 := SetThread(s, t, th.(cancelled := true));
    if th.state == SleepCancellable && th.wchan.Some? && th.wchan.value in s.queues
    then MakeRunnable(RemoveFrom(s1, th.wchan.value, t), t)
    else s1
  }

  /** What the resumed thread's call returns. */
  function Resumed(th: Thread): Ret {
    if th.call == NoCall then Nothing
    else if th.call.cancellable && th.cancelled
    then (if th.call.mutex.Some? then LockInterrupted(th.call.mutex.value) else Interrupted)
    else (if th.call.mutex.Some? then Locked(th.call.mutex.value) else Slept)
  }

  /** The end of sched_switch: the thread at the tail of the run queue runs on, out of the call it was in. */
  function Dispatch(s: State): State
    requires RUNQ in s.queues && s.queues[RUNQ].list != [] && Tail(s, RUNQ) in s.threads
  {
    var t := Tail(s, RUNQ);
    var th := s.threads[t];
    var r := Resumed(th);
    var s1 := Dequeue(s, RUNQ);
    s1.(threads := s1.threads[t := Thread(if r.Interrupted? || r.LockInterrupted? then Exited else th.state, th.cancelled, None, NoCall)],
        cur := t, switching := false, ret := r)
  }

  // -------------------------------------------------- queues stay consistent

  lemma EnqueueAt(s: State, q: Qid, t: Tid, p: Qid)
    requires QueuesOk(s) && q in s.queues && t in s.threads && s.threads[t].wchan.None? && p in s.queues
    ensures QueueOk(Enqueue(s, q, t), p)
  {
    assert QueueOk(s, p);
    assert t !in s.queues[p].list;
  }

  lemma EnqueueOk(s: State, q: Qid, t: Tid)
    requires QueuesOk(s) && q in s.queues && t in s.threads && s.threads[t].wchan.None?
    ensures QueuesOk(Enqueue(s, q, t))
  {
    hide QueueOk;
    var s' := Enqueue(s, q, t);
    forall p | p in s'.queues ensures QueueOk(s', p) { EnqueueAt(s, q, t, p); }
    forall u | u in s'.threads ensures OnIts(s', u) { assert OnIts(s, u); }
  }

  lemma DequeueAt(s: State, q: Qid, p: Qid)
    requires QueuesOk(s) && q in s.queues && s.queues[q].list != [] && p in s.queues
    ensures Tail(s, q) in s.threads && QueueOk(Dequeue(s, q), p)
  {
    assert QueueOk(s, q) && QueueOk(s, p);
    var t := Tail(s, q);
    assert t in s.queues[q].list;
    assert p != q ==> t !in s.queues[p].list;
  }

  lemma DequeueOk(s: State, q: Qid)
    requires QueuesOk(s) && q in s.queues && s.queues[q].list != []
    ensures Tail(s, q) in s.threads && s.threads[Tail(s, q)].wchan == Some(q) && QueuesOk(Dequeue(s, q))
  {
    var t := Tail(s, q);
    assert QueueOk(s, q) && t in s.queues[q].list;
    hide QueueOk;
    var s' := Dequeue(s, q);
    forall p | p in s'.queues ensures QueueOk(s', p) { DequeueAt(s, q, p); }
    forall u | u in s'.threads ensures OnIts(s', u) {
      assert OnIts(s, u);
      if u != t && s.threads[u].wchan == Some(q) { NotLast(s.queues[q].list, u); }
    }
  }

  lemma NotLast(l: seq<Tid>, u: Tid)
    requires u in l && u != l[|l| - 1]
    ensures u in l[..|l| - 1]
  {
    var i :| 0 <= i < |l| && l[i] == u;
    assert l[..|l| - 1][i] == u;
  }

  lemma RemoveAt(s: State, q: Qid, t: Tid, p: Qid)
    requires QueuesOk(s) && q in s.queues && t in s.threads && s.threads[t].wchan == Some(q) && p in s.queues
    ensures QueueOk(RemoveFrom(s, q, t), p)
  {
    assert QueueOk(s, q) && QueueOk(s, p) && OnIts(s, t);
    WithoutIs(s.queues[q].list, t);
    hide Without;
    assert p != q ==> t !in s.queues[p].list;
  }

  lemma RemoveOk(s: State, q: Qid, t: Tid)
    requires QueuesOk(s) && q in s.queues && t in s.threads && s.threads[t].wchan == Some(q)
    ensures QueuesOk(RemoveFrom(s, q, t))
  {
    assert QueueOk(s, q);
    WithoutIs(s.queues[q].list, t);
    hide QueueOk, Without;
    var s' := RemoveFrom(s, q, t);
    forall p | p in s'.queues ensures QueueOk(s', p) { RemoveAt(s, q, t, p); }
    forall u | u in s'.threads ensures OnIts(s', u) { assert OnIts(s, u); }
  }

  /** A thread's other fields do not matter to the queues. */
  lemma SetOk(s: State, t: Tid, th: Thread)
    requires QueuesOk(s) && t in s.threads && th.wchan == s.threads[t].wchan
    ensures QueuesOk(SetThread(s, t, th))
  {
    var s' := SetThread(s, t, th);
    forall p | p in s'.queues ensures QueueOk(s', p) { assert QueueOk(s, p); }
    forall u | u in s'.threads ensures OnIts(s', u) { assert OnIts(s, u); }
  }

  /** A new thread is on no queue. */
  lemma AddOk(s: State, t: Tid, th: Thread)
    requires QueuesOk(s) && t !in s.threads && th.wchan.None?
    ensures QueuesOk(SetThread(s, t, th))
  {
    var s' := SetThread(s, t, th);
    forall p | p in s'.queues ensures QueueOk(s', p) { assert QueueOk(s, p); }
    forall u | u in s'.threads ensures OnIts(s', u) { if u != t { assert OnIts(s, u); } }
  }

  lemma RunnableOk(s: State, t: Tid)
    requires QueuesOk(s) && t in s.threads && s.threads[t].wchan.None?
    ensures QueuesOk(MakeRunnable(s, t))
    ensures MakeRunnable(s, t).threads == s.threads[t := s.threads[t].(state := Running, wchan := Some(RUNQ))]
  {
    hide QueuesOk;
    assert RUNQ in s.queues by { HasRunq(s); }
    SetOk(s, t, s.threads[t].(state := Running));
    EnqueueOk(SetThread(s, t, s.threads[t].(state := Running)), RUNQ, t);
  }

  lemma HasRunq(s: State)
    requires QueuesOk(s)
    ensures RUNQ in s.queues && s.cur in s.threads
  {
  }
}
