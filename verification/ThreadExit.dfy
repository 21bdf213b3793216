/** A thread that has left through kthread_exit never runs again (kernel/proc/kthread.c:167-183, kernel/proc/sched.c). */
module ThreadExit {
  import opened Sched
  import opened SchedRuns
  import opened SchedOrder

  /**
   * Thread t has exited and runs no further.  The state alone does not say so:
   * an interrupted sleeper has state Exited too, and runs on.
   */
  predicate Gone(s: State, t: Tid) { t in s.threads && s.threads[t].state == Exited && !Runs(s, t) }

  lemma GoneQueues(s: State, t: Tid)
    requires SchedInv(s) && Gone(s, t)
    ensures s.threads[t].wchan.None?
    ensures forall q :: q in s.queues && s.queues[q].list != [] ==> Tail(s, q) != t
  {
    assert StateOk(s, t);
    forall q | q in s.queues && s.queues[q].list != [] ensures Tail(s, q) != t {
      assert QueueOk(s, q) && Tail(s, q) in s.queues[q].list;
    }
  }

  lemma {:induction false} BroadcastGone(s: State, q: Qid, n: nat, t: Tid)
    requires Good(s) && PlainQueue(s, q) && Gone(s, t)
    ensures RUNQ in s.queues && Gone(BroadcastOn(s, q, n), t)
    decreases n
  {
    hide SchedInv, MutexesOk;
    GoneQueues(s, t);
    WakeupInv(s, q);
    WakeupMutexes(s, q);
    if n > 0 && s.queues[q].list != [] {
      BroadcastGone(WakeupOn(s, q), q, n - 1, t);
    }
  }

  lemma CancelGone(s: State, u: Tid, t: Tid)
    requires Good(s) && Enabled(s, DoCancel(u)) && Gone(s, t)
    ensures Gone(Apply(s, DoCancel(u)), t)
  {
    hide SchedInv, MutexesOk;
  }

  /** No step brings an exited thread back. */
  lemma StepGone(s: State, a: Action, t: Tid)
    requires Good(s) && Enabled(s, a) && Gone(s, t)
    ensures Gone(Apply(s, a), t)
  {
    hide SchedInv, MutexesOk, BroadcastOn, CancelThread;
    GoneQueues(s, t);
    match a
    case DoWakeup(q) => WakeupInv(s, q);
    case DoBroadcast(q) => BroadcastGone(s, q, |s.queues[q].list|, t);
    case DoCancel(u) => CancelGone(s, u, t);
    case DoDispatch => DispatchInv(s);
    case DoLock(m) => WaitqFacts(s, m);
    case DoLockCancellable(m) => WaitqFacts(s, m);
    case DoUnlock(m) => WaitqFacts(s, m);
    case _ =>
  }

  lemma {:induction false} StaysGone(s: State, acts: seq<Action>, t: Tid)
    requires Good(s) && Legal(s, acts) && Gone(s, t)
    ensures Gone(Run(s, acts), t)
    decreases |acts|
  {
    if acts != [] {
      StepGood(s, acts[0]);
      StepGone(s, acts[0], t);
      StaysGone(Apply(s, acts[0]), acts[1..], t);
    }
  }

  /** After the thread that runs exits, it runs in no state of any continuation. */
  lemma NeverRunsAgain(s: State, acts: seq<Action>)
    requires Good(s) && Legal(s, [DoExit] + acts)
    ensures Gone(Run(s, [DoExit] + acts), s.cur)
  {
    StepGood(s, DoExit);
    assert ([DoExit] + acts)[1..] == acts;
    StaysGone(Apply(s, DoExit), acts, s.cur);
  }
}
