/**
 * A run from an initial state in which a cancellable lock call reports an
 * interruption although its caller has been handed the mutex
 * (kernel/proc/kmutex.c:71-77, sched.c:146-154).
 */
module InterruptedRun {
  import opened Basics
  import opened Sched
  import opened SchedRuns
  import opened SchedOrder

  const WAITQ: Qid := 1
  const EVENTQ: Qid := 2

  /** Threads 0 and 1, one mutex with its queue, one other queue. */
  function Two(t0: Thread, t1: Thread, run: seq<Tid>, wait: seq<Tid>, event: seq<Tid>, holder: Option<Tid>,
               cur: Tid, switching: bool, ret: Ret): State
  {
    State(map[0 := t0, 1 := t1],
          map[RUNQ := Queue(run, |run|), WAITQ := Queue(wait, |wait|), EVENTQ := Queue(event, |event|)],
          map[0 := Mutex(holder, WAITQ)], cur, switching, ret)
  }

  function Running0(): Thread { Thread(Running, false, None, NoCall) }

  function Ready(cancelled: bool, call: Call): Thread { Thread(Running, cancelled, Some(RUNQ), call) }

  function Waiting(): Thread { Thread(SleepCancellable, false, Some(WAITQ), Sleeping(true, Some(0))) }

  /** One thread, running, and a free mutex. */
  function Alone(): State {
    State(map[0 := Running0()], map[RUNQ := Queue([], 0), WAITQ := Queue([], 0), EVENTQ := Queue([], 0)],
          map[0 := Mutex(None, WAITQ)], 0, false, Nothing)
  }

  /**
   * Thread 0 starts thread 1, takes the mutex and yields; thread 1 waits for
   * it; thread 0 unlocks, cancels thread 1 and sleeps; thread 1 is back.
   */
  const ACTS: seq<Action> := [Create(1), Start(1), DoLock(0), Yield, DoDispatch, DoLockCancellable(0), DoDispatch,
                              DoUnlock(0), DoCancel(1), DoSleep(EVENTQ), DoDispatch]

  /** The state before step i. */
  function Before(i: nat): State
    requires i <= |ACTS|
  {
    var inLock := Sleeping(true, Some(0));
    if i == 0 then Alone()
    else if i == 1 then Two(Running0(), Thread(NoState, false, None, NoCall), [], [], [], None, 0, false, Nothing)
    else if i == 2 then Two(Running0(), Ready(false, NoCall), [1], [], [], None, 0, false, Nothing)
    else if i == 3 then Two(Running0(), Ready(false, NoCall), [1], [], [], Some(0), 0, false, Locked(0))
    else if i == 4 then Two(Ready(false, NoCall), Ready(false, NoCall), [0, 1], [], [], Some(0), 0, true, Nothing)
    else if i == 5 then Two(Ready(false, NoCall), Running0(), [0], [], [], Some(0), 1, false, Nothing)
    else if i == 6 then Two(Ready(false, NoCall), Waiting(), [0], [1], [], Some(0), 1, true, Nothing)
    else if i == 7 then Two(Running0(), Waiting(), [], [1], [], Some(0), 0, false, Nothing)
    else if i == 8 then Two(Running0(), Ready(false, inLock), [1], [], [], Some(1), 0, false, Nothing)
    else if i == 9 then Two(Running0(), Ready(true, inLock), [1], [], [], Some(1), 0, false, Nothing)
    else if i == 10 then Two(Thread(Sleep, false, Some(EVENTQ), Sleeping(false, None)), Ready(true, inLock), [1], [], [0], Some(1), 0, true, Nothing)
    else Two(Thread(Sleep, false, Some(EVENTQ), Sleeping(false, None)), Thread(Exited, true, None, NoCall), [], [], [0], Some(1), 1, false, LockInterrupted(0))
  }

  lemma AloneInitial()
    ensures Initial(Alone())
  {
  }

  /** Small lists, as the queues build and take them apart. */
  lemma Lists()
    ensures [1] + [] == [1] && [0] + [1] == [0, 1] && [0] + [] == [0]
    ensures [0, 1][..1] == [0] && [0][..0] == [] && [1][..0] == []
  {
  }

  lemma Starts(i: nat)
    requires i < 4 && Good(Before(i))
    ensures Enabled(Before(i), ACTS[i]) && Apply(Before(i), ACTS[i]) == Before(i + 1)
  {
    hide SchedInv, MutexesOk, Dispatch, UnlockOf, CancelThread, SleepOn;
    Lists();
    var e, f := Apply(Before(i), ACTS[i]), Before(i + 1);
    assert e.threads == f.threads && e.queues == f.queues && e.mutexes == f.mutexes;
  }

  lemma FirstSwitch()
    requires Good(Before(4))
    ensures Enabled(Before(4), DoDispatch) && Apply(Before(4), DoDispatch) == Before(5)
  {
    hide SchedInv, MutexesOk, LockOn, UnlockOf, CancelThread, SleepOn, MakeRunnable;
    Lists();
    var e, f := Apply(Before(4), DoDispatch), Before(5);
    assert e.threads == f.threads && e.queues == f.queues && e.mutexes == f.mutexes;
  }

  lemma Blocks()
    requires Good(Before(5))
    ensures Enabled(Before(5), DoLockCancellable(0)) && Apply(Before(5), DoLockCancellable(0)) == Before(6)
  {
    hide SchedInv, MutexesOk, Dispatch, UnlockOf, CancelThread, MakeRunnable;
    Lists();
    var e, f := Apply(Before(5), DoLockCancellable(0)), Before(6);
    assert e.threads == f.threads && e.queues == f.queues && e.mutexes == f.mutexes;
  }

  lemma SecondSwitch()
    requires Good(Before(6))
    ensures Enabled(Before(6), DoDispatch) && Apply(Before(6), DoDispatch) == Before(7)
  {
    hide SchedInv, MutexesOk, LockOn, UnlockOf, CancelThread, SleepOn, MakeRunnable;
    Lists();
    var e, f := Apply(Before(6), DoDispatch), Before(7);
    assert e.threads == f.threads && e.queues == f.queues && e.mutexes == f.mutexes;
  }

  lemma HandsOver()
    requires Good(Before(7))
    ensures Enabled(Before(7), DoUnlock(0)) && Apply(Before(7), DoUnlock(0)) == Before(8)
  {
    hide SchedInv, MutexesOk, Dispatch, LockOn, SleepOn, CancelThread;
    Lists();
    var e, f := Apply(Before(7), DoUnlock(0)), Before(8);
    assert e.threads == f.threads && e.queues == f.queues && e.mutexes == f.mutexes;
  }

  lemma Cancels()
    requires Good(Before(8))
    ensures Enabled(Before(8), DoCancel(1)) && Apply(Before(8), DoCancel(1)) == Before(9)
  {
    hide SchedInv, MutexesOk, Dispatch, LockOn, SleepOn, UnlockOf, MakeRunnable, RemoveFrom;
    Lists();
    var e, f := Apply(Before(8), DoCancel(1)), Before(9);
    assert e.threads == f.threads && e.queues == f.queues && e.mutexes == f.mutexes;
  }

  lemma Leaves()
    requires Good(Before(9))
    ensures Enabled(Before(9), DoSleep(EVENTQ)) && Apply(Before(9), DoSleep(EVENTQ)) == Before(10)
  {
    hide SchedInv, MutexesOk, Dispatch, LockOn, UnlockOf, CancelThread, MakeRunnable;
    Lists();
    var e, f := Apply(Before(9), DoSleep(EVENTQ)), Before(10);
    assert e.threads == f.threads && e.queues == f.queues && e.mutexes == f.mutexes;
  }

  lemma ThirdSwitch()
    requires Good(Before(10))
    ensures Enabled(Before(10), DoDispatch) && Apply(Before(10), DoDispatch) == Before(11)
  {
    hide SchedInv, MutexesOk, LockOn, UnlockOf, CancelThread, SleepOn, MakeRunnable;
    Lists();
    var e, f := Apply(Before(10), DoDispatch), Before(11);
    assert e.threads == f.threads && e.queues == f.queues && e.mutexes == f.mutexes;
  }

  lemma {:induction false} Onwards(i: nat)
    requires i <= |ACTS| && Good(Before(i))
    ensures Legal(Before(i), ACTS[i..]) && Run(Before(i), ACTS[i..]) == Before(|ACTS|)
    decreases |ACTS| - i
  {
    hide SchedInv, MutexesOk, Enabled, Apply, Before;
    if i < |ACTS| {
      if i < 4 { Starts(i); }
      else if i == 4 { FirstSwitch(); }
      else if i == 5 { Blocks(); }
      else if i == 6 { SecondSwitch(); }
      else if i == 7 { HandsOver(); }
      else if i == 8 { Cancels(); }
      else if i == 9 { Leaves(); }
      else { ThirdSwitch(); }
      StepGood(Before(i), ACTS[i]);
      assert ACTS[i..][1..] == ACTS[i + 1..];
      Onwards(i + 1);
    }
  }

  /** A cancellable lock call reports an interruption, and its caller holds the mutex. */
  lemma InterruptedHolder()
    ensures Initial(Alone()) && Good(Alone()) && Legal(Alone(), ACTS)
    ensures var e := Run(Alone(), ACTS); e.cur == 1 && e.ret == LockInterrupted(0) && 0 in e.mutexes && e.mutexes[0].holder == Some(1)
  {
    hide SchedInv, MutexesOk, Initial, Legal, Run;
    AloneInitial();
    InitialGood(Alone());
    Onwards(0);
    assert ACTS[0..] == ACTS;
  }
}
