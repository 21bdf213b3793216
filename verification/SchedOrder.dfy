/**
 * Whole runs of the scheduler: the invariants hold throughout, a runnable
 * thread is dispatched in its turn, a lock call that succeeds returns with the
 * caller as holder, and no waiter is overtaken (kernel/proc/sched.c, kmutex.c).
 */
module SchedOrder {
  import opened Basics
  import opened Sched
  import opened SchedRuns

  ghost predicate Good(s: State) { SchedInv(s) && MutexesOk(s) }

  // ------------------------------------------------------------------- runs

  lemma {:induction false} BroadcastGood(s: State, q: Qid, n: nat)
    requires Good(s) && PlainQueue(s, q)
    ensures RUNQ in s.queues && Good(BroadcastOn(s, q, n))
    ensures BroadcastOn(s, q, n).cur == s.cur && BroadcastOn(s, q, n).switching == s.switching
    decreases n
  {
    hide SchedInv, MutexesOk;
    WakeupInv(s, q);
    WakeupMutexes(s, q);
    if n > 0 && s.queues[q].list != [] {
      BroadcastGood(WakeupOn(s, q), q, n - 1);
    }
  }

  lemma CancellableLockGood(s: State, m: Mid)
    requires Good(s) && Enabled(s, DoLockCancellable(m)) && s.mutexes[m].holder.Some?
    ensures s.cur in s.threads && s.mutexes[m].waitq in s.queues && Good(CancellableSleepOn(s, s.mutexes[m].waitq, Some(m)))
  {
    hide SchedInv, MutexesOk, SleepOn;
    Queues(s);
    HasRunq(s);
    WaitqFacts(s, m);
    var q := s.mutexes[m].waitq;
    CancellableSleepInv(s, q, Some(m));
    if s.threads[s.cur].cancelled {
      ExitMutexes(s, s.cur);
      SameMutexes(SetThread(s, s.cur, s.threads[s.cur].(state := Exited)), CancellableSleepOn(s, q, Some(m)));
    } else {
      BlockMutex(s, m, true);
    }
  }

  lemma Queues(s: State)
    requires SchedInv(s)
    ensures QueuesOk(s)
  {
  }

  lemma LockGood(s: State, m: Mid, cancellable: bool)
    requires Good(s) && !s.switching && m in s.mutexes && s.mutexes[m].holder != Some(s.cur)
    ensures s.cur in s.threads && s.mutexes[m].waitq in s.queues && Good(LockOn(s, m, cancellable))
  {
    hide SchedInv, MutexesOk, SleepOn, CancellableSleepOn;
    Queues(s);
    HasRunq(s);
    WaitqFacts(s, m);
    if s.mutexes[m].holder.None? {
      FreeLock(s, m);
      SameSched(s, LockOn(s, m, cancellable));
    } else if cancellable {
      CancellableLockGood(s, m);
    } else {
      SleepInv(s, s.mutexes[m].waitq, false, Some(m));
      BlockMutex(s, m, false);
    }
  }

  /** The scheduler does not look at the mutexes or at what was returned. */
  lemma SameSched(s: State, s': State)
    requires SchedInv(s) && s'.threads == s.threads && s'.queues == s.queues && s'.cur == s.cur && s'.switching == s.switching
    ensures SchedInv(s')
  {
    SameQueues(s, s');
    hide QueuesOk;
    forall t | t in s'.threads ensures StateOk(s', t) { InvAt(s, t); }
  }

  lemma UnlockGood(s: State, m: Mid)
    requires Good(s) && Enabled(s, DoUnlock(m))
    ensures RUNQ in s.queues && s.mutexes[m].waitq in s.queues
    ensures s.queues[s.mutexes[m].waitq].list != [] ==> Tail(s, s.mutexes[m].waitq) in s.threads
    ensures Good(UnlockOf(s, m))
  {
    hide SchedInv, MutexesOk, WakeupOn;
    WaitqFacts(s, m);
    UnlockMutexes(s, m);
    WakeupInv(s, s.mutexes[m].waitq);
    SameSched(WakeupOn(s, s.mutexes[m].waitq), UnlockOf(s, m));
  }

  lemma PlainSleepGood(s: State, q: Qid, cancellable: bool)
    requires Good(s) && !s.switching && PlainQueue(s, q)
    ensures s.cur in s.threads
    ensures Good(if cancellable then CancellableSleepOn(s, q, None) else SleepOn(s, q, false, None))
  {
    hide SchedInv, MutexesOk, SleepOn;
    Queues(s);
    HasRunq(s);
    if cancellable {
      CancellableSleepInv(s, q, None);
      if s.threads[s.cur].cancelled {
        ExitMutexes(s, s.cur);
        SameMutexes(SetThread(s, s.cur, s.threads[s.cur].(state := Exited)), CancellableSleepOn(s, q, None));
      } else {
        SleepMutexes(s, q, true);
      }
    } else {
      SleepInv(s, q, false, None);
      SleepMutexes(s, q, false);
    }
  }

  lemma LeaveGood(s: State)
    requires Good(s) && !s.switching
    ensures Good(Apply(s, Yield)) && Good(Apply(s, DoExit))
  {
    hide SchedInv, MutexesOk, MakeRunnable;
    YieldInv(s);
    RunnableMutexes(s, s.cur);
    SameMutexes(MakeRunnable(s, s.cur), Apply(s, Yield));
    ExitInv(s);
    ExitMutexes(s, s.cur);
    SameMutexes(SetThread(s, s.cur, s.threads[s.cur].(state := Exited)), Apply(s, DoExit));
  }

  lemma NewThreadGood(s: State, a: Action)
    requires Good(s) && Enabled(s, a) && (a.Create? || a.Clone? || a.Start?)
    ensures Good(Apply(s, a))
  {
    hide SchedInv, MutexesOk, MakeRunnable, SetThread;
    Queues(s);
    HasRunq(s);
    match a
    case Create(t) => CreateInv(s, t); CreateMutexes(s, t);
    case Clone(t) =>
      var th := Thread(Running, s.threads[s.cur].cancelled, None, NoCall);
      CloneInv(s, t, th);
      CloneMutexes(s, t, th);
    case Start(t) => StartInv(s, t); RunnableMutexes(s, t);
  }

  /** Every step keeps the invariants of the scheduler and of the mutexes. */
  lemma StepGood(s: State, a: Action)
    requires Good(s) && Enabled(s, a)
    ensures Good(Apply(s, a))
  {
    hide SchedInv, MutexesOk, SleepOn, CancellableSleepOn, WakeupOn, BroadcastOn, CancelThread, Dispatch, LockOn, UnlockOf, MakeRunnable, SetThread;
    Queues(s);
    HasRunq(s);
    match a
    case Create(_) => NewThreadGood(s, a);
    case Clone(_) => NewThreadGood(s, a);
    case Start(_) => NewThreadGood(s, a);
    case Yield => LeaveGood(s);
    case DoSleep(q) => PlainSleepGood(s, q, false);
    case DoCancellableSleep(q) => PlainSleepGood(s, q, true);
    case DoWakeup(q) => WakeupInv(s, q); WakeupMutexes(s, q);
    case DoBroadcast(q) => BroadcastGood(s, q, |s.queues[q].list|);
    case DoCancel(t) => CancelInv(s, t); CancelMutexes(s, t);
    case DoExit => LeaveGood(s);
    case DoDispatch => DispatchInv(s); DispatchMutexes(s);
    case DoLock(m) => LockGood(s, m, false);
    case DoLockCancellable(m) => LockGood(s, m, true);
    case DoUnlock(m) => UnlockGood(s, m);
  }

  /** A sequence of steps each of which is enabled when it is taken. */
  ghost predicate Legal(s: State, acts: seq<Action>)
    requires Good(s)
    decreases |acts|
  {
    acts != [] ==> Enabled(s, acts[0]) && (StepGood(s, acts[0]); Legal(Apply(s, acts[0]), acts[1..]))
  }

  ghost function Run(s: State, acts: seq<Action>): State
    requires Good(s) && Legal(s, acts)
    decreases |acts|
  {
    if acts == [] then s else
      StepGood(s, acts[0]);
      Run(Apply(s, acts[0]), acts[1..])
  }

  /** Every state of every run is good: no thread is lost, misplaced or twice on a queue, and every mutex is in order. */
  lemma {:induction false} RunGood(s: State, acts: seq<Action>)
    requires Good(s) && Legal(s, acts)
    ensures Good(Run(s, acts))
    decreases |acts|
  {
    if acts != [] {
      StepGood(s, acts[0]);
      RunGood(Apply(s, acts[0]), acts[1..]);
    }
  }

  /** One running thread, empty queues, free mutexes with a queue each. */
  ghost predicate Initial(s: State) {
    && s.cur in s.threads && s.threads == map[s.cur := Thread(Running, false, None, NoCall)] && !s.switching
    && RUNQ in s.queues && (forall q :: q in s.queues ==> s.queues[q] == Queue([], 0))
    && (forall m :: m in s.mutexes ==> s.mutexes[m].holder.None? && s.mutexes[m].waitq in s.queues && s.mutexes[m].waitq != RUNQ)
    && (forall m, k :: m in s.mutexes && k in s.mutexes && m != k ==> s.mutexes[m].waitq != s.mutexes[k].waitq)
  }

  lemma InitialGood(s: State)
    requires Initial(s)
    ensures Good(s)
  {
  }

  // ---------------------------------------------------------- the run queue

  /** t is the thread that k others precede on the run queue. */
  ghost predicate AtDist(s: State, k: nat, t: Tid) {
    RUNQ in s.queues && k < |s.queues[RUNQ].list| && s.queues[RUNQ].list[|s.queues[RUNQ].list| - 1 - k] == t
  }

  lemma {:induction false} BroadcastBehind(s: State, q: Qid, n: nat, k: nat, t: Tid)
    requires Good(s) && PlainQueue(s, q) && AtDist(s, k, t)
    ensures AtDist(BroadcastOn(s, q, n), k, t)
    decreases n
  {
    hide SchedInv, MutexesOk;
    WakeupInv(s, q);
    WakeupMutexes(s, q);
    if n > 0 && s.queues[q].list != [] {
      BroadcastBehind(WakeupOn(s, q), q, n - 1, k, t);
    }
  }

  lemma UnlockBehind(s: State, m: Mid, k: nat, t: Tid)
    requires Good(s) && Enabled(s, DoUnlock(m)) && AtDist(s, k, t)
    ensures AtDist(Apply(s, DoUnlock(m)), k, t)
  {
    hide SchedInv, MutexesOk;
    WaitqFacts(s, m);
    UnlockGood(s, m);
  }

  lemma LockBehind(s: State, m: Mid, cancellable: bool, k: nat, t: Tid)
    requires Good(s) && !s.switching && m in s.mutexes && s.mutexes[m].holder != Some(s.cur) && AtDist(s, k, t)
    ensures s.cur in s.threads && s.mutexes[m].waitq in s.queues && AtDist(LockOn(s, m, cancellable), k, t)
  {
    hide SchedInv, MutexesOk;
    WaitqFacts(s, m);
    LockGood(s, m, cancellable);
  }

  lemma CancelBehind(s: State, u: Tid, k: nat, t: Tid)
    requires Good(s) && Enabled(s, DoCancel(u)) && AtDist(s, k, t)
    ensures AtDist(Apply(s, DoCancel(u)), k, t)
  {
    InvAt(s, u);
    hide SchedInv, MutexesOk;
  }

  /** Only a switch moves a thread up the run queue, and the first in line is the one that runs. */
  lemma StepDist(s: State, a: Action, k: nat, t: Tid)
    requires Good(s) && Enabled(s, a) && AtDist(s, k, t)
    ensures !a.DoDispatch? ==> AtDist(Apply(s, a), k, t)
    ensures a.DoDispatch? ==> if k == 0 then Apply(s, a).cur == t && !Apply(s, a).switching else AtDist(Apply(s, a), k - 1, t)
  {
    hide SchedInv, MutexesOk, LockOn, UnlockOf, CancelThread, BroadcastOn;
    Queues(s);
    HasRunq(s);
    match a
    case Create(_) =>
    case Clone(_) =>
    case Start(_) =>
    case Yield =>
    case DoSleep(q) =>
    case DoCancellableSleep(q) =>
    case DoWakeup(q) => WakeupInv(s, q);
    case DoBroadcast(q) => BroadcastBehind(s, q, |s.queues[q].list|, k, t);
    case DoCancel(u) => CancelBehind(s, u, k, t);
    case DoExit =>
    case DoDispatch => DispatchInv(s);
    case DoLock(m) => LockBehind(s, m, false, k, t);
    case DoLockCancellable(m) => LockBehind(s, m, true, k, t);
    case DoUnlock(m) => UnlockBehind(s, m, k, t);
  }

  function Switches(acts: seq<Action>): nat {
    if acts == [] then 0 else (if acts[0].DoDispatch? then 1 else 0) + Switches(acts[1..])
  }

  /** A thread that is started or cloned, or that yields, is the last to run, behind all that could run before. */
  lemma JoinsLast(s: State, a: Action)
    requires Good(s) && Enabled(s, a) && (a.Start? || a.Clone? || a.Yield?)
    ensures RUNQ in s.queues && RUNQ in Apply(s, a).queues
    ensures Apply(s, a).queues[RUNQ].list == [if a.Yield? then s.cur else a.t] + s.queues[RUNQ].list
    ensures Apply(s, a).switching == a.Yield?
  {
    hide SchedInv, MutexesOk;
    Queues(s);
    HasRunq(s);
  }

  /** A thread with k others before it on the run queue runs after the (k+1)-th switch, whatever happens in between. */
  lemma {:induction false} DispatchedInTurn(s: State, acts: seq<Action>, k: nat, t: Tid)
    requires Good(s) && AtDist(s, k, t) && acts != [] && acts[|acts| - 1].DoDispatch? && Switches(acts) == k + 1 && Legal(s, acts)
    ensures Run(s, acts).cur == t && !Run(s, acts).switching
    decreases |acts|
  {
    var a := acts[0];
    StepGood(s, a);
    StepDist(s, a, k, t);
    hide Good, Enabled, Apply;
    if |acts| > 1 {
      LastSwitch(acts[1..]);
      DispatchedInTurn(Apply(s, a), acts[1..], if a.DoDispatch? then k - 1 else k, t);
    }
  }

  lemma {:induction false} LastSwitch(acts: seq<Action>)
    requires acts != [] && acts[|acts| - 1].DoDispatch?
    ensures Switches(acts) >= 1
  {
    if |acts| > 1 { LastSwitch(acts[1..]); }
  }

  // ------------------------------------------------------------- the mutexes

  /** In every state a mutex has at most one holder, who does not wait for it, and none waits for a free one. */
  lemma MutexProtocol(s: State, acts: seq<Action>, m: Mid)
    requires Good(s) && Legal(s, acts) && m in Run(s, acts).mutexes
    ensures var e := Run(s, acts);
      && e.mutexes[m].waitq in e.queues
      && (e.mutexes[m].holder.None? ==> e.queues[e.mutexes[m].waitq].list == [])
      && (forall t :: t in e.queues[e.mutexes[m].waitq].list ==> e.mutexes[m].holder != Some(t))
  {
    RunGood(s, acts);
    assert MutexOk(Run(s, acts), m);
  }

  /** Every lock call that reports success, at once or after sleeping, returns with the caller as the holder. */
  lemma LockReturns(s: State, a: Action, m: Mid)
    requires Good(s) && Enabled(s, a) && (a.DoDispatch? || a.DoLock? || a.DoLockCancellable?)
    requires Apply(s, a).ret == Locked(m) && !Apply(s, a).switching
    ensures m in Apply(s, a).mutexes && Apply(s, a).mutexes[m].holder == Some(Apply(s, a).cur)
  {
    if a.DoDispatch? {
      var t := Tail(s, RUNQ);
      DequeueOk(s, RUNQ);
      assert WaiterOk(s, t, m);
      NotOnMutexQueue(s, t, m);
    }
    hide SchedInv, MutexesOk;
  }

  /** t waits for m, u does not hold it, and everyone who was queued before t is someone else than u. */
  ghost predicate Ahead(s: State, m: Mid, t: Tid, u: Tid) {
    && OnMutexQueue(s, t, m) && s.mutexes[m].holder != Some(u)
    && exists i: nat :: Passed(s.queues[s.mutexes[m].waitq].list, i, t, u)
  }

  ghost predicate Passed(l: seq<Tid>, i: nat, t: Tid, u: Tid) {
    i < |l| && l[i] == t && u !in l[i..]
  }

  lemma PassedPush(l: seq<Tid>, i: nat, t: Tid, u: Tid, x: Tid)
    requires Passed(l, i, t, u)
    ensures Passed([x] + l, i + 1, t, u)
  {
    assert ([x] + l)[i + 1..] == l[i..];
  }

  lemma PassedPop(l: seq<Tid>, i: nat, t: Tid, u: Tid)
    requires Passed(l, i, t, u) && l[|l| - 1] != t
    ensures l != [] && Passed(l[..|l| - 1], i, t, u) && l[|l| - 1] != u
  {
    var r := l[..|l| - 1];
    assert l[i..][|l| - 1 - i] == l[|l| - 1];
    forall x | x in r[i..] ensures x in l[i..] {
      var k :| 0 <= k < |r[i..]| && r[i..][k] == x;
      assert l[i..][k] == x;
    }
  }

  lemma {:induction false} PassedWithout(l: seq<Tid>, i: nat, t: Tid, u: Tid, x: Tid) returns (j: nat)
    requires Passed(l, i, t, u) && x != t && NoDup(l)
    ensures Passed(Without(l, x), j, t, u)
  {
    if l[0] == x {
      j := i - 1;
      assert l[1..][j..] == l[i..];
    } else if i == 0 {
      j := 0;
      WithoutIs(l, x);
      assert l[0..] == l;
      assert Without(l, x)[0..] == Without(l, x);
    } else {
      assert l[1..][i - 1..] == l[i..];
      j := PassedWithout(l[1..], i - 1, t, u, x);
      PassedPush(Without(l[1..], x), j, t, u, l[0]);
      j := j + 1;
    }
  }

  /** A step that leaves m and its queue alone. */
  lemma AheadFrame(s: State, s': State, m: Mid, t: Tid, u: Tid)
    requires Ahead(s, m, t, u) && m in s'.mutexes && s'.mutexes[m] == s.mutexes[m]
    requires s.mutexes[m].waitq in s'.queues && s'.queues[s.mutexes[m].waitq].list == s.queues[s.mutexes[m].waitq].list
    ensures Ahead(s', m, t, u)
  {
    var i: nat :| Passed(s.queues[s.mutexes[m].waitq].list, i, t, u);
  }

  /** What a lock call does to the mutexes and their queues. */
  lemma LockEffect(s: State, k: Mid, cancellable: bool, m: Mid)
    requires Good(s) && !s.switching && k in s.mutexes && s.mutexes[k].holder != Some(s.cur) && m in s.mutexes
    ensures s.cur in s.threads && s.mutexes[k].waitq in s.queues && s.mutexes[m].waitq in s.queues
    ensures var e := LockOn(s, k, cancellable); var q := s.mutexes[m].waitq;
      && m in e.mutexes && e.mutexes[m].waitq == q && q in e.queues
      && (e.mutexes[m].holder == s.mutexes[m].holder || (s.mutexes[m].holder.None? && e.mutexes[m].holder == Some(s.cur)))
      && (e.queues[q].list == s.queues[q].list || e.queues[q].list == [s.cur] + s.queues[q].list)
  {
    hide SchedInv, MutexesOk;
    LockGood(s, k, cancellable);
    WaitqFacts(s, m);
    WaitqFacts(s, k);
  }

  lemma AheadLock(s: State, k: Mid, cancellable: bool, m: Mid, t: Tid, u: Tid)
    requires Good(s) && !s.switching && k in s.mutexes && s.mutexes[k].holder != Some(s.cur) && Ahead(s, m, t, u)
    ensures s.cur in s.threads && s.mutexes[k].waitq in s.queues && Ahead(LockOn(s, k, cancellable), m, t, u)
  {
    hide SchedInv, MutexesOk, LockOn, Passed;
    LockEffect(s, k, cancellable, m);
    HeldWhenQueued(s, m, t);
    var l := s.queues[s.mutexes[m].waitq].list;
    var i: nat :| Passed(l, i, t, u);
    PassedPush(l, i, t, u, s.cur);
  }

  lemma HeldWhenQueued(s: State, m: Mid, t: Tid)
    requires Good(s) && OnMutexQueue(s, t, m)
    ensures s.mutexes[m].holder.Some?
  {
    assert MutexOk(s, m);
  }

  /** An unlock hands the mutex to the thread that has waited longest, and only to it. */
  lemma HandOff(s: State, m: Mid)
    requires Good(s) && Enabled(s, DoUnlock(m))
    ensures var q := s.mutexes[m].waitq; var e := Apply(s, DoUnlock(m));
      && q in s.queues && q in e.queues
      && (s.queues[q].list == [] ==> e.mutexes[m].holder.None? && e.queues[q].list == [])
      && (s.queues[q].list != [] ==>
            && e.mutexes[m].holder == Some(s.queues[q].list[|s.queues[q].list| - 1])
            && e.queues[q].list == s.queues[q].list[..|s.queues[q].list| - 1]
            && AtDist(e, |s.queues[RUNQ].list|, s.queues[q].list[|s.queues[q].list| - 1]))
  {
    hide SchedInv, MutexesOk;
    WaitqFacts(s, m);
    UnlockGood(s, m);
  }

  lemma UnlockOther(s: State, k: Mid, m: Mid)
    requires Good(s) && Enabled(s, DoUnlock(k)) && m in s.mutexes && m != k
    ensures var q := s.mutexes[m].waitq; var e := Apply(s, DoUnlock(k));
      q in s.queues && q in e.queues && m in e.mutexes && e.mutexes[m] == s.mutexes[m] && e.queues[q].list == s.queues[q].list
  {
    hide SchedInv, MutexesOk;
    WaitqFacts(s, m);
    WaitqFacts(s, k);
    UnlockGood(s, k);
  }

  lemma LastGone(l: seq<Tid>)
    requires NoDup(l) && l != []
    ensures l[|l| - 1] !in l[..|l| - 1]
  {
  }

  lemma AheadUnlock(s: State, k: Mid, m: Mid, t: Tid, u: Tid)
    requires Good(s) && Enabled(s, DoUnlock(k)) && Ahead(s, m, t, u) && OnMutexQueue(Apply(s, DoUnlock(k)), t, m)
    ensures Ahead(Apply(s, DoUnlock(k)), m, t, u)
  {
    hide SchedInv, MutexesOk, UnlockOf, AtDist, Passed;
    WaitqFacts(s, m);
    var q := s.mutexes[m].waitq;
    var l := s.queues[q].list;
    var i: nat :| Passed(l, i, t, u);
    if k == m {
      HandOff(s, m);
      UnlockKeeps(s, m);
      LastGone(l);
      PassedPop(l, i, t, u);
    } else {
      UnlockOther(s, k, m);
      AheadFrame(s, Apply(s, DoUnlock(k)), m, t, u);
    }
  }

  lemma UnlockKeeps(s: State, m: Mid)
    requires Good(s) && Enabled(s, DoUnlock(m))
    ensures m in Apply(s, DoUnlock(m)).mutexes && Apply(s, DoUnlock(m)).mutexes[m].waitq == s.mutexes[m].waitq
  {
    hide SchedInv, MutexesOk;
    WaitqFacts(s, m);
    UnlockGood(s, m);
  }

  lemma AheadCancel(s: State, x: Tid, m: Mid, t: Tid, u: Tid)
    requires Good(s) && Enabled(s, DoCancel(x)) && Ahead(s, m, t, u) && OnMutexQueue(Apply(s, DoCancel(x)), t, m)
    ensures Ahead(Apply(s, DoCancel(x)), m, t, u)
  {
    CancelInv(s, x);
    InvAt(s, x);
    WaitqFacts(s, m);
    hide SchedInv, MutexesOk;
    var s' := Apply(s, DoCancel(x));
    var l := s.queues[s.mutexes[m].waitq].list;
    var i: nat :| Passed(l, i, t, u);
    if s.threads[x].state == SleepCancellable && s.threads[x].wchan == Some(s.mutexes[m].waitq) {
      WithoutIs(l, x);
      var j := PassedWithout(l, i, t, u, x);
    } else {
      AheadFrame(s, s', m, t, u);
    }
  }

  /** Mutex m and its queue are in e as they are in s. */
  ghost predicate SameMutex(s: State, e: State, m: Mid) {
    && m in s.mutexes && m in e.mutexes && e.mutexes[m] == s.mutexes[m]
    && s.mutexes[m].waitq in s.queues && s.mutexes[m].waitq in e.queues
    && e.queues[s.mutexes[m].waitq].list == s.queues[s.mutexes[m].waitq].list
  }

  /** The calls that are not about mutexes, nor cancel anyone. */
  predicate Plain(a: Action) {
    a.Create? || a.Clone? || a.Start? || a.Yield? || a.DoSleep? || a.DoCancellableSleep? || a.DoWakeup? || a.DoExit? || a.DoDispatch?
  }

  lemma PlainEffect(s: State, a: Action, m: Mid)
    requires Good(s) && Enabled(s, a) && Plain(a) && m in s.mutexes
    ensures SameMutex(s, Apply(s, a), m)
  {
    hide SchedInv, MutexesOk;
    WaitqFacts(s, m);
    TailsKnown(s);
    Queues(s);
    HasRunq(s);
  }

  lemma {:induction false} BroadcastEffect(s: State, q: Qid, n: nat, m: Mid)
    requires Good(s) && PlainQueue(s, q) && m in s.mutexes
    ensures RUNQ in s.queues && SameMutex(s, BroadcastOn(s, q, n), m)
    decreases n
  {
    hide SchedInv, MutexesOk;
    WaitqFacts(s, m);
    WakeupInv(s, q);
    WakeupMutexes(s, q);
    if n > 0 && s.queues[q].list != [] {
      BroadcastEffect(WakeupOn(s, q), q, n - 1, m);
    }
  }

  lemma AheadPlain(s: State, a: Action, m: Mid, t: Tid, u: Tid)
    requires Good(s) && Enabled(s, a) && Ahead(s, m, t, u) && (Plain(a) || a.DoBroadcast?)
    ensures Ahead(Apply(s, a), m, t, u)
  {
    hide SchedInv, MutexesOk, BroadcastOn, Passed;
    if a.DoBroadcast? { BroadcastEffect(s, a.q, |s.queues[a.q].list|, m); } else { PlainEffect(s, a, m); }
    AheadFrame(s, Apply(s, a), m, t, u);
  }

  /** While t stays queued, no step gives the mutex to one who is not before t. */
  lemma StepAhead(s: State, a: Action, m: Mid, t: Tid, u: Tid)
    requires Good(s) && Enabled(s, a) && Ahead(s, m, t, u) && OnMutexQueue(Apply(s, a), t, m)
    ensures Ahead(Apply(s, a), m, t, u)
  {
    hide SchedInv, MutexesOk, Ahead, OnMutexQueue, LockOn, UnlockOf, CancelThread, BroadcastOn;
    match a
    case DoCancel(x) => AheadCancel(s, x, m, t, u);
    case DoLock(k) => AheadLock(s, k, false, m, t, u);
    case DoLockCancellable(k) => AheadLock(s, k, true, m, t, u);
    case DoUnlock(k) => AheadUnlock(s, k, m, t, u);
    case _ => AheadPlain(s, a, m, t, u);
  }

  /** t is on m's queue after every step. */
  ghost predicate StaysQueued(s: State, acts: seq<Action>, m: Mid, t: Tid)
    requires Good(s) && Legal(s, acts)
    decreases |acts|
  {
    OnMutexQueue(s, t, m) &&
    (acts != [] ==> (StepGood(s, acts[0]); StaysQueued(Apply(s, acts[0]), acts[1..], m, t)))
  }

  /**
   * No overtaking: if u was not before t on the queue of m, then for as long
   * as t waits, through any steps and cancellations, u does not get m.
   */
  lemma {:induction false} NoOvertaking(s: State, acts: seq<Action>, m: Mid, t: Tid, u: Tid)
    requires Good(s) && Legal(s, acts) && Ahead(s, m, t, u) && StaysQueued(s, acts, m, t)
    ensures m in Run(s, acts).mutexes && Run(s, acts).mutexes[m].holder != Some(u)
    decreases |acts|
  {
    if acts != [] {
      StepGood(s, acts[0]);
      StepAhead(s, acts[0], m, t, u);
      hide Good, Enabled, Apply;
      NoOvertaking(Apply(s, acts[0]), acts[1..], m, t, u);
    }
  }
}
