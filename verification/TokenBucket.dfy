/**
 * The token bucket emulator: packets arrive in Q1, tokens let the head of Q1
 * pass to Q2, and two servers empty Q2 (Threading/warmup2.c:149-417).  A step
 * is one critical section of one of the four threads, or the setting of a
 * thread's stop flag.
 */
module TokenBucket {
  datatype Packet = Packet(id: nat, need: int)

  /**
   * The shared variables: the packets not yet generated, the queues, the
   * tokens and their counts, the stop flags.  The last four fields record
   * what has happened: packets dropped on arrival, packets that entered Q1,
   * packets taken by a server, and tokens used up.
   */
  datatype State = State(size: nat, toArrive: nat, nextId: nat, q1: seq<Packet>, q2: seq<Packet>, tokens: int,
                         generated: nat, droppedTokens: nat, stopPacket: bool, stopBucket: bool, stopServer: (bool, bool),
                         droppedPackets: seq<Packet>, arrived: seq<Packet>, taken: seq<Packet>, consumed: int)

  datatype Action = Arrive(need: int) | PacketStops | Token | BucketStops | Take(server1: bool) | ServerStops(server1: bool)

  predicate Stopped(s: State, server1: bool) { if server1 then s.stopServer.0 else s.stopServer.1 }

  predicate Enabled(s: State, a: Action) {
    match a
    case Arrive(_) => !s.stopPacket && s.toArrive > 0
    case PacketStops => !s.stopPacket && s.toArrive == 0
    case Token => !s.stopBucket
    case BucketStops => !s.stopBucket && s.stopPacket && s.q1 == []
    case Take(k) => !Stopped(s, k) && s.q2 != []
    case ServerStops(k) => !Stopped(s, k) && s.stopBucket && s.stopPacket && s.q2 == []
  }

  /** The head of Q1 passes to Q2 if there are tokens for it. */
  function Pass(s: State): State {
    if s.q1 == [] || s.q1[0].need > s.tokens then s
    else s.(q1 := s.q1[1..], q2 := s.q2 + [s.q1[0]], tokens := s.tokens - s.q1[0].need, consumed := s.consumed + s.q1[0].need)
  }

  function Apply(s: State, a: Action): State
    requires Enabled(s, a)
  {
    match a
    case Arrive(need) =>
      var p := Packet(s.nextId, need);
      var s1 := s.(toArrive := s.toArrive - 1, nextId := s.nextId + 1);
      if need > s.size then s1.(droppedPackets := s.droppedPackets + [p])
      else Pass(s1.(q1 := s.q1 + [p], arrived := s.arrived + [p]))
    case PacketStops => s.(stopPacket := true)
    case Token =>
      var s1 := s.(generated := s.generated + 1);
      if s.tokens >= s.size then s1.(droppedTokens := s.droppedTokens + 1) else Pass(s1.(tokens := s.tokens + 1))
    case BucketStops => s.(stopBucket := true)
    case Take(_) => s.(q2 := s.q2[1..], taken := s.taken + [s.q2[0]])
    case ServerStops(k) => s.(stopServer := if k then (true, s.stopServer.1) else (s.stopServer.0, true))
  }

  // -------------------------------------------------------------- invariants

  /** Tokens are neither lost nor invented, and there are never fewer than none. */
  ghost predicate TokensOk(s: State) {
    s.generated == s.droppedTokens + s.tokens + s.consumed && 0 <= s.tokens
  }

  /** Taken packets, then Q2, then Q1, are the packets that arrived, in order. */
  ghost predicate InOrder(s: State) { s.taken + s.q2 + s.q1 == s.arrived }

  ghost predicate FlagsOk(s: State) {
    && (s.stopPacket ==> s.toArrive == 0)
    && (s.stopBucket ==> s.stopPacket && s.q1 == [])
    && (s.stopServer.0 || s.stopServer.1 ==> s.stopBucket && s.q2 == [])
  }

  /** Every packet has been numbered in turn and has either been dropped or entered Q1. */
  ghost predicate Counted(s: State) { s.nextId == |s.droppedPackets| + |s.arrived| }

  ghost predicate Inv(s: State) { TokensOk(s) && InOrder(s) && FlagsOk(s) && Counted(s) }

  /** Every packet in Q1 needs a token at least, and no more than the bucket holds. */
  ghost predicate NeedsOk(s: State) { forall i :: 0 <= i < |s.q1| ==> 1 <= s.q1[i].need <= s.size }

  /** The head of Q1, if any, needs more tokens than there are. */
  ghost predicate HeadWaits(s: State) { s.q1 == [] || s.q1[0].need > s.tokens }

  // ------------------------------------------------------------------- steps

  lemma PassOrder(s: State)
    requires InOrder(s)
    ensures InOrder(Pass(s))
  {
    if s.q1 != [] && s.q1[0].need <= s.tokens {
      assert s.q1 == [s.q1[0]] + s.q1[1..];
      assert s.taken + s.q2 + ([s.q1[0]] + s.q1[1..]) == s.taken + (s.q2 + [s.q1[0]]) + s.q1[1..];
    }
  }

  lemma TakeOrder(s: State)
    requires InOrder(s) && s.q2 != []
    ensures (s.taken + [s.q2[0]]) + s.q2[1..] + s.q1 == s.arrived
  {
    assert s.q2 == [s.q2[0]] + s.q2[1..];
    assert s.taken + ([s.q2[0]] + s.q2[1..]) + s.q1 == (s.taken + [s.q2[0]]) + s.q2[1..] + s.q1;
  }

  lemma ArriveOrder(s: State, p: Packet)
    requires InOrder(s)
    ensures s.taken + s.q2 + (s.q1 + [p]) == s.arrived + [p]
  {
    assert s.taken + s.q2 + (s.q1 + [p]) == s.taken + s.q2 + s.q1 + [p];
  }

  /** Every step of every thread keeps the accounts of tokens and packets, whatever the packets need. */
  lemma StepInv(s: State, a: Action)
    requires Inv(s) && Enabled(s, a)
    ensures Inv(Apply(s, a))
  {
    match a
    case Arrive(need) =>
      var p := Packet(s.nextId, need);
      ArriveOrder(s, p);
      PassOrder(s.(toArrive := s.toArrive - 1, nextId := s.nextId + 1, q1 := s.q1 + [p], arrived := s.arrived + [p]));
    case Token => PassOrder(s.(generated := s.generated + 1, tokens := s.tokens + 1));
    case Take(_) => TakeOrder(s);
    case _ =>
  }

  /** The bucket holds no more than its size, and no packet in Q1 would give tokens back. */
  ghost predicate Bounded(s: State) {
    s.tokens <= s.size && forall i :: 0 <= i < |s.q1| ==> s.q1[i].need >= 0
  }

  lemma StepBounded(s: State, a: Action)
    requires Bounded(s) && Enabled(s, a) && (a.Arrive? ==> a.need >= 0)
    ensures Bounded(Apply(s, a))
  {
  }

  /** When every packet needs a token at least, every critical section leaves the head of Q1 waiting. */
  lemma StepWaits(s: State, a: Action)
    requires Inv(s) && NeedsOk(s) && HeadWaits(s) && Enabled(s, a) && (a.Arrive? ==> a.need >= 1)
    ensures NeedsOk(Apply(s, a)) && HeadWaits(Apply(s, a))
  {
  }

  /** The token drop does not look at Q1, but a token is dropped only when Q1 is empty. */
  lemma DropOnlyWhenEmpty(s: State)
    requires Inv(s) && NeedsOk(s) && HeadWaits(s) && Enabled(s, Token)
    ensures Apply(s, Token).droppedTokens > s.droppedTokens ==> s.q1 == []
  {
  }

  /** A packet that a token lets pass leaves exactly no token behind. */
  lemma DepartureLeavesNone(s: State)
    requires Inv(s) && NeedsOk(s) && HeadWaits(s) && Enabled(s, Token)
    ensures Apply(s, Token).q2 != s.q2 ==> Apply(s, Token).tokens == 0 && s.q1 != [] && s.q1[0].need == s.tokens + 1
  {
  }

  // -------------------------------------------------------------------- runs

  ghost predicate Initial(s: State) {
    && s.q1 == [] && s.q2 == [] && s.tokens == 0 && s.generated == 0 && s.droppedTokens == 0 && s.consumed == 0
    && !s.stopPacket && !s.stopBucket && s.stopServer == (false, false)
    && s.nextId == 0 && s.droppedPackets == [] && s.arrived == [] && s.taken == []
  }

  predicate Legal(s: State, acts: seq<Action>)
    decreases |acts|
  {
    acts != [] ==> Enabled(s, acts[0]) && Legal(Apply(s, acts[0]), acts[1..])
  }

  function Run(s: State, acts: seq<Action>): State
    requires Legal(s, acts)
    decreases |acts|
  {
    if acts == [] then s else Run(Apply(s, acts[0]), acts[1..])
  }

  /** Every packet of the run needs d tokens at least. */
  ghost predicate AtLeast(acts: seq<Action>, d: int) { forall a :: a in acts && a.Arrive? ==> a.need >= d }

  /** The packets generated so far, by number: each dropped or arrived, none both. */
  ghost predicate Numbered(s: State) {
    && (forall i, j :: 0 <= i < j < |s.arrived| ==> s.arrived[i].id < s.arrived[j].id)
    && (forall i, j :: 0 <= i < j < |s.droppedPackets| ==> s.droppedPackets[i].id < s.droppedPackets[j].id)
    && (forall i :: 0 <= i < |s.arrived| ==> s.arrived[i].id < s.nextId)
    && (forall i :: 0 <= i < |s.droppedPackets| ==> s.droppedPackets[i].id < s.nextId)
    && (forall i, j :: 0 <= i < |s.arrived| && 0 <= j < |s.droppedPackets| ==> s.arrived[i].id != s.droppedPackets[j].id)
    && (forall id: nat :: id < s.nextId ==> HasId(s.arrived, id) || HasId(s.droppedPackets, id))
  }

  ghost predicate HasId(ps: seq<Packet>, id: nat) { exists i :: 0 <= i < |ps| && ps[i].id == id }

  lemma HasAppend(ps: seq<Packet>, p: Packet, id: nat)
    ensures HasId(ps + [p], id) <==> HasId(ps, id) || p.id == id
  {
    if HasId(ps, id) {
      var i :| 0 <= i < |ps| && ps[i].id == id;
      assert (ps + [p])[i].id == id;
    }
    assert (ps + [p])[|ps|] == p;
  }

  lemma StepNumbered(s: State, a: Action)
    requires Numbered(s) && Enabled(s, a)
    ensures Numbered(Apply(s, a))
  {
    hide HasId;
    if !a.Arrive? {
      assert Apply(s, a).arrived == s.arrived && Apply(s, a).droppedPackets == s.droppedPackets;
    } else {
      var p := Packet(s.nextId, a.need);
      var s' := Apply(s, a);
      forall id: nat | id < s'.nextId ensures HasId(s'.arrived, id) || HasId(s'.droppedPackets, id) {
        HasAppend(s.arrived, p, id);
        HasAppend(s.droppedPackets, p, id);
      }
    }
  }

  /** The accounts of tokens and packets hold in every state of every run. */
  lemma {:induction false} RunInv(s: State, acts: seq<Action>)
    requires Inv(s) && Numbered(s) && Legal(s, acts)
    ensures Inv(Run(s, acts)) && Numbered(Run(s, acts)) && Run(s, acts).size == s.size
    decreases |acts|
  {
    hide Inv, Numbered;
    if acts != [] {
      StepInv(s, acts[0]);
      StepNumbered(s, acts[0]);
      RunInv(Apply(s, acts[0]), acts[1..]);
    }
  }

  /** With packets that give no tokens back, the bucket never overflows. */
  lemma {:induction false} RunBounded(s: State, acts: seq<Action>)
    requires Bounded(s) && Legal(s, acts) && AtLeast(acts, 0)
    ensures Bounded(Run(s, acts)) && Run(s, acts).size == s.size
    decreases |acts|
  {
    hide Bounded;
    if acts != [] {
      assert acts[0] in acts;
      StepBounded(s, acts[0]);
      RunBounded(Apply(s, acts[0]), acts[1..]);
    }
  }

  /** With packets that need a token each, the head of Q1 waits in every state of every run. */
  lemma {:induction false} RunWaits(s: State, acts: seq<Action>)
    requires Inv(s) && NeedsOk(s) && HeadWaits(s) && Legal(s, acts) && AtLeast(acts, 1)
    ensures Inv(Run(s, acts)) && NeedsOk(Run(s, acts)) && HeadWaits(Run(s, acts))
    decreases |acts|
  {
    if acts != [] {
      assert acts[0] in acts;
      StepWaits(s, acts[0]);
      StepInv(s, acts[0]);
      hide Inv, NeedsOk, HeadWaits, Enabled;
      RunWaits(Apply(s, acts[0]), acts[1..]);
    }
  }

  /**
   * From the start, with packets that need a token each: whenever a token is
   * dropped Q1 is empty, and a packet passed by a token leaves none.
   */
  lemma TokenTheorem(s: State, acts: seq<Action>)
    requires Initial(s) && Legal(s, acts) && AtLeast(acts, 1) && Enabled(Run(s, acts), Token)
    ensures var e := Run(s, acts); var e' := Apply(e, Token);
      && (e'.droppedTokens > e.droppedTokens ==> e.q1 == [])
      && (e'.q2 != e.q2 ==> e'.tokens == 0)
      && e'.generated == e'.droppedTokens + e'.tokens + e'.consumed && 0 <= e'.tokens <= e'.size
  {
    RunWaits(s, acts);
    RunBounded(s, acts);
    DropOnlyWhenEmpty(Run(s, acts));
    DepartureLeavesNone(Run(s, acts));
    StepInv(Run(s, acts), Token);
    StepBounded(Run(s, acts), Token);
  }

  /**
   * When all four threads have stopped, both queues are empty and every packet
   * generated was either dropped on arrival or taken by a server, once, in
   * the order of arrival.
   */
  lemma AllStopped(s: State, acts: seq<Action>)
    requires Initial(s) && Legal(s, acts)
    requires var e := Run(s, acts); e.stopPacket && e.stopBucket && e.stopServer.0 && e.stopServer.1
    ensures var e := Run(s, acts);
      && e.q1 == [] && e.q2 == [] && e.toArrive == 0 && e.taken == e.arrived
      && e.nextId == |e.droppedPackets| + |e.taken|
      && (forall id: nat :: id < e.nextId ==> (HasId(e.taken, id) <==> !HasId(e.droppedPackets, id)))
      && (forall i, j :: 0 <= i < j < |e.taken| ==> e.taken[i].id < e.taken[j].id)
  {
    RunInv(s, acts);
    var e := Run(s, acts);
    assert e.taken + [] + [] == e.taken;
    forall id: nat | id < e.nextId ensures HasId(e.taken, id) <==> !HasId(e.droppedPackets, id) {
      assert HasId(e.arrived, id) || HasId(e.droppedPackets, id);
    }
  }

  /** A run starts with its first step. */
  lemma First(s: State, a: Action, s1: State, rest: seq<Action>)
    requires Enabled(s, a) && Apply(s, a) == s1 && Legal(s1, rest)
    ensures Legal(s, [a] + rest) && Run(s, [a] + rest) == Run(s1, rest)
  {
    assert ([a] + rest)[1..] == rest;
  }

  // ---------------------------------------------- when a token is lost in vain

  /** A packet that needs one token, then packets that need none. */
  function Packets(n: nat): seq<Packet> { seq(n, i requires 0 <= i < n => Packet(i, if i == 0 then 1 else 0)) }

  /** A bucket of size b, and k of b + 2 packets have arrived; they all wait behind the first. */
  function Waiting(b: nat, k: nat): State
    requires k <= b + 2
  {
    State(b, b + 2 - k, k, Packets(k), [], 0, 0, 0, false, false, (false, false), [], Packets(k), [], 0)
  }

  /** All have arrived and j tokens have come: each let one packet pass, but only the first was used up. */
  function Passed(b: nat, j: nat): State
    requires j <= b + 1
  {
    var all := Packets(b + 2);
    State(b, 0, b + 2, all[j..], all[..j], if j == 0 then 0 else j - 1, j, 0, false, false, (false, false), [], all, [],
          if j == 0 then 0 else 1)
  }

  function Tokens(n: nat): seq<Action> { if n == 0 then [] else [Token] + Tokens(n - 1) }

  /** The packets from the k-th on, then b + 1 tokens. */
  function Vain(b: nat, k: nat): seq<Action>
    requires k <= b + 2
    decreases b + 2 - k
  {
    if k == b + 2 then Tokens(b + 1) else [Arrive(if k == 0 then 1 else 0)] + Vain(b, k + 1)
  }

  lemma ArriveNext(b: nat, k: nat)
    requires b > 0 && k < b + 2
    ensures var a := Arrive(if k == 0 then 1 else 0);
      Enabled(Waiting(b, k), a) && Apply(Waiting(b, k), a) == Waiting(b, k + 1)
  {
    assert Packets(k) + [Packet(k, if k == 0 then 1 else 0)] == Packets(k + 1);
  }

  lemma PassNext(b: nat, j: nat)
    requires b > 0 && j < b + 1
    ensures Enabled(Passed(b, j), Token) && Apply(Passed(b, j), Token) == Passed(b, j + 1)
  {
    var all := Packets(b + 2);
    assert all[j..][0] == all[j] && all[j..][1..] == all[j + 1..] && all[..j] + [all[j]] == all[..j + 1];
  }

  lemma {:induction false} TokensRun(b: nat, j: nat)
    requires b > 0 && j <= b + 1
    ensures Legal(Passed(b, j), Tokens(b + 1 - j)) && Run(Passed(b, j), Tokens(b + 1 - j)) == Passed(b, b + 1)
    decreases b + 1 - j
  {
    hide Apply, Enabled, Passed;
    if j < b + 1 {
      PassNext(b, j);
      TokensRun(b, j + 1);
      First(Passed(b, j), Token, Passed(b, j + 1), Tokens(b - j));
    }
  }

  lemma {:induction false} VainRun(b: nat, k: nat)
    requires b > 0 && k <= b + 2
    ensures Legal(Waiting(b, k), Vain(b, k)) && Run(Waiting(b, k), Vain(b, k)) == Passed(b, b + 1)
    ensures AtLeast(Vain(b, k), 0)
    decreases b + 2 - k
  {
    hide Apply, Enabled;
    if k < b + 2 {
      ArriveNext(b, k);
      VainRun(b, k + 1);
      First(Waiting(b, k), Arrive(if k == 0 then 1 else 0), Waiting(b, k + 1), Vain(b, k + 1));
    } else {
      assert Packets(b + 2)[0..] == Packets(b + 2);
      assert Waiting(b, k) == Passed(b, 0);
      TokensRun(b, 0);
      OnlyTokens(b + 1);
    }
  }

  lemma {:induction false} OnlyTokens(n: nat)
    ensures forall a :: a in Tokens(n) ==> a == Token
  {
    if n > 0 { OnlyTokens(n - 1); }
  }

  /** With a bucket of size b > 0, b + 2 packets of which only the first needs a token, and b + 2 tokens, the last is lost beside a waiting packet. */
  lemma NoNeedCounterexample(b: nat)
    requires b > 0
    ensures Initial(Waiting(b, 0)) && Legal(Waiting(b, 0), Vain(b, 0)) && AtLeast(Vain(b, 0), 0)
    ensures var e := Run(Waiting(b, 0), Vain(b, 0));
      e.q1 != [] && Enabled(e, Token) && Apply(e, Token).droppedTokens > e.droppedTokens
  {
    VainRun(b, 0);
    assert |Passed(b, b + 1).q1| == 1;
    hide Legal, Run, Vain;
  }

  /** In every run from the start with packets that need d tokens at least, tokens are dropped only beside an empty Q1. */
  ghost predicate NoneInVain(b: nat, d: int) {
    forall s: State, acts: seq<Action> :: Initial(s) && s.size == b && Legal(s, acts) && AtLeast(acts, d) ==> DropsFairly(Run(s, acts))
  }

  ghost predicate DropsFairly(s: State) {
    Enabled(s, Token) && Apply(s, Token).droppedTokens > s.droppedTokens ==> s.q1 == []
  }

  /** A bucket without room never makes a packet wait: what it does not drop it lets pass. */
  lemma {:induction false} NeverWaits(s: State, acts: seq<Action>)
    requires Legal(s, acts) && s.size == 0 && s.q1 == [] && s.tokens >= 0
    ensures Run(s, acts).q1 == []
    decreases |acts|
  {
    if acts != [] { NeverWaits(Apply(s, acts[0]), acts[1..]); }
  }

  /** The exact condition: no token is lost in vain if and only if packets need one at least, or the bucket has no room. */
  lemma InVainExactly(b: nat, d: int)
    ensures NoneInVain(b, d) <==> d >= 1 || b == 0
  {
    if d >= 1 || b == 0 {
      forall s: State, acts: seq<Action> | Initial(s) && s.size == b && Legal(s, acts) && AtLeast(acts, d) ensures DropsFairly(Run(s, acts)) {
        if b == 0 {
          NeverWaits(s, acts);
        } else if Enabled(Run(s, acts), Token) {
          TokenTheorem(s, acts);
        }
      }
    } else {
      NoNeedCounterexample(b);
      assert !DropsFairly(Run(Waiting(b, 0), Vain(b, 0)));
    }
    hide Legal, Run, DropsFairly;
  }

  // -------------------------------------------------- when the bucket overflows

  /** k of n packets have arrived that give a token back each, and all have passed. */
  function Given(b: nat, n: nat, k: nat): State
    requires k <= n
  {
    var ps := seq(k, i requires 0 <= i < k => Packet(i, -1));
    State(b, n - k, k, [], ps, k, 0, 0, false, false, (false, false), [], ps, [], 0 - k)
  }

  function Giving(n: nat): seq<Action> { if n == 0 then [] else [Arrive(-1)] + Giving(n - 1) }

  lemma GiveNext(b: nat, n: nat, k: nat)
    requires k < n
    ensures Enabled(Given(b, n, k), Arrive(-1)) && Apply(Given(b, n, k), Arrive(-1)) == Given(b, n, k + 1)
  {
    var ps := Given(b, n, k).q2;
    assert [] + [Packet(k, -1)] == [Packet(k, -1)];
    assert ps + [Packet(k, -1)] == Given(b, n, k + 1).q2;
  }

  lemma {:induction false} GivingRun(b: nat, n: nat, k: nat)
    requires k <= n
    ensures Legal(Given(b, n, k), Giving(n - k)) && Run(Given(b, n, k), Giving(n - k)) == Given(b, n, n)
    ensures AtLeast(Giving(n - k), -1)
    decreases n - k
  {
    hide Apply, Enabled, Given;
    if k < n {
      GiveNext(b, n, k);
      GivingRun(b, n, k + 1);
      First(Given(b, n, k), Arrive(-1), Given(b, n, k + 1), Giving(n - k - 1));
    }
  }

  /** In every run from the start with packets that need d tokens at least, the bucket holds no more than its size. */
  ghost predicate NeverOver(b: nat, d: int) {
    forall s: State, acts: seq<Action> :: Initial(s) && s.size == b && Legal(s, acts) && AtLeast(acts, d) ==> Run(s, acts).tokens <= b
  }

  /** The bucket keeps to its size if and only if packets need no less than nothing. */
  lemma OverExactly(b: nat, d: int)
    ensures NeverOver(b, d) <==> d >= 0
  {
    if d >= 0 {
      forall s: State, acts: seq<Action> | Initial(s) && s.size == b && Legal(s, acts) && AtLeast(acts, d) ensures Run(s, acts).tokens <= b {
        RunBounded(s, acts);
      }
    } else {
      GivingRun(b, b + 1, 0);
      assert Initial(Given(b, b + 1, 0));
      assert Run(Given(b, b + 1, 0), Giving(b + 1)).tokens == b + 1;
    }
    hide Legal, Run;
  }
}
