/**
 * The critical sections of the emulator's four threads on the shared
 * variables (Threading/warmup2.c:149-417).  Each is a step of TokenBucket.
 */
module Emulator {
  import opened Basics
  import opened TokenBucket

  class Shared {
    const size: nat
    var toArrive: nat
    var nextId: nat
    var q1: seq<Packet>
    var q2: seq<Packet>
    var tokens: int
    var generated: nat
    var droppedTokens: nat
    var stopPacket: bool
    var stopBucket: bool
    var stopServer: (bool, bool)
    ghost var droppedPackets: seq<Packet>
    ghost var arrived: seq<Packet>
    ghost var taken: seq<Packet>
    ghost var consumed: int

    ghost function Now(): State
      reads this
    {
      State(size, toArrive, nextId, q1, q2, tokens, generated, droppedTokens, stopPacket, stopBucket, stopServer,
            droppedPackets, arrived, taken, consumed)
    }

    constructor (size: nat, count: nat)
      ensures Initial(Now()) && Inv(Now()) && Waits(Now()) && this.size == size && toArrive == count
    {
      this.size, toArrive, nextId := size, count, 0;
      q1, q2, tokens, generated, droppedTokens := [], [], 0, 0, 0;
      stopPacket, stopBucket, stopServer := false, false, (false, false);
      droppedPackets, arrived, taken, consumed := [], [], [], 0;
    }

    /** If the head of Q1 needs no more tokens than there are, it takes them and moves to Q2. */
    method MoveHead()
      modifies this`q1, this`q2, this`tokens, this`consumed
      ensures Now() == Pass(old(Now()))
      ensures HeadPasses(old(q1), old(q2), old(tokens), q1, q2, tokens)
    {
      if |q1| > 0 {
        var first := q1[0];
        assert q1 == [first] + q1[1..];
        if first.need <= tokens {
          q1 := q1[1..];
          tokens := tokens - first.need;
          q2 := q2 + [first];
          consumed := consumed + first.need;
        }
      }
    }

    /**
     * One round of packet_thread_function: a packet that needs more than the
     * bucket holds is dropped, any other enters Q1 and may pass at once.
     */
    method PacketArrives(need: int) returns (dropped: bool)
      requires Inv(Now()) && Enabled(Now(), Arrive(need))
      modifies this
      ensures Inv(Now()) && Now() == Apply(old(Now()), Arrive(need))
      ensures dropped <==> need > size
      ensures if dropped then droppedPackets == old(droppedPackets) + [Packet(old(nextId), need)] && arrived == old(arrived)
              else arrived == old(arrived) + [Packet(old(nextId), need)] && droppedPackets == old(droppedPackets)
      ensures toArrive == old(toArrive) - 1 && nextId == old(nextId) + 1
      ensures dropped ==> q1 == old(q1) && q2 == old(q2) && tokens == old(tokens)
      ensures !dropped ==> HeadPasses(old(q1) + [Packet(old(nextId), need)], old(q2), old(tokens), q1, q2, tokens)
      ensures need >= 1 && Waits(old(Now())) ==> Waits(Now())
    {
      hide Inv, NeedsOk, HeadWaits, Pass, HeadPasses;
      ghost var s := Now();
      StepInv(s, Arrive(need));
      if need >= 1 && Waits(s) { StepWaits(s, Arrive(need)); }
      var p := Packet(nextId, need);
      nextId, toArrive := nextId + 1, toArrive - 1;
      if need > size {
        droppedPackets := droppedPackets + [p];
        return true;
      }
      q1, arrived := q1 + [p], arrived + [p];
      MoveHead();
      dropped := false;
    }

    /** The packet thread looks whether it has generated all its packets, and stops if so. */
    method PacketThreadStops() returns (stopped: bool)
      requires Inv(Now()) && !stopPacket
      modifies this`stopPacket
      ensures Inv(Now()) && (stopped <==> Enabled(old(Now()), PacketStops))
      ensures Now() == if stopped then Apply(old(Now()), PacketStops) else old(Now())
      ensures stopPacket == stopped && (stopped <==> toArrive == 0)
    {
      stopped := toArrive <= 0;
      if stopped { stopPacket := true; }
    }

    /**
     * One round of bucket_thread_function: the token is dropped if the bucket
     * is full, else it may let a packet pass.  With the head of Q1 waiting, it
     * is dropped only when Q1 is empty, and a packet it lets pass leaves none.
     */
    method TokenArrives() returns (dropped: bool)
      requires Inv(Now()) && Enabled(Now(), Token)
      modifies this
      ensures Inv(Now()) && Now() == Apply(old(Now()), Token)
      ensures dropped <==> old(tokens) >= size
      ensures generated == old(generated) + 1 && droppedTokens == old(droppedTokens) + (if dropped then 1 else 0)
      ensures dropped ==> q1 == old(q1) && q2 == old(q2) && tokens == old(tokens)
      ensures !dropped ==> HeadPasses(old(q1), old(q2), old(tokens) + 1, q1, q2, tokens)
      ensures Waits(old(Now())) ==> Waits(Now()) && (dropped ==> old(q1) == []) && (q2 != old(q2) ==> tokens == 0)
    {
      hide Inv, NeedsOk, HeadWaits, Pass, HeadPasses;
      ghost var s := Now();
      StepInv(s, Token);
      TokenDrop(s);
      if Waits(s) {
        StepWaits(s, Token);
        DropOnlyWhenEmpty(s);
        DepartureLeavesNone(s);
      }
      generated := generated + 1;
      dropped := tokens >= size;
      if dropped {
        droppedTokens := droppedTokens + 1;
      } else {
        tokens := tokens + 1;
        MoveHead();
      }
    }

    /** The bucket thread looks whether any packet is still to be let through, and stops if not. */
    method BucketThreadStops() returns (stopped: bool)
      requires Inv(Now()) && !stopBucket
      modifies this`stopBucket
      ensures Inv(Now()) && (stopped <==> Enabled(old(Now()), BucketStops))
      ensures Now() == if stopped then Apply(old(Now()), BucketStops) else old(Now())
      ensures stopBucket == stopped && (stopped <==> stopPacket && q1 == []) && (stopped ==> toArrive == 0)
    {
      stopped := stopPacket && |q1| == 0;
      if stopped { stopBucket := true; }
    }

    /** A server takes the oldest packet of Q2, if there is one. */
    method ServerTakes(server1: bool) returns (r: Option<Packet>)
      requires Inv(Now()) && !Stopped(Now(), server1)
      modifies this`q2, this`taken
      ensures Inv(Now()) && (r.Some? <==> Enabled(old(Now()), Take(server1)))
      ensures Now() == if r.Some? then Apply(old(Now()), Take(server1)) else old(Now())
      ensures r.None? <==> old(q2) == []
      ensures r.Some? ==> old(q2) == [r.value] + q2
      ensures r.Some? ==> |taken| <= |arrived| && taken == old(taken) + [r.value] && arrived[|old(taken)|] == r.value
    {
      if |q2| == 0 { return None; }
      StepInv(Now(), Take(server1));
      r := Some(q2[0]);
      q2, taken := q2[1..], taken + [q2[0]];
    }

    /** A server looks whether the other threads have stopped with Q2 empty, and stops if so; then every packet has been taken. */
    method ServerStopsNow(server1: bool) returns (stopped: bool)
      requires Inv(Now()) && !Stopped(Now(), server1)
      modifies this`stopServer
      ensures Inv(Now()) && (stopped <==> Enabled(old(Now()), ServerStops(server1)))
      ensures Now() == if stopped then Apply(old(Now()), ServerStops(server1)) else old(Now())
      ensures stopServer == (if server1 then (stopped, old(stopServer).1) else (old(stopServer).0, stopped))
      ensures stopped <==> stopBucket && stopPacket && q2 == []
      ensures stopped ==> toArrive == 0 && taken == arrived
    {
      stopped := stopBucket && stopPacket && |q2| == 0;
      if stopped {
        StepInv(Now(), ServerStops(server1));
        stopServer := if server1 then (true, stopServer.1) else (stopServer.0, true);
        assert taken + [] + [] == taken;
      }
    }
  }

  /** The head of Q1 has gone to the end of Q2 and taken its tokens exactly when there were enough. */
  ghost predicate HeadPasses(q1: seq<Packet>, q2: seq<Packet>, tokens: int, q1': seq<Packet>, q2': seq<Packet>, tokens': int) {
    if q1 == [] || q1[0].need > tokens then q1' == q1 && q2' == q2 && tokens' == tokens
    else q1 == [q1[0]] + q1' && q2' == q2 + [q1[0]] && tokens' + q1[0].need == tokens
  }

  lemma TokenDrop(s: State)
    requires Enabled(s, Token)
    ensures Apply(s, Token).droppedTokens > s.droppedTokens <==> s.tokens >= s.size
  {
  }

  /** Every packet in Q1 needs a token, and the first one needs more than there are. */
  ghost predicate Waits(s: State) { NeedsOk(s) && HeadWaits(s) }
}
