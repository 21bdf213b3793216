/**
 * The bubble sort of the transaction list, which swaps two objects by
 * unlinking their cells and inserting new ones, and which gives up on equal
 * timestamps or one from the future (warmup1/warmup1.c:160-221).
 */
module BubbleSort {
  import opened Basics
  import opened CircularList

  /** Two neighbours exchanged. */
  function Swapped(s: seq<Record>, k: nat): seq<Record>
    requires k + 1 < |s|
  {
    s[k := s[k + 1]][k + 1 := s[k]]
  }

  /** The ring with two cells at positions i and i + 1 replaced. */
  function Replaced(r: seq<Cell>, i: nat, e1: Cell, e2: Cell): seq<Cell>
    requires i + 1 < |r|
  {
    r[i := e1][i + 1 := e2]
  }

  /** The ring without the cell at position i, and with one more there. */
  function Gone(r: seq<Cell>, i: nat): seq<Cell>
    requires i < |r|
  {
    r[..i] + r[i + 1..]
  }

  function With(r: seq<Cell>, i: nat, e: Cell): seq<Cell>
    requires i <= |r|
  {
    r[..i] + [e] + r[i..]
  }

  lemma GoneTwice(r: seq<Cell>, i: nat)
    requires 0 < i && i + 1 < |r|
    ensures |Gone(r, i)| == |r| - 1 && Gone(r, i)[i] == r[i + 1]
    ensures var r1 := Gone(Gone(r, i), i);
      |r1| == |r| - 2 && r1[i - 1] == r[i - 1] && (i + 2 < |r| ==> r1[i] == r[i + 2])
    ensures forall k: nat :: k < |Gone(r, i)| ==> Gone(r, i)[k] in r
    ensures forall k: nat :: k < |Gone(Gone(r, i), i)| ==> Gone(Gone(r, i), i)[k] in r
  {
  }

  lemma WithTwice(r: seq<Cell>, i: nat, e1: Cell, e2: Cell)
    requires 0 < i && i + 1 < |r|
    ensures |Gone(r, i)| == |r| - 1
    ensures var r1 := Gone(Gone(r, i), i);
      && |r1| == |r| - 2 && |With(r1, i, e1)| == |r| - 1
      && (i + 2 < |r| ==> With(r1, i, e1)[i + 1] == r[i + 2])
      && (forall k: nat :: k < |With(r1, i, e1)| ==> With(r1, i, e1)[k] in r || With(r1, i, e1)[k] == e1)
      && With(With(r1, i, e1), i + 1, e2) == Replaced(r, i, e1, e2)
  {
  }

  lemma ObjsSwapped(r: seq<Cell>, i: nat, e1: Cell, e2: Cell)
    requires 0 < i && i + 1 < |r| && e1.obj == r[i + 1].obj && e2.obj == r[i].obj
    ensures |Replaced(r, i, e1, e2)| == |r|
    ensures |Objs(r[1..])| == |r| - 1 && Objs(Replaced(r, i, e1, e2)[1..]) == Swapped(Objs(r[1..]), i - 1)
  {
  }

  /** The first insertion of BubbleForward: at position i, after the cell before it if there is one. */
  method InsertHere(list: List, obj: Record, before: Option<Cell>, ghost i: nat) returns (e: Cell)
    requires list.Valid() && 0 < i <= |list.ring| && before == if i == 1 then None else Some(list.ring[i - 1])
    modifies list`members, list`ring, list.ring
    ensures list.Valid() && fresh(e) && e.obj == obj && list.ring == With(old(list.ring), i, e)
  {
    hide List.Valid, Objs;
    if before.None? {
      Nonempty(list);
      list.Prepend(obj);
      Nonempty(list);
      var first := list.First();
      e := first.value;
    } else {
      e := list.InsertAfter(obj, before, i - 1);
      var next := list.Next(before.value, i - 1);
      e := next.value;
    }
  }

  /** The second: at position i, before the cell that is there, or at the end. */
  method InsertThere(list: List, obj: Record, after: Option<Cell>, ghost i: nat) returns (e: Cell)
    requires list.Valid() && 0 < i <= |list.ring| && after == if i == |list.ring| then None else Some(list.ring[i])
    modifies list`members, list`ring, list.ring
    ensures list.Valid() && fresh(e) && e.obj == obj && list.ring == With(old(list.ring), i, e)
  {
    hide List.Valid, Objs;
    if after.None? {
      Nonempty(list);
      list.Append(obj);
      Nonempty(list);
      var last := list.Last();
      e := last.value;
    } else {
      e := list.InsertBefore(obj, after, i);
      var prev := list.Prev(after.value, i + 1);
      e := prev.value;
    }
  }

  method UnlinkAt(list: List, x: Cell, ghost i: nat)
    requires list.Valid() && 0 < i < |list.ring| && x == list.ring[i]
    modifies list`members, list`ring, list.ring
    ensures list.Valid() && list.ring == Gone(old(list.ring), i)
  {
    hide List.Valid, Objs;
    list.Unlink(x, i);
  }

  lemma RingContents(list: List)
    requires list.ring != []
    ensures list.Contents() == Objs(list.ring[1..])
  {
  }

  lemma Nonempty(list: List)
    requires list.Valid()
    ensures list.ring != [] && list.ring[0] == list.anchor && |list.Contents()| == |list.ring| - 1
    ensures forall k: nat :: k + 1 < |list.ring| ==> list.Contents()[k] == list.ring[k + 1].obj
  {
  }

  /** BubbleForward: the cells at positions i and i + 1 give way to two new ones with the objects exchanged. */
  method BubbleForward(list: List, elem1: Cell, elem2: Cell, ghost i: nat) returns (e1: Cell, e2: Cell)
    requires list.Valid() && 0 < i && i + 1 < |list.ring| && elem1 == list.ring[i] && elem2 == list.ring[i + 1]
    modifies list`members, list`ring, list.ring
    ensures list.Valid() && list.ring == Replaced(old(list.ring), i, e1, e2) && fresh(e1) && fresh(e2)
    ensures list.Contents() == Swapped(old(list.Contents()), i - 1)
  {
    hide List.Valid, List.Contents, Objs, Replaced, Swapped, Gone, With;
    ghost var r := list.ring;
    GoneTwice(r, i);
    RingContents(list);
    var obj1, obj2 := elem1.obj, elem2.obj;
    var before := list.Prev(elem1, i);
    var after := list.Next(elem2, i + 1);
    UnlinkAt(list, elem1, i);
    UnlinkAt(list, elem2, i);
    e1 := InsertHere(list, obj2, before, i);
    WithTwice(r, i, e1, elem2);
    e2 := InsertThere(list, obj1, after, i + 1);
    WithTwice(r, i, e1, e2);
    ObjsSwapped(r, i, e1, e2);
    RingContents(list);
  }

  // ----------------------------------------------------------------- the sort

  /** The times strictly increase from position lo up to hi. */
  ghost predicate Increasing(s: seq<Record>, lo: nat, hi: nat) {
    forall i, j :: lo <= i < j < hi <= |s| ==> s[i].time < s[j].time
  }

  /** All times before position k are below those from k on. */
  ghost predicate Below(s: seq<Record>, k: nat) {
    forall i, j :: 0 <= i < k <= j < |s| ==> s[i].time < s[j].time
  }

  /** The last sorted places hold the largest times, in order. */
  ghost predicate SortedTail(s: seq<Record>, k: nat) {
    k <= |s| && Increasing(s, k, |s|) && Below(s, k)
  }

  /** The time at position j is the largest so far. */
  ghost predicate Largest(s: seq<Record>, j: nat) {
    j < |s| && forall i :: 0 <= i < j ==> s[i].time < s[j].time
  }

  /** No two of the records have the same time. */
  ghost predicate AllDifferent(s: seq<Record>) {
    forall i, j :: 0 <= i < j < |s| ==> s[i].time != s[j].time
  }

  lemma SwapTail(s: seq<Record>, j: nat, k: nat)
    requires SortedTail(s, k) && j + 1 < k
    ensures SortedTail(Swapped(s, j), k)
  {
  }

  lemma SwapLargest(s: seq<Record>, j: nat)
    requires Largest(s, j) && j + 1 < |s| && s[j].time > s[j + 1].time
    ensures Largest(Swapped(s, j), j + 1)
  {
  }

  /** A round that ends puts one more record into its place. */
  lemma RoundEnds(s: seq<Record>, k: nat)
    requires 0 < k && SortedTail(s, k) && Largest(s, k - 1)
    ensures SortedTail(s, k - 1)
  {
  }

  /** A round without a swap has found the rest in order. */
  lemma {:induction false} InOrder(s: seq<Record>, k: nat)
    requires SortedTail(s, k) && forall j :: 0 <= j < k - 1 ==> s[j].time < s[j + 1].time
    ensures SortedTail(s, 0)
  {
    if k > 0 {
      forall i | 0 <= i < k - 1 ensures s[i].time < s[k - 1].time { Climb(s, i, k - 1); }
      InOrder(s, k - 1);
    }
  }

  lemma {:induction false} Climb(s: seq<Record>, i: nat, j: nat)
    requires i < j < |s| && forall k :: 0 <= k < j ==> s[k].time < s[k + 1].time
    ensures s[i].time < s[j].time
    decreases j
  {
    if i < j - 1 { Climb(s, i, j - 1); }
  }

  lemma SwapDifferent(s: seq<Record>, k: nat)
    requires k + 1 < |s|
    ensures AllDifferent(Swapped(s, k)) <==> AllDifferent(s)
  {
    if AllDifferent(s) { SwapStays(s, k); }
    if AllDifferent(Swapped(s, k)) {
      SwapStays(Swapped(s, k), k);
      assert Swapped(Swapped(s, k), k) == s;
    }
  }

  lemma SwapStays(s: seq<Record>, k: nat)
    requires k + 1 < |s| && AllDifferent(s)
    ensures AllDifferent(Swapped(s, k))
  {
  }

  /** The contents are the same records in another order. */
  ghost predicate Same(s: seq<Record>, s': seq<Record>) {
    |s| == |s'| && multiset(s) == multiset(s') && (AllDifferent(s) <==> AllDifferent(s'))
  }

  lemma SwapSame(s: seq<Record>, s': seq<Record>, k: nat)
    requires Same(s, s') && k + 1 < |s'|
    ensures Same(s, Swapped(s', k))
  {
    SwapDifferent(s', k);
    hide AllDifferent;
  }

  /** Some record is no older than some reading of the clock. */
  ghost predicate SomeLate(s: seq<Record>, clock: (nat, nat) -> int) {
    exists r, i: nat, j: nat :: r in s && r.time >= clock(i, j)
  }

  lemma LateIn(s: seq<Record>, s': seq<Record>, clock: (nat, nat) -> int, k: nat, i: nat, j: nat)
    requires Same(s, s') && k < |s'| && s'[k].time >= clock(i, j)
    ensures SomeLate(s, clock)
  {
    assert s'[k] in multiset(s');
    assert s'[k] in s;
  }

  /** The state of the inner loop at position j of a round over the first k places. */
  ghost predicate Rounding(s: seq<Record>, k: nat, j: nat, swapped: bool) {
    SortedTail(s, k) && j < k && Largest(s, j) && (!swapped ==> forall i :: 0 <= i < j ==> s[i].time < s[i + 1].time)
  }

  lemma RoundStart(s: seq<Record>, k: nat)
    requires SortedTail(s, k) && 0 < k
    ensures Rounding(s, k, 0, false)
  {
  }

  lemma RoundKeep(s: seq<Record>, k: nat, j: nat, swapped: bool)
    requires Rounding(s, k, j, swapped) && j + 1 < k && s[j].time < s[j + 1].time
    ensures Rounding(s, k, j + 1, swapped)
  {
  }

  lemma RoundSwap(s: seq<Record>, k: nat, j: nat, swapped: bool)
    requires Rounding(s, k, j, swapped) && j + 1 < k && s[j].time > s[j + 1].time
    ensures Rounding(Swapped(s, j), k, j + 1, true)
  {
    SwapTail(s, j, k);
    SwapLargest(s, j);
  }

  lemma RoundDone(s: seq<Record>, k: nat, swapped: bool)
    requires 0 < k && Rounding(s, k, k - 1, swapped)
    ensures SortedTail(s, k - 1) && (!swapped ==> SortedTail(s, 0))
  {
    RoundEnds(s, k);
    if !swapped { InOrder(s, k); }
  }

  // ----------------------------------------------- when the sort gives up

  /** A round from position j on, over the first k places; None is the error exit. */
  function Pass(s: seq<Record>, j: nat, k: nat, i: nat, clock: (nat, nat) -> int): (r: Option<seq<Record>>)
    requires k <= |s|
    ensures r.Some? ==> |r.value| == |s|
    decreases k - j
  {
    if j + 1 >= k then Some(s)
    else if s[j].time == s[j + 1].time || s[j].time >= clock(i, j) then None
    else if s[j].time > s[j + 1].time then Pass(Swapped(s, j), j + 1, k, i, clock)
    else Pass(s, j + 1, k, i, clock)
  }

  lemma PassStep(s: seq<Record>, j: nat, k: nat, i: nat, clock: (nat, nat) -> int)
    requires k <= |s| && j + 1 < k
    ensures |Swapped(s, j)| == |s|
    ensures Pass(s, j, k, i, clock) ==
      if s[j].time == s[j + 1].time || s[j].time >= clock(i, j) then None
      else if s[j].time > s[j + 1].time then Pass(Swapped(s, j), j + 1, k, i, clock)
      else Pass(s, j + 1, k, i, clock)
  {
  }

  lemma PassEnd(s: seq<Record>, k: nat, i: nat, clock: (nat, nat) -> int)
    requires 0 < k <= |s|
    ensures Pass(s, k - 1, k, i, clock) == Some(s)
  {
  }

  /** The clock does not run backwards from one test to a later one. */
  ghost predicate Forward(clock: (nat, nat) -> int) {
    forall i: nat, j: nat, i': nat, j': nat :: i < i' || (i == i' && j <= j') ==> clock(i, j) <= clock(i', j')
  }

  /** Each of the first n - 1 records is older than the reading at its position in the first round. */
  ghost predicate Early(s: seq<Record>, clock: (nat, nat) -> int, n: int) {
    forall q: nat :: q < n - 1 && q < |s| ==> s[q].time < clock(0, q)
  }

  /** The records before place m are older than c. */
  ghost predicate Before(s: seq<Record>, m: int, c: int) {
    forall q: nat :: q < m && q < |s| ==> s[q].time < c
  }

  /** At position j of the first round: the record there is the latest of the first j + 1, and the rest is untouched. */
  ghost predicate Carrying(s0: seq<Record>, s: seq<Record>, j: nat) {
    && |s| == |s0| && j < |s|
    && (exists q: nat :: q <= j && s0[q] == s[j])
    && (forall q: nat :: q <= j ==> s0[q].time <= s[j].time)
    && (forall q: nat :: j < q < |s| ==> s[q] == s0[q])
  }

  lemma CarryOn(s0: seq<Record>, s: seq<Record>, j: nat)
    requires Carrying(s0, s, j) && j + 1 < |s| && s[j].time < s[j + 1].time
    ensures Carrying(s0, s, j + 1)
  {
    assert s0[j + 1] == s[j + 1];
  }

  lemma CarrySwap(s0: seq<Record>, s: seq<Record>, j: nat)
    requires Carrying(s0, s, j) && j + 1 < |s| && s[j].time > s[j + 1].time
    ensures Carrying(s0, Swapped(s, j), j + 1)
  {
    var q: nat :| q <= j && s0[q] == s[j];
    assert s0[q] == Swapped(s, j)[j + 1];
  }

  /** The record carried is equal to its neighbour, or late: so two records are equal, or one was late. */
  lemma CarryFails(s0: seq<Record>, s: seq<Record>, j: nat, k: nat, clock: (nat, nat) -> int)
    requires Carrying(s0, s, j) && Forward(clock) && j + 1 < k <= |s|
    requires s[j].time == s[j + 1].time || s[j].time >= clock(0, j)
    ensures !AllDifferent(s0) || !Early(s0, clock, k)
  {
    var q: nat :| q <= j && s0[q] == s[j];
    assert s0[j + 1] == s[j + 1];
    assert clock(0, q) <= clock(0, j);
  }

  /** The first round ends normally only if all but the last record are early, and then fails only on equal ones. */
  lemma {:induction false} FirstRound(s0: seq<Record>, s: seq<Record>, j: nat, k: nat, clock: (nat, nat) -> int)
    requires Forward(clock) && j < k <= |s| && Carrying(s0, s, j)
    requires Early(s0, clock, j + 1) && Before(s, j, clock(0, k))
    ensures Pass(s, j, k, 0, clock).None? ==> !AllDifferent(s0) || !Early(s0, clock, k)
    ensures Pass(s, j, k, 0, clock).Some? ==>
      Early(s0, clock, k) && Before(Pass(s, j, k, 0, clock).value, k - 1, clock(0, k))
    decreases k - j
  {
    hide Carrying, AllDifferent;
    if j + 1 < k {
      if s[j].time == s[j + 1].time || s[j].time >= clock(0, j) {
        CarryFails(s0, s, j, k, clock);
      } else {
        EarlyStep(s0, s, j, clock);
        assert clock(0, j) <= clock(0, k);
        if s[j].time > s[j + 1].time {
          CarrySwap(s0, s, j);
          FirstRound(s0, Swapped(s, j), j + 1, k, clock);
        } else {
          CarryOn(s0, s, j);
          FirstRound(s0, s, j + 1, k, clock);
        }
      }
    }
  }

  lemma EarlyStep(s0: seq<Record>, s: seq<Record>, j: nat, clock: (nat, nat) -> int)
    requires Carrying(s0, s, j) && Early(s0, clock, j + 1) && s[j].time < clock(0, j)
    ensures Early(s0, clock, j + 2)
  {
  }

  /** Later rounds fail only on equal records. */
  lemma {:induction false} LaterRound(s: seq<Record>, j: nat, k: nat, i: nat, clock: (nat, nat) -> int, m: int, c: int)
    requires k <= m && k <= |s| && Before(s, m, c) && forall j: nat :: c <= clock(i, j)
    ensures Pass(s, j, k, i, clock).None? ==> !AllDifferent(s)
    ensures Pass(s, j, k, i, clock).Some? ==> Before(Pass(s, j, k, i, clock).value, m, c)
    decreases k - j
  {
    if j + 1 < k && s[j].time != s[j + 1].time {
      assert s[j].time < c <= clock(i, j);
      if s[j].time > s[j + 1].time {
        SwapDifferent(s, j);
        LaterRound(Swapped(s, j), j + 1, k, i, clock, m, c);
      } else {
        LaterRound(s, j + 1, k, i, clock, m, c);
      }
    }
  }

  /** One round of the outer loop of sortList; ok is false at the error exit. */
  method Round(list: List, k: nat, i: nat, clock: (nat, nat) -> int) returns (ok: bool, swapped: bool)
    requires list.Valid() && 0 < k <= |list.Contents()| && SortedTail(list.Contents(), k)
    modifies list`members, list`ring, list.ring
    ensures list.Valid() && Same(old(list.Contents()), list.Contents())
    ensures forall k: nat :: k < |list.ring| ==> list.ring[k] in old(list.ring) || fresh(list.ring[k])
    ensures ok ==> SortedTail(list.Contents(), k - 1) && (!swapped ==> SortedTail(list.Contents(), 0))
    ensures !ok ==> !AllDifferent(old(list.Contents())) || SomeLate(old(list.Contents()), clock)
    ensures Pass(old(list.Contents()), 0, k, i, clock) == if ok then Some(list.Contents()) else None
  {
    hide List.Valid, List.Contents, Objs, SortedTail, Largest, AllDifferent, Same, Rounding, Swapped, Pass, SomeLate;
    Nonempty(list);
    RoundStart(list.Contents(), k);
    SameSelf(list.Contents());
    ok, swapped := true, false;
    var first := list.First();
    var elem := first.value;
    var j := 0;
    while j < k - 1
      invariant 0 <= j < k < |list.ring| && list.Valid() && elem == list.ring[j + 1]
      invariant Same(old(list.Contents()), list.Contents()) && Rounding(list.Contents(), k, j, swapped)
      invariant |list.Contents()| >= k && Pass(list.Contents(), j, k, i, clock) == Pass(old(list.Contents()), 0, k, i, clock)
      invariant forall k: nat :: k < |list.ring| ==> list.ring[k] in old(list.ring) || fresh(list.ring[k])
    {
      Nonempty(list);
      var next := list.Next(elem, j + 1);
      var following := next.value;
      PassStep(list.Contents(), j, k, i, clock);
      if elem.obj.time == following.obj.time || elem.obj.time >= clock(i, j) {
        EqualOrLate(old(list.Contents()), list.Contents(), clock, i, j);
        return false, swapped;
      }
      if elem.obj.time > following.obj.time {
        RoundSwap(list.Contents(), k, j, swapped);
        SwapSame(old(list.Contents()), list.Contents(), j);
        ReplacedAt(list.ring, j + 1);
        var e1, e2 := BubbleForward(list, elem, following, j + 1);
        elem, following := e1, e2;
        swapped := true;
      } else {
        RoundKeep(list.Contents(), k, j, swapped);
      }
      elem := following;
      j := j + 1;
    }
    RoundDone(list.Contents(), k, swapped);
    PassEnd(list.Contents(), k, i, clock);
  }

  /**
   * sortList.  It returns normally only with the same records in strictly
   * increasing order of time, so a time that occurs twice anywhere in the
   * list leads to the error exit; and it takes that exit only for a wrong
   * count, for equal times or for a time that the clock had not passed.  With
   * a clock that does not run backwards it takes it exactly for a wrong count,
   * for equal times, or for a record, not the last one of the list as given,
   * that is not older than the clock at its turn in the first round.
   */
  method SortList(list: List, n: int, clock: (nat, nat) -> int) returns (ok: bool)
    requires list.Valid()
    modifies list`members, list`ring, list.ring
    ensures list.Valid() && Same(old(list.Contents()), list.Contents())
    ensures ok ==> n == |old(list.Contents())| && Increasing(list.Contents(), 0, |list.Contents()|)
    ensures !AllDifferent(old(list.Contents())) ==> !ok
    ensures !ok ==> n != |old(list.Contents())| || !AllDifferent(old(list.Contents())) || SomeLate(old(list.Contents()), clock)
    ensures Forward(clock) ==>
      (ok <==> n == |old(list.Contents())| && AllDifferent(old(list.Contents())) && Early(old(list.Contents()), clock, n))
  {
    hide List.Valid, List.Contents, Objs, SortedTail, AllDifferent, Same, SomeLate, Increasing, Pass, Early, Before, Forward;
    Nonempty(list);
    SameSelf(list.Contents());
    var length := list.Length();
    if length != n { return false; }
    TailStart(list.Contents());
    var i := 0;
    while i < n
      invariant 0 <= i <= n && list.Valid() && |list.Contents()| == n && SortedTail(list.Contents(), n - i)
      invariant Same(old(list.Contents()), list.Contents())
      invariant Forward(clock) ==> Underway(old(list.Contents()), list.Contents(), n, i, clock)
      invariant forall k: nat :: k < |list.ring| ==> list.ring[k] in old(list.ring) || fresh(list.ring[k])
    {
      ghost var s := list.Contents();
      var swapped;
      ok, swapped := Round(list, n - i, i, clock);
      SameTrans(old(list.Contents()), s, list.Contents(), clock);
      if Forward(clock) { UnderwayStep(old(list.Contents()), s, n, i, clock); }
      if !ok { return; }
      if !swapped {
        AllSorted(old(list.Contents()), list.Contents());
        return;
      }
      i := i + 1;
    }
    AllSorted(old(list.Contents()), list.Contents());
    NoneEarly(old(list.Contents()), clock, n);
    ok := true;
  }

  function Always(now: int): (nat, nat) -> int { (i, j) => now }

  /** A record from the future is accepted as the last one given. */
  lemma LastUnchecked(now: int)
    ensures var s := [Record(now - 1, 0), Record(now + 1, 1)];
      Forward(Always(now)) && Pass(s, 0, 2, 0, Always(now)) == Some(s) && s[1].time >= Always(now)(0, 0)
  {
    var s := [Record(now - 1, 0), Record(now + 1, 1)];
    assert Pass(s, 1, 2, 0, Always(now)) == Some(s);
  }

  /** Before round i: nothing has happened yet, or the first round has found all but the last record early. */
  ghost predicate Underway(s0: seq<Record>, s: seq<Record>, n: nat, i: nat, clock: (nat, nat) -> int) {
    if i == 0 then s == s0 else Early(s0, clock, n) && Before(s, n - 1, clock(0, n))
  }

  lemma UnderwayStep(s0: seq<Record>, s: seq<Record>, n: nat, i: nat, clock: (nat, nat) -> int)
    requires Forward(clock) && i < n == |s| == |s0| && Underway(s0, s, n, i, clock)
    requires AllDifferent(s) <==> AllDifferent(s0)
    ensures Pass(s, 0, n - i, i, clock).None? ==> !AllDifferent(s0) || !Early(s0, clock, n)
    ensures Pass(s, 0, n - i, i, clock).Some? ==>
      Early(s0, clock, n) && Underway(s0, Pass(s, 0, n - i, i, clock).value, n, i + 1, clock)
  {
    hide Pass, AllDifferent;
    if i == 0 {
      assert s0[0] == s[0];
      FirstRound(s0, s, 0, n, clock);
    } else {
      LaterRound(s, 0, n - i, i, clock, n - 1, clock(0, n));
    }
  }

  lemma TailStart(s: seq<Record>)
    ensures SortedTail(s, |s|)
  {
  }

  lemma SameTrans(s: seq<Record>, s1: seq<Record>, s2: seq<Record>, clock: (nat, nat) -> int)
    requires Same(s, s1) && Same(s1, s2)
    ensures Same(s, s2) && |s1| == |s2|
    ensures AllDifferent(s1) <==> AllDifferent(s)
    ensures SomeLate(s1, clock) ==> SomeLate(s, clock)
  {
    if SomeLate(s1, clock) {
      var r, i: nat, j: nat :| r in s1 && r.time >= clock(i, j);
      var k :| 0 <= k < |s1| && s1[k] == r;
      LateIn(s, s1, clock, k, i, j);
    }
    hide AllDifferent, SomeLate;
  }

  lemma AllSorted(s: seq<Record>, s': seq<Record>)
    requires Same(s, s') && SortedTail(s', 0)
    ensures Increasing(s', 0, |s'|) && AllDifferent(s)
  {
  }

  lemma EqualOrLate(s: seq<Record>, s': seq<Record>, clock: (nat, nat) -> int, i: nat, j: nat)
    requires Same(s, s') && j + 1 < |s'| && (s'[j].time == s'[j + 1].time || s'[j].time >= clock(i, j))
    ensures !AllDifferent(s) || SomeLate(s, clock)
  {
    if s'[j].time >= clock(i, j) { LateIn(s, s', clock, j, i, j); }
  }

  lemma ReplacedAt(r: seq<Cell>, i: nat)
    requires i + 1 < |r|
    ensures forall e1, e2 {:trigger Replaced(r, i, e1, e2)} ::
      && |Replaced(r, i, e1, e2)| == |r| && Replaced(r, i, e1, e2)[i + 1] == e2
      && forall k: nat :: k < |r| ==> Replaced(r, i, e1, e2)[k] in r || Replaced(r, i, e1, e2)[k] in [e1, e2]
  {
  }

  lemma NoneEarly(s: seq<Record>, clock: (nat, nat) -> int, n: int)
    ensures n <= 1 ==> Early(s, clock, n)
  {
  }

  lemma SameSelf(s: seq<Record>)
    ensures Same(s, s)
  {
  }
}
