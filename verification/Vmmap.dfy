/**
 * The list of areas of one address space (kernel/proc/vm/vmmap.c) and the
 * partial function from virtual pages to object pages that it denotes.
 */
module Vmmap {
  import opened Basics
  import opened MemObjects

  datatype Prot = Prot(read: bool, write: bool)

  /** A vmarea: virtual pages [start, end) show pages off, off + 1, ... of obj. */
  datatype Area = Area(start: Vpn, end: Vpn, off: PageNum, prot: Prot, private: bool, obj: ObjId) {
    predicate Covers(v: Vpn) { start <= v < end }

    predicate Overlaps(lo: Vpn, hi: Vpn) { start < hi && lo < end }

    function PageOf(v: Vpn): PageNum
      requires Covers(v)
    {
      v - start + off
    }
  }

  /** What an address space says about one mapped page. */
  datatype Mapping = Mapping(obj: ObjId, pn: PageNum, prot: Prot, private: bool)

  // ---------------------------------------------------------- well-formed

  ghost predicate AreaOk(a: Area, low: Vpn, high: Vpn) {
    low <= a.start < a.end <= high
  }

  /** Areas are non-empty, inside the user bounds, sorted and pairwise disjoint. */
  ghost predicate Sorted(areas: seq<Area>, low: Vpn, high: Vpn) {
    && (forall i :: 0 <= i < |areas| ==> AreaOk(areas[i], low, high))
    && (forall i, j :: 0 <= i < j < |areas| ==> areas[i].end <= areas[j].start)
  }

  // ------------------------------------------------------------- denotation

  function At(areas: seq<Area>, v: Vpn): Option<Mapping> {
    if areas == [] then None
    else if areas[0].Covers(v) then Some(Mapping(areas[0].obj, areas[0].PageOf(v), areas[0].prot, areas[0].private))
    else At(areas[1..], v)
  }

  /** The objects the areas refer to, one entry for each area. */
  function ObjsOf(areas: seq<Area>): multiset<ObjId> {
    if areas == [] then multiset{} else multiset{areas[0].obj} + ObjsOf(areas[1..])
  }

  // ------------------------------------------------------------- operations

  /** vmmap_insert: before the first area that starts later. */
  function Insert(areas: seq<Area>, a: Area): seq<Area> {
    if areas == [] then [a]
    else if areas[0].start > a.start then [a] + areas
    else [areas[0]] + Insert(areas[1..], a)
  }

  /** vmmap_lookup: the first area that covers v. */
  function Lookup(areas: seq<Area>, v: Vpn): Option<Area> {
    if areas == [] then None
    else if areas[0].Covers(v) then Some(areas[0])
    else Lookup(areas[1..], v)
  }

  /** vmmap_is_range_empty. */
  predicate RangeEmpty(areas: seq<Area>, lo: Vpn, hi: Vpn) {
    forall i :: 0 <= i < |areas| ==> !areas[i].Overlaps(lo, hi)
  }

  /** The part of a before the removed range. */
  function Left(a: Area, lo: Vpn): Area { a.(end := lo) }

  /** The part of a after the removed range. */
  function Right(a: Area, hi: Vpn): Area
    requires a.start <= hi
  {
    a.(off := a.off + (hi - a.start), start := hi)
  }

  /** vmmap_remove: what is left of the areas, case by case. */
  function Remove(areas: seq<Area>, lo: Vpn, hi: Vpn): seq<Area>
    requires lo < hi
  {
    if areas == [] then []
    else
      var a := areas[0];
      if !a.Overlaps(lo, hi) then [a] + Remove(areas[1..], lo, hi)
      else if a.start < lo && a.end > hi then [Left(a, lo), Right(a, hi)] + areas[1..]
      else if a.start < lo then [Left(a, lo)] + Remove(areas[1..], lo, hi)
      else if a.end > hi then [Right(a, hi)] + Remove(areas[1..], lo, hi)
      else Remove(areas[1..], lo, hi)
  }

  /** The references vmmap_remove takes: one, when it splits an area. */
  function RefsTaken(areas: seq<Area>, lo: Vpn, hi: Vpn): seq<ObjId> {
    if areas == [] then []
    else if areas[0].start < lo && areas[0].end > hi then [areas[0].obj]
    else RefsTaken(areas[1..], lo, hi)
  }

  /** The references vmmap_remove drops: one for each area it removes whole. */
  function RefsDropped(areas: seq<Area>, lo: Vpn, hi: Vpn): seq<ObjId> {
    if areas == [] then []
    else if areas[0].start < lo && areas[0].end > hi then []
    else if areas[0].Overlaps(lo, hi) && areas[0].start >= lo && areas[0].end <= hi then
      [areas[0].obj] + RefsDropped(areas[1..], lo, hi)
    else RefsDropped(areas[1..], lo, hi)
  }

  // ------------------------------------------------------ lookup agrees with At

  lemma SortedTail(areas: seq<Area>, low: Vpn, high: Vpn)
    requires Sorted(areas, low, high) && areas != []
    ensures Sorted(areas[1..], low, high)
  {
  }

  lemma {:induction false} LookupIsAt(areas: seq<Area>, v: Vpn)
    ensures Lookup(areas, v).Some? <==> At(areas, v).Some?
    ensures Lookup(areas, v).Some? ==>
      && var a := Lookup(areas, v).value;
      && a in areas && a.Covers(v) && At(areas, v).value == Mapping(a.obj, a.PageOf(v), a.prot, a.private)
  {
    if areas != [] && !areas[0].Covers(v) {
      LookupIsAt(areas[1..], v);
    }
  }

  /** At is the unique covering area's mapping. */
  lemma {:induction false} AtIndex(areas: seq<Area>, low: Vpn, high: Vpn, i: nat, v: Vpn)
    requires Sorted(areas, low, high) && i < |areas| && areas[i].Covers(v)
    ensures At(areas, v) == Some(Mapping(areas[i].obj, areas[i].PageOf(v), areas[i].prot, areas[i].private))
    ensures Lookup(areas, v) == Some(areas[i])
  {
    if i > 0 {
      SortedTail(areas, low, high);
      AtIndex(areas[1..], low, high, i - 1, v);
    }
  }

  lemma {:induction false} AtNone(areas: seq<Area>, v: Vpn)
    requires forall i :: 0 <= i < |areas| ==> !areas[i].Covers(v)
    ensures At(areas, v) == None
  {
    if areas != [] { AtNone(areas[1..], v); }
  }

  lemma {:induction false} AtSome(areas: seq<Area>, v: Vpn) returns (i: nat)
    requires At(areas, v).Some?
    ensures i < |areas| && areas[i].Covers(v) && Lookup(areas, v) == Some(areas[i])
    ensures At(areas, v) == Some(Mapping(areas[i].obj, areas[i].PageOf(v), areas[i].prot, areas[i].private))
  {
    if areas[0].Covers(v) {
      i := 0;
    } else {
      var j := AtSome(areas[1..], v);
      i := j + 1;
    }
  }

  /** A range is empty exactly when none of its pages is mapped. */
  lemma RangeEmptyIsAt(areas: seq<Area>, low: Vpn, high: Vpn, lo: Vpn, hi: Vpn)
    requires Sorted(areas, low, high) && lo < hi
    ensures RangeEmpty(areas, lo, hi) <==> forall v: Vpn :: lo <= v < hi ==> At(areas, v) == None
  {
    if RangeEmpty(areas, lo, hi) {
      forall v: Vpn | lo <= v < hi ensures At(areas, v) == None {
        forall i | 0 <= i < |areas| ensures !areas[i].Covers(v) {
          assert !areas[i].Overlaps(lo, hi);
        }
        AtNone(areas, v);
      }
    } else {
      var i :| 0 <= i < |areas| && areas[i].Overlaps(lo, hi);
      var v := if areas[i].start < lo then lo else areas[i].start;
      assert AreaOk(areas[i], low, high);
      AtIndex(areas, low, high, i, v);
    }
  }

  // ------------------------------------------------------------------ insert

  lemma {:induction false} InsertSorted(areas: seq<Area>, low: Vpn, high: Vpn, a: Area)
    requires Sorted(areas, low, high) && AreaOk(a, low, high) && RangeEmpty(areas, a.start, a.end)
    ensures Sorted(Insert(areas, a), low, high)
    ensures forall x :: x in Insert(areas, a) <==> x == a || x in areas
  {
    if areas != [] && areas[0].start <= a.start {
      SortedTail(areas, low, high);
      InsertSorted(areas[1..], low, high, a);
      var r := Insert(areas[1..], a);
      assert !areas[0].Overlaps(a.start, a.end) && AreaOk(areas[0], low, high);
      forall j | 0 <= j < |r| ensures areas[0].end <= r[j].start {
        assert r[j] in r;
      }
    } else if areas != [] {
      assert !areas[0].Overlaps(a.start, a.end) && AreaOk(areas[0], low, high);
    }
  }

  /** Inserting into an empty range overrides the function on that range. */
  lemma {:induction false} InsertAt(areas: seq<Area>, a: Area, v: Vpn)
    requires RangeEmpty(areas, a.start, a.end)
    ensures At(Insert(areas, a), v) ==
      if a.Covers(v) then Some(Mapping(a.obj, a.PageOf(v), a.prot, a.private)) else At(areas, v)
  {
    if areas != [] && areas[0].start <= a.start {
      InsertAt(areas[1..], a, v);
      assert !areas[0].Overlaps(a.start, a.end);
    }
  }

  lemma {:induction false} InsertObjs(areas: seq<Area>, a: Area)
    ensures ObjsOf(Insert(areas, a)) == ObjsOf(areas) + multiset{a.obj}
  {
    if areas != [] && areas[0].start <= a.start {
      InsertObjs(areas[1..], a);
    }
  }

  // ------------------------------------------------------------------ remove

  /** x is a piece of y: same object pages at the same virtual pages. */
  ghost predicate PieceOf(x: Area, y: Area) {
    && x.obj == y.obj && x.private == y.private && x.prot == y.prot
    && y.start <= x.start && x.end <= y.end
    && x.start - x.off == y.start - y.off
  }

  lemma {:induction false} RemovePieces(areas: seq<Area>, lo: Vpn, hi: Vpn, k: nat) returns (i: nat)
    requires lo < hi && k < |Remove(areas, lo, hi)|
    ensures i < |areas| && PieceOf(Remove(areas, lo, hi)[k], areas[i])
    ensures |Remove(areas, lo, hi)| >= 1
  {
    var a := areas[0];
    var r := Remove(areas, lo, hi);
    if a.Overlaps(lo, hi) && a.start < lo && a.end > hi {
      i := if k <= 1 then 0 else k - 1;
    } else {
      var kept := if a.Overlaps(lo, hi) && a.start >= lo && a.end <= hi then 0 else 1;
      assert kept == 1 ==> r[1..] == Remove(areas[1..], lo, hi);
      if k < kept {
        i := 0;
      } else {
        var j := RemovePieces(areas[1..], lo, hi, k - kept);
        i := j + 1;
      }
    }
  }

  lemma SortedCons(a: Area, rest: seq<Area>, low: Vpn, high: Vpn)
    requires AreaOk(a, low, high) && Sorted(rest, low, high)
    requires forall k :: 0 <= k < |rest| ==> a.end <= rest[k].start
    ensures Sorted([a] + rest, low, high)
  {
  }

  lemma {:induction false} RemoveSorted(areas: seq<Area>, low: Vpn, high: Vpn, lo: Vpn, hi: Vpn)
    requires Sorted(areas, low, high) && lo < hi
    ensures Sorted(Remove(areas, lo, hi), low, high)
  {
    if areas != [] {
      var a := areas[0];
      assert AreaOk(a, low, high);
      SortedTail(areas, low, high);
      RemoveSorted(areas[1..], low, high, lo, hi);
      var r := Remove(areas[1..], lo, hi);
      forall k | 0 <= k < |r| ensures a.end <= r[k].start {
        var i := RemovePieces(areas[1..], lo, hi, k);
      }
      assert forall k :: 0 <= k < |areas[1..]| ==> a.end <= areas[1..][k].start;
      hide Sorted;
      if !a.Overlaps(lo, hi) {
        SortedCons(a, r, low, high);
      } else if a.start < lo && a.end > hi {
        SortedCons(Right(a, hi), areas[1..], low, high);
        SortedCons(Left(a, lo), [Right(a, hi)] + areas[1..], low, high);
        assert [Left(a, lo), Right(a, hi)] + areas[1..] == [Left(a, lo)] + ([Right(a, hi)] + areas[1..]);
      } else if a.start < lo {
        SortedCons(Left(a, lo), r, low, high);
      } else if a.end > hi {
        SortedCons(Right(a, hi), r, low, high);
      }
    }
  }

  lemma AtCons(a: Area, rest: seq<Area>, v: Vpn)
    ensures At([a] + rest, v) == if a.Covers(v) then Some(Mapping(a.obj, a.PageOf(v), a.prot, a.private)) else At(rest, v)
  {
    assert ([a] + rest)[1..] == rest;
  }

  /** Nothing in the tail covers a page before the end of the head. */
  lemma TailLater(areas: seq<Area>, low: Vpn, high: Vpn, v: Vpn)
    requires Sorted(areas, low, high) && areas != [] && v < areas[0].end
    ensures At(areas[1..], v) == None
  {
    forall i | 0 <= i < |areas[1..]| ensures !areas[1..][i].Covers(v) {
      assert areas[0].end <= areas[i + 1].start;
    }
    AtNone(areas[1..], v);
  }

  /** Removing a range is exact domain subtraction, in all four overlap cases. */
  lemma {:induction false} RemoveAt(areas: seq<Area>, low: Vpn, high: Vpn, lo: Vpn, hi: Vpn, v: Vpn)
    requires Sorted(areas, low, high) && lo < hi
    ensures At(Remove(areas, lo, hi), v) == if lo <= v < hi then None else At(areas, v)
  {
    if areas != [] {
      var a := areas[0];
      assert AreaOk(a, low, high);
      SortedTail(areas, low, high);
      RemoveAt(areas[1..], low, high, lo, hi, v);
      if v < a.end { TailLater(areas, low, high, v); }
      if !a.Overlaps(lo, hi) {
        AtCons(a, Remove(areas[1..], lo, hi), v);
      } else if a.start < lo && a.end > hi {
        assert [Left(a, lo), Right(a, hi)] + areas[1..] == [Left(a, lo)] + ([Right(a, hi)] + areas[1..]);
        AtCons(Left(a, lo), [Right(a, hi)] + areas[1..], v);
        AtCons(Right(a, hi), areas[1..], v);
      } else if a.start < lo {
        AtCons(Left(a, lo), Remove(areas[1..], lo, hi), v);
      } else if a.end > hi {
        AtCons(Right(a, hi), Remove(areas[1..], lo, hi), v);
      }
    }
  }

  function One(o1: ObjId, o2: ObjId): nat { if o1 == o2 then 1 else 0 }

  /** How often Remove drops a reference to o. */
  function Drops(areas: seq<Area>, lo: Vpn, hi: Vpn, o: ObjId): nat {
    if areas == [] || (areas[0].start < lo && areas[0].end > hi) then 0
    else
      (if areas[0].Overlaps(lo, hi) && areas[0].start >= lo && areas[0].end <= hi then One(areas[0].obj, o) else 0)
      + Drops(areas[1..], lo, hi, o)
  }

  lemma {:induction false} DropsCount(areas: seq<Area>, lo: Vpn, hi: Vpn, o: ObjId)
    ensures multiset(RefsDropped(areas, lo, hi))[o] == Drops(areas, lo, hi, o)
  {
    if areas != [] { DropsCount(areas[1..], lo, hi, o); }
  }

  /** How often Remove takes a reference to o. */
  function Takes(areas: seq<Area>, lo: Vpn, hi: Vpn, o: ObjId): nat {
    if areas == [] then 0
    else if areas[0].start < lo && areas[0].end > hi then One(areas[0].obj, o)
    else Takes(areas[1..], lo, hi, o)
  }

  lemma {:induction false} TakesCount(areas: seq<Area>, lo: Vpn, hi: Vpn, o: ObjId)
    ensures multiset(RefsTaken(areas, lo, hi))[o] == Takes(areas, lo, hi, o)
  {
    if areas != [] { TakesCount(areas[1..], lo, hi, o); }
  }

  /** How many areas refer to o. */
  function Count(areas: seq<Area>, o: ObjId): nat {
    if areas == [] then 0 else One(areas[0].obj, o) + Count(areas[1..], o)
  }

  lemma {:induction false} CountIs(areas: seq<Area>, o: ObjId)
    ensures ObjsOf(areas)[o] == Count(areas, o)
  {
    if areas != [] { CountIs(areas[1..], o); }
  }

  lemma CountCons(a: Area, rest: seq<Area>, o: ObjId)
    ensures Count([a] + rest, o) == One(a.obj, o) + Count(rest, o)
  {
    assert ([a] + rest)[1..] == rest;
  }

  lemma {:induction false} RemoveCount(areas: seq<Area>, lo: Vpn, hi: Vpn, o: ObjId)
    requires lo < hi
    ensures Count(Remove(areas, lo, hi), o) + Drops(areas, lo, hi, o) == Count(areas, o) + Takes(areas, lo, hi, o)
  {
    if areas != [] {
      var a := areas[0];
      var rest := Remove(areas[1..], lo, hi);
      RemoveCount(areas[1..], lo, hi, o);
      if !a.Overlaps(lo, hi) {
        CountCons(a, rest, o);
      } else if a.start < lo && a.end > hi {
        assert [Left(a, lo), Right(a, hi)] + areas[1..] == [Left(a, lo)] + ([Right(a, hi)] + areas[1..]);
        CountCons(Left(a, lo), [Right(a, hi)] + areas[1..], o);
        CountCons(Right(a, hi), areas[1..], o);
      } else if a.start < lo {
        CountCons(Left(a, lo), rest, o);
      } else if a.end > hi {
        CountCons(Right(a, hi), rest, o);
      }
    }
  }

  /** The references taken and dropped are exactly the change in the areas' references. */
  lemma RemoveObjs(areas: seq<Area>, lo: Vpn, hi: Vpn)
    requires lo < hi
    ensures ObjsOf(Remove(areas, lo, hi)) + multiset(RefsDropped(areas, lo, hi))
         == ObjsOf(areas) + multiset(RefsTaken(areas, lo, hi))
  {
    forall o: ObjId
      ensures ObjsOf(Remove(areas, lo, hi))[o] + multiset(RefsDropped(areas, lo, hi))[o]
           == ObjsOf(areas)[o] + multiset(RefsTaken(areas, lo, hi))[o]
    {
      RemoveCount(areas, lo, hi, o);
      CountIs(areas, o);
      CountIs(Remove(areas, lo, hi), o);
      DropsCount(areas, lo, hi, o);
      TakesCount(areas, lo, hi, o);
    }
    hide *;
  }

  lemma {:induction false} DroppedCount(areas: seq<Area>, lo: Vpn, hi: Vpn, o: ObjId)
    ensures multiset(RefsDropped(areas, lo, hi))[o] <= ObjsOf(areas)[o]
  {
    if areas != [] {
      DroppedCount(areas[1..], lo, hi, o);
    }
  }

  /** A split removes no area whole. */
  lemma {:induction false} SplitDropsNone(areas: seq<Area>, low: Vpn, high: Vpn, lo: Vpn, hi: Vpn)
    requires Sorted(areas, low, high) && lo < hi
    ensures RefsTaken(areas, lo, hi) != [] ==> RefsDropped(areas, lo, hi) == []
    ensures |RefsTaken(areas, lo, hi)| <= 1
  {
    if areas != [] {
      SortedTail(areas, low, high);
      SplitDropsNone(areas[1..], low, high, lo, hi);
      if RefsTaken(areas[1..], lo, hi) != [] {
        var i := TakenFrom(areas[1..], lo, hi);
      }
    }
  }

  lemma {:induction false} TakenFrom(areas: seq<Area>, lo: Vpn, hi: Vpn) returns (i: nat)
    requires RefsTaken(areas, lo, hi) != []
    ensures i < |areas| && areas[i].start < lo && areas[i].end > hi && RefsTaken(areas, lo, hi) == [areas[i].obj]
  {
    if areas[0].start < lo && areas[0].end > hi {
      i := 0;
    } else {
      var j := TakenFrom(areas[1..], lo, hi);
      i := j + 1;
    }
  }

  // ------------------------------------------------------------------- clone

  /** Inserting an area that starts last appends it. */
  lemma {:induction false} InsertLast(areas: seq<Area>, a: Area)
    requires forall i :: 0 <= i < |areas| ==> areas[i].start <= a.start
    ensures Insert(areas, a) == areas + [a]
  {
    if areas != [] {
      InsertLast(areas[1..], a);
      assert areas == [areas[0]] + areas[1..];
    }
  }

  lemma {:induction false} ObjsOfAppend(areas: seq<Area>, a: Area)
    ensures ObjsOf(areas + [a]) == ObjsOf(areas) + multiset{a.obj}
  {
    if areas == [] {
      assert areas + [a] == [a];
    } else {
      ObjsOfAppend(areas[1..], a);
      assert (areas + [a])[1..] == areas[1..] + [a];
    }
  }

  lemma {:induction false} ObjsOfMember(areas: seq<Area>, o: ObjId)
    ensures o in ObjsOf(areas) <==> exists i :: 0 <= i < |areas| && areas[i].obj == o
  {
    if areas != [] {
      ObjsOfMember(areas[1..], o);
      if i :| 0 <= i < |areas| && areas[i].obj == o {
        if i > 0 { assert areas[1..][i - 1].obj == o; }
      }
      if o in ObjsOf(areas[1..]) {
        var j :| 0 <= j < |areas[1..]| && areas[1..][j].obj == o;
        assert areas[j + 1].obj == o;
      }
    }
  }
}
