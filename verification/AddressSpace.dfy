/**
 * The area list of one address space as the kernel updates it, area by area,
 * taking and releasing object references on the way
 * (kernel/proc/vm/vmmap.c, pagefault.c, kernel/proc/fork.c).
 */
module AddressSpace {
  import opened Basics
  import opened MemObjects
  import opened Vmmap
  import opened ObjectTable
  import opened ObjectRefs
  import opened VirtualMemory

  /** Every area holds a counted reference to its object. */
  ghost predicate Held(s: Store, areas: seq<Area>, roots: multiset<ObjId>) {
    Inv(s, roots) && ObjsOf(areas) <= roots
  }

  lemma HeldFirst(s: Store, areas: seq<Area>, roots: multiset<ObjId>)
    requires Held(s, areas, roots) && areas != []
    ensures areas[0].obj in roots && areas[0].obj in s.objs && ChainLive(s.objs, areas[0].obj)
    ensures Held(s, areas[1..], roots)
    ensures Held(Put(s, areas[0].obj), areas[1..], roots - multiset{areas[0].obj})
  {
    var o := areas[0].obj;
    assert ObjsOf(areas)[o] > 0;
    RootsExist(s, roots, o);
    InvChainLive(s, roots, o);
    PutKeepsInv(s, roots, o);
    assert ObjsOf(areas) - multiset{o} == ObjsOf(areas[1..]);
    hide Inv, Put;
  }

  /** The loop of vmmap_remove: what is left to do gives what the whole removal gives. */
  ghost predicate Removing(s0: Store, areas: seq<Area>, lo: Vpn, hi: Vpn, s: Store, done: seq<Area>, rest: seq<Area>)
    requires lo < hi
  {
    && done + Remove(rest, lo, hi) == Remove(areas, lo, hi)
    && RefsTaken(rest, lo, hi) == RefsTaken(areas, lo, hi)
    && PutAll(s, RefsDropped(rest, lo, hi)) == PutAll(s0, RefsDropped(areas, lo, hi))
    && (RefsTaken(rest, lo, hi) != [] ==> s == s0)
  }

  /** What the removal leaves of one area. */
  function Pieces(a: Area, lo: Vpn, hi: Vpn): seq<Area>
    requires lo < hi
  {
    if !a.Overlaps(lo, hi) then [a]
    else if a.start < lo && a.end > hi then [Left(a, lo), Right(a, hi)]
    else if a.start < lo then [Left(a, lo)]
    else if a.end > hi then [Right(a, hi)]
    else []
  }

  /** What the removal does to the reference of one area. */
  function CutRefs(s: Store, a: Area, lo: Vpn, hi: Vpn): Store
    requires a.obj in s.objs
  {
    if !a.Overlaps(lo, hi) then s
    else if a.start < lo && a.end > hi then Ref(s, a.obj)
    else if a.start < lo || a.end > hi then s
    else Put(s, a.obj)
  }

  lemma {:induction false} NothingToRemove(s: Store, areas: seq<Area>, lo: Vpn, hi: Vpn)
    requires lo < hi && RangeEmpty(areas, lo, hi)
    ensures Remove(areas, lo, hi) == areas && RefsTaken(areas, lo, hi) == [] && RefsDropped(areas, lo, hi) == []
    ensures RemoveRefs(s, areas, lo, hi) == s
  {
    if areas != [] {
      assert !areas[0].Overlaps(lo, hi);
      NothingToRemove(s, areas[1..], lo, hi);
    }
  }

  /** The areas an area contributes come first. */
  lemma RemoveFirst(areas: seq<Area>, lo: Vpn, hi: Vpn)
    requires lo < hi && areas != [] && !(areas[0].start < lo && areas[0].end > hi)
    ensures Remove(areas, lo, hi) == Pieces(areas[0], lo, hi) + Remove(areas[1..], lo, hi)
    ensures RefsTaken(areas, lo, hi) == RefsTaken(areas[1..], lo, hi)
  {
  }

  lemma DropFirst(s: Store, areas: seq<Area>, lo: Vpn, hi: Vpn)
    requires lo < hi && areas != [] && areas[0].obj in s.objs && !(areas[0].start < lo && areas[0].end > hi)
    ensures PutAll(CutRefs(s, areas[0], lo, hi), RefsDropped(areas[1..], lo, hi)) == PutAll(s, RefsDropped(areas, lo, hi))
    ensures CutRefs(s, areas[0], lo, hi) != s ==> RefsDropped(areas, lo, hi) != []
  {
    if areas[0].Overlaps(lo, hi) && areas[0].start >= lo && areas[0].end <= hi {
      assert RefsDropped(areas, lo, hi) == [areas[0].obj] + RefsDropped(areas[1..], lo, hi);
    }
    hide Put;
  }

  lemma RemovingStep(s0: Store, areas: seq<Area>, low: Vpn, high: Vpn, lo: Vpn, hi: Vpn, s: Store, done: seq<Area>, rest: seq<Area>)
    requires lo < hi && Removing(s0, areas, lo, hi, s, done, rest) && rest != [] && Sorted(rest, low, high)
    requires rest[0].obj in s.objs && !(rest[0].start < lo && rest[0].end > hi)
    ensures Removing(s0, areas, lo, hi, CutRefs(s, rest[0], lo, hi), done + Pieces(rest[0], lo, hi), rest[1..])
  {
    hide Pieces, CutRefs, Remove, RefsTaken, RefsDropped, PutAll, Sorted;
    SplitDropsNone(rest, low, high, lo, hi);
    RemoveFirst(rest, lo, hi);
    DropFirst(s, rest, lo, hi);
    var p, r := Pieces(rest[0], lo, hi), Remove(rest[1..], lo, hi);
    assert done + (p + r) == done + p + r;
  }

  /** The references still held once the area at the front has been dealt with. */
  lemma CutHeld(s: Store, areas: seq<Area>, roots: multiset<ObjId>, lo: Vpn, hi: Vpn) returns (left: multiset<ObjId>)
    requires Held(s, areas, roots) && areas != [] && areas[0].obj in s.objs && !(areas[0].start < lo && areas[0].end > hi)
    ensures Held(CutRefs(s, areas[0], lo, hi), areas[1..], left)
  {
    hide Held, Put;
    HeldFirst(s, areas, roots);
    left := if areas[0].Overlaps(lo, hi) && areas[0].start >= lo && areas[0].end <= hi
            then roots - multiset{areas[0].obj} else roots;
  }

  /** What the removal loop keeps. */
  ghost predicate Sweeping(s0: Store, areas: seq<Area>, low: Vpn, high: Vpn, lo: Vpn, hi: Vpn, s: Store,
                           done: seq<Area>, rest: seq<Area>)
  {
    && lo < hi && Sorted(areas, low, high) && Sorted(rest, low, high)
    && Removing(s0, areas, lo, hi, s, done, rest)
    && exists roots :: Held(s, rest, roots)
  }

  lemma SweepStart(s: Store, areas: seq<Area>, low: Vpn, high: Vpn, lo: Vpn, hi: Vpn, roots: multiset<ObjId>)
    requires lo < hi && Sorted(areas, low, high) && Held(s, areas, roots)
    ensures Sweeping(s, areas, low, high, lo, hi, s, [], areas) && [] + areas == areas
  {
    assert [] + Remove(areas, lo, hi) == Remove(areas, lo, hi);
    hide Held, Sorted, PutAll, RefsDropped, RefsTaken;
  }

  lemma SweepFirst(s0: Store, areas: seq<Area>, low: Vpn, high: Vpn, lo: Vpn, hi: Vpn, s: Store, done: seq<Area>, rest: seq<Area>)
    requires Sweeping(s0, areas, low, high, lo, hi, s, done, rest) && rest != []
    ensures rest[0].obj in s.objs && ChainLive(s.objs, rest[0].obj) && done + rest == done + [rest[0]] + rest[1..]
  {
    hide Held, Sorted, Removing, ChainLive;
    var roots :| Held(s, rest, roots);
    HeldFirst(s, rest, roots);
  }

  lemma SweepStep(s0: Store, areas: seq<Area>, low: Vpn, high: Vpn, lo: Vpn, hi: Vpn, s: Store, done: seq<Area>, rest: seq<Area>)
    requires Sweeping(s0, areas, low, high, lo, hi, s, done, rest) && rest != []
    requires rest[0].obj in s.objs && !(rest[0].start < lo && rest[0].end > hi)
    ensures Sweeping(s0, areas, low, high, lo, hi, CutRefs(s, rest[0], lo, hi), done + Pieces(rest[0], lo, hi), rest[1..])
  {
    var roots :| Held(s, rest, roots);
    SortedTail(rest, low, high);
    RemovingStep(s0, areas, low, high, lo, hi, s, done, rest);
    hide Removing, Held, Sorted, CutRefs;
    var left := CutHeld(s, rest, roots, lo, hi);
  }

  lemma SweepSplit(s0: Store, areas: seq<Area>, low: Vpn, high: Vpn, lo: Vpn, hi: Vpn, s: Store, done: seq<Area>, rest: seq<Area>)
    requires Sweeping(s0, areas, low, high, lo, hi, s, done, rest) && rest != []
    requires rest[0].start < lo && rest[0].end > hi && rest[0].obj in s.objs
    ensures done + Pieces(rest[0], lo, hi) + rest[1..] == Remove(areas, lo, hi)
    ensures CutRefs(s, rest[0], lo, hi) == RemoveRefs(s0, areas, lo, hi)
  {
    assert done + (Pieces(rest[0], lo, hi) + rest[1..]) == done + Pieces(rest[0], lo, hi) + rest[1..];
    SplitDropsNone(areas, low, high, lo, hi);
    assert RefAll(s0, [rest[0].obj]) == Ref(s0, rest[0].obj);
    hide Held, Sorted;
  }

  lemma SweepEnd(s0: Store, areas: seq<Area>, low: Vpn, high: Vpn, lo: Vpn, hi: Vpn, s: Store, done: seq<Area>, rest: seq<Area>)
    requires Sweeping(s0, areas, low, high, lo, hi, s, done, rest) && rest == []
    ensures lo < hi && done + rest == Remove(areas, lo, hi) && s == RemoveRefs(s0, areas, lo, hi)
  {
    hide Held, Sorted;
  }

  // ----------------------------------------------------- finding a free range

  /** The outcome of a search: a first page, none, or an assertion failure in the check of the range. */
  datatype Found = Start(v: int) | NoRange | Panic

  /** n pages from w are inside the user bounds and unmapped. */
  ghost predicate Fits(areas: seq<Area>, low: Vpn, high: Vpn, n: nat, w: Vpn) {
    low <= w && w + n <= high && RangeEmpty(areas, w, w + n)
  }

  /** Only ranges below the first i areas' last can still fit. */
  ghost predicate Below(areas: seq<Area>, low: Vpn, high: Vpn, n: nat, i: nat)
    requires i <= |areas|
  {
    forall w: Vpn :: Fits(areas, low, high, n, w) ==> i > 0 && w + n <= areas[i - 1].start
  }

  /** A range that fits just below area k can be moved up against it. */
  lemma MoveUp(areas: seq<Area>, low: Vpn, high: Vpn, n: nat, k: nat, w: Vpn)
    requires Sorted(areas, low, high) && k < |areas| && Fits(areas, low, high, n, w)
    requires w + n <= areas[k].start && (k > 0 ==> areas[k - 1].end <= w)
    ensures Fits(areas, low, high, n, areas[k].start - n)
  {
    forall j | 0 <= j < |areas| ensures !areas[j].Overlaps(areas[k].start - n, areas[k].start) {
      if j < k && k > 0 { assert areas[j].end <= areas[k - 1].end; }
    }
  }

  ghost predicate NoFit(areas: seq<Area>, low: Vpn, high: Vpn, n: nat) {
    forall w: Vpn :: !Fits(areas, low, high, n, w)
  }

  ghost predicate Highest(areas: seq<Area>, low: Vpn, high: Vpn, n: nat, v: Vpn) {
    Fits(areas, low, high, n, v) && forall w: Vpn :: Fits(areas, low, high, n, w) ==> w <= v
  }

  /** 32-bit addition and subtraction. */
  function Plus(a: int, b: int): int { (a + b) % WORD }

  function Minus(a: int, b: int): int { (a - b) % WORD }

  lemma Wrapped(a: nat, b: nat)
    requires a < WORD && b < WORD
    ensures Plus(a, b) == if a + b < WORD then a + b else a + b - WORD
    ensures Minus(a, b) == if b <= a then a - b else a - b + WORD
  {
  }

  lemma Bounds(areas: seq<Area>, low: Vpn, high: Vpn, i: nat)
    requires Sorted(areas, low, high) && i < |areas|
    ensures low <= areas[i].start < areas[i].end <= high
  {
  }

  lemma NoneBelow(areas: seq<Area>, low: Vpn, high: Vpn, n: nat, i: nat)
    requires i < |areas| && Below(areas, low, high, n, i + 1) && areas[i].start < n
    ensures NoFit(areas, low, high, n)
  {
    forall w: Vpn ensures !Fits(areas, low, high, n, w) {
      if Fits(areas, low, high, n, w) { assert false; }
    }
  }

  lemma NoneLeft(areas: seq<Area>, low: Vpn, high: Vpn, n: nat)
    requires Below(areas, low, high, n, 0)
    ensures NoFit(areas, low, high, n)
  {
  }

  lemma HighestHere(areas: seq<Area>, low: Vpn, high: Vpn, n: nat, i: nat)
    requires i < |areas| && Below(areas, low, high, n, i + 1) && low + n <= areas[i].start <= high
    requires RangeEmpty(areas, areas[i].start - n, areas[i].start)
    ensures Highest(areas, low, high, n, areas[i].start - n)
  {
    forall w: Vpn | Fits(areas, low, high, n, w) ensures w <= areas[i].start - n {
      assert w + n <= areas[i].start;
    }
  }

  lemma HighestTop(areas: seq<Area>, low: Vpn, high: Vpn, n: nat)
    requires Sorted(areas, low, high) && areas != [] && areas[|areas| - 1].end + n <= high
    ensures Highest(areas, low, high, n, high - n)
  {
    forall k | 0 <= k < |areas| ensures !areas[k].Overlaps(high - n, high) {
      assert areas[k].end <= areas[|areas| - 1].end;
    }
  }

  lemma NextGap(areas: seq<Area>, low: Vpn, high: Vpn, n: nat, i: nat)
    requires Sorted(areas, low, high) && 0 < n && i < |areas| && Below(areas, low, high, n, i + 1)
    requires areas[i].start >= n ==> !Fits(areas, low, high, n, areas[i].start - n)
    ensures Below(areas, low, high, n, i)
  {
    forall w: Vpn | Fits(areas, low, high, n, w) ensures i > 0 && w + n <= areas[i - 1].start {
      if i == 0 || areas[i - 1].end <= w {
        MoveUp(areas, low, high, n, i, w);
      } else {
        assert !areas[i - 1].Overlaps(w, w + n);
      }
    }
  }

  lemma LastGap(areas: seq<Area>, low: Vpn, high: Vpn, n: nat)
    requires Sorted(areas, low, high) && 0 < n && areas != [] && areas[|areas| - 1].end + n > high
    ensures Below(areas, low, high, n, |areas|)
  {
    forall w: Vpn | Fits(areas, low, high, n, w) ensures w + n <= areas[|areas| - 1].start {
      assert !areas[|areas| - 1].Overlaps(w, w + n);
    }
  }

  /** When the sum overflows, the start computed from the top does not fit. */
  lemma WrapNeverFits(areas: seq<Area>, low: Vpn, high: Vpn, n: nat)
    requires Sorted(areas, low, high) && areas != [] && areas[|areas| - 1].end + n >= WORD && high < WORD && n < WORD
    ensures Minus(high, n) >= 0 && !Fits(areas, low, high, n, Minus(high, n))
  {
    var last := areas[|areas| - 1];
    if n <= high {
      assert last.Overlaps(high - n, high);
    }
  }

  class Space {
    const low: Vpn
    const high: Vpn
    const table: Table
    var areas: seq<Area>
    var pt: map<Vpn, Pte>

    /** This space and its table are process p of y. */
    ghost predicate Represents(y: Sys, p: Pid)
      reads this, table
    {
      && p < |y.procs| && y.procs[p] == Proc(areas, pt)
      && y.store == table.State() && y.low == low && y.high == high
    }

    /** vmmap_create. */
    constructor (low: Vpn, high: Vpn, table: Table)
      ensures areas == [] && pt == map[] && this.low == low && this.high == high && this.table == table
    {
      this.low, this.high, this.table := low, high, table;
      areas, pt := [], map[];
    }

    /** vmmap_insert: before the first area that starts later, else at the end. */
    method Insert(a: Area)
      requires low <= a.start < a.end <= high
      modifies this`areas
      ensures areas == Vmmap.Insert(old(areas), a)
    {
      var i := 0;
      assert areas[..0] + Vmmap.Insert(areas[0..], a) == Vmmap.Insert(areas, a);
      while i < |areas|
        invariant 0 <= i <= |areas| && areas == old(areas)
        invariant areas[..i] + Vmmap.Insert(areas[i..], a) == Vmmap.Insert(areas, a)
      {
        if areas[i].start > a.start {
          areas := areas[..i] + [a] + areas[i..];
          return;
        }
        assert areas[i..][1..] == areas[i + 1..];
        assert areas[..i + 1] + Vmmap.Insert(areas[i + 1..], a) == areas[..i] + Vmmap.Insert(areas[i..], a);
        i := i + 1;
      }
      areas := areas + [a];
    }

    /** vmmap_lookup: the index of the first area that covers v. */
    method Lookup(v: Vpn) returns (r: Option<nat>)
      ensures r.None? <==> Vmmap.Lookup(areas, v).None?
      ensures r.Some? ==> r.value < |areas| && Vmmap.Lookup(areas, v) == Some(areas[r.value])
    {
      var i := 0;
      while i < |areas|
        invariant 0 <= i <= |areas|
        invariant Vmmap.Lookup(areas, v) == Vmmap.Lookup(areas[i..], v)
      {
        if areas[i].start <= v && areas[i].end > v { return Some(i); }
        assert areas[i..][1..] == areas[i + 1..];
        i := i + 1;
      }
      r := None;
    }

    /** vmmap_is_range_empty; the assertions of the source are its preconditions. */
    method IsRangeEmpty(lo: Vpn, n: nat) returns (r: bool)
      requires 0 < n && low <= lo && lo + n <= high
      ensures r == RangeEmpty(areas, lo, lo + n)
    {
      var i := 0;
      while i < |areas|
        invariant 0 <= i <= |areas|
        invariant forall k :: 0 <= k < i ==> !areas[k].Overlaps(lo, lo + n)
      {
        if !(areas[i].start >= lo + n || areas[i].end <= lo) { return false; }
        i := i + 1;
      }
      r := true;
    }

    /** vmmap_remove on the area a at i: the number of areas it leaves there, and whether the removal is over. */
    method Cut(i: nat, lo: Vpn, end: Vpn, ghost done: seq<Area>, ghost a: Area, ghost rest: seq<Area>)
      returns (left: nat, over: bool)
      requires areas == done + [a] + rest && i == |done| && lo < end && ChainLive(table.objs, a.obj)
      modifies this`areas, table
      ensures areas == done + Pieces(a, lo, end) + rest
      ensures table.State() == CutRefs(old(table.State()), a, lo, end)
      ensures left == |Pieces(a, lo, end)| && over == (a.start < lo && a.end > end)
    {
      var a := areas[i];
      over, left := false, 1;
      if a.start >= end || a.end <= lo {
      } else if a.start < lo && a.end > end {
        table.Ref(a.obj);
        areas := areas[..i] + [Left(a, lo), Right(a, end)] + areas[i + 1..];
        over, left := true, 2;
      } else if a.start < lo {
        areas := areas[i := Left(a, lo)];
      } else if a.end > end {
        areas := areas[i := Right(a, end)];
      } else {
        table.Put(a.obj);
        areas := areas[..i] + areas[i + 1..];
        left := 0;
      }
    }

    /** The loop of vmmap_remove: every area in turn, until one is split in two. */
    method Sweep(lo: Vpn, end: Vpn, ghost roots: multiset<ObjId>)
      requires lo < end && Sorted(areas, low, high) && Held(table.State(), areas, roots)
      modifies this`areas, table
      ensures areas == Vmmap.Remove(old(areas), lo, end)
      ensures table.State() == RemoveRefs(old(table.State()), old(areas), lo, end)
    {
      ghost var s0, all := table.State(), areas;
      ghost var done, rest := [], areas;
      SweepStart(s0, all, low, high, lo, end, roots);
      hide *;
      var i := 0;
      while i < |areas|
        invariant areas == done + rest && i == |done|
        invariant Sweeping(s0, all, low, high, lo, end, table.State(), done, rest)
        decreases |rest|
      {
        ghost var s := table.State();
        SweepFirst(s0, all, low, high, lo, end, s, done, rest);
        var left, over := Cut(i, lo, end, done, rest[0], rest[1..]);
        if over {
          SweepSplit(s0, all, low, high, lo, end, s, done, rest);
          return;
        }
        SweepStep(s0, all, low, high, lo, end, s, done, rest);
        done, rest, i := done + Pieces(rest[0], lo, end), rest[1..], i + left;
      }
      SweepEnd(s0, all, low, high, lo, end, table.State(), done, rest);
    }

    /** vmmap_remove. */
    method Remove(lo: Vpn, n: nat, ghost roots: multiset<ObjId>)
      requires 0 < n && low <= lo && lo + n <= high
      requires Sorted(areas, low, high) && Held(table.State(), areas, roots)
      modifies this`areas, table
      ensures areas == Vmmap.Remove(old(areas), lo, lo + n)
      ensures table.State() == RemoveRefs(old(table.State()), old(areas), lo, lo + n)
    {
      hide Held, Sorted, RemoveRefs, Vmmap.Remove, RangeEmpty, RefsTaken, RefsDropped;
      var empty := IsRangeEmpty(lo, n);
      if empty {
        NothingToRemove(table.State(), areas, lo, lo + n);
      } else {
        Sweep(lo, lo + n, roots);
      }
    }

    /** The loop of vmmap_find_range: try the range just below each area, from the last to the first. */
    method ScanDown(n: nat) returns (r: Found)
      requires 0 < n < WORD && high < WORD && Sorted(areas, low, high) && Below(areas, low, high, n, |areas|)
      ensures r.Start? ==> r.v >= 0 && Highest(areas, low, high, n, r.v)
      ensures !r.Start? ==> NoFit(areas, low, high, n)
      ensures r.Panic? <==> !r.Start? && exists k :: 0 <= k < |areas| && areas[k].start < n
    {
      var i := |areas|;
      while i > 0
        invariant 0 <= i <= |areas| && Below(areas, low, high, n, i)
        invariant forall k :: i <= k < |areas| ==> areas[k].start >= n
      {
        i := i - 1;
        Bounds(areas, low, high, i);
        Wrapped(areas[i].start, n);
        hide Sorted, Below, Minus;
        if low <= Minus(areas[i].start, n) {
          if areas[i].start < n {
            NoneBelow(areas, low, high, n, i);
            return Panic;
          }
          var empty := IsRangeEmpty(areas[i].start - n, n);
          if empty {
            HighestHere(areas, low, high, n, i);
            return Start(areas[i].start - n);
          }
        }
        NextGap(areas, low, high, n, i);
      }
      NoneLeft(areas, low, high, n);
      r := NoRange;
    }

    /**
     * vmmap_find_range downwards, in 32-bit arithmetic.  With no overflow in
     * the first test: a start is returned exactly when some range fits and
     * there is at least one area, and it is then the highest one; otherwise the
     * call panics exactly when some area starts below page n.
     */
    method FindRange(n: nat) returns (r: Found)
      requires 0 < n < WORD && high < WORD && Sorted(areas, low, high)
      ensures areas == [] ==> r == NoRange
      ensures areas != [] && areas[|areas| - 1].end + n < WORD ==>
        && (r.Start? ==> r.v >= 0 && Highest(areas, low, high, n, r.v))
        && (!r.Start? ==> NoFit(areas, low, high, n))
        && (r.Panic? <==> !r.Start? && exists k :: 0 <= k < |areas| && areas[k].start < n)
      ensures areas != [] && areas[|areas| - 1].end + n >= WORD ==>
        r.Start? && r.v >= 0 && !Fits(areas, low, high, n, r.v)
    {
      if areas == [] { return NoRange; }
      var last := areas[|areas| - 1];
      Bounds(areas, low, high, |areas| - 1);
      Wrapped(last.end, n);
      if high >= Plus(last.end, n) {
        Wrapped(high, n);
        if last.end + n < WORD {
          HighestTop(areas, low, high, n);
        } else {
          WrapNeverFits(areas, low, high, n);
        }
        return Start(Minus(high, n));
      }
      LastGap(areas, low, high, n);
      hide *;
      r := ScanDown(n);
    }
  }
}
