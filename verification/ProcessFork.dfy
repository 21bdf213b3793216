/**
 * Page faults, exit and fork of a process carried out on its area list, page
 * table and the shared object table (kernel/proc/vm/pagefault.c,
 * kernel/proc/vm/vmmap.c, kernel/proc/fork.c).
 */
module ProcessFork {
  import opened Basics
  import opened MemObjects
  import opened Vmmap
  import opened ObjectTable
  import opened VirtualMemory
  import opened VmSteps
  import opened AddressSpace
  import opened ProcessVm
  import PageTable

  // ------------------------------------------------------------ page fault

  /** What the fault handler needs to know of the area it finds. */
  lemma FaultArea(y: Sys, p: Pid, v: Vpn)
    requires SysInv(y) && p < |y.procs|
    ensures Closed(y.store.objs)
    ensures Vmmap.Lookup(y.procs[p].areas, v).Some? <==> At(y.procs[p].areas, v).Some?
    ensures Vmmap.Lookup(y.procs[p].areas, v).Some? ==>
      && var a := Vmmap.Lookup(y.procs[p].areas, v).value;
      && a.Covers(v) && At(y.procs[p].areas, v).value == Mapping(a.obj, a.PageOf(v), a.prot, a.private)
      && a.obj in y.store.objs && ChainLive(y.store.objs, a.obj)
  {
    LookupIsAt(y.procs[p].areas, v);
    if Vmmap.Lookup(y.procs[p].areas, v).Some? {
      var a := Vmmap.Lookup(y.procs[p].areas, v).value;
      assert InProc(y.procs, p, a);
      AreaRooted(y, p, a);
      InvChainLive(y.store, RootsOf(y), a.obj);
    }
    hide At, Vmmap.Lookup, Inv;
  }

  /** The frame for an access: copied up for a write, the first on the chain for a read. */
  method FrameFor(t: Table, o: ObjId, pn: PageNum, write: bool) returns (frame: Option<FrameId>)
    requires Closed(t.objs) && ChainLive(t.objs, o)
    modifies t
    ensures Got(t.State(), frame) ==
      if write then GetForWrite(old(t.State()), o, pn) else MemObjects.Lookup(old(t.State()), o, pn)
  {
    if write { frame := t.GetPageForWrite(o, pn); } else { frame := t.LookupPage(o, pn); }
  }

  /** handle_pagefault. */
  method HandleFault(sp: Space, v: Vpn, write: bool, ghost y: Sys, ghost p: Pid) returns (killed: bool)
    requires sp.Represents(y, p) && SysInv(y)
    modifies sp`pt, sp.table
    ensures killed <==> Fault(y, p, v, write).Killed?
    ensures sp.Represents(Fault(y, p, v, write).y, p)
    ensures killed <==> !Serviceable(y, p, v, write)
    ensures killed ==> sp.pt == old(sp.pt)
    ensures !killed ==>
      && v in sp.pt && sp.pt[v].write == write && PageValue(y, p, v) == Some(Content(sp.table.State(), sp.pt[v].frame))
      && forall u: Vpn :: u != v ==> SameEntry(sp.pt, old(sp.pt), u)
  {
    hide SysInv, At, Vmmap.Lookup, GetForWrite, MemObjects.Lookup, ChainLive, Closed, Serviceable, PageValue, Content;
    FaultResumes(y, p, v, write);
    FaultEntries(y, p, v, write);
    if v < sp.low || v >= sp.high { return true; }
    FaultArea(y, p, v);
    var vma := sp.Lookup(v);
    if vma.None? { return true; }
    var a := sp.areas[vma.value];
    if !a.prot.read || (write && !a.prot.write) { return true; }
    var frame := FrameFor(sp.table, a.obj, v - a.start + a.off, write);
    if frame.None? { return true; }
    sp.pt := sp.pt[v := Pte(frame.value, write)];
    killed := false;
  }

  // ------------------------------------------------------------------ exit

  /** vmmap_destroy: every area's reference is released, in order. */
  method Destroy(sp: Space, ghost y: Sys, ghost p: Pid)
    requires sp.Represents(y, p) && SysInv(y)
    modifies sp, sp.table
    ensures sp.Represents(Exit(y, p), p)
  {
    SpaceHeld(y, p);
    ghost var roots := RootsOf(y);
    ghost var s0, all := sp.table.State(), sp.areas;
    hide SysInv, Held, Sorted, PutAll, ObjSeq, RootsOf;
    while sp.areas != []
      invariant Held(sp.table.State(), sp.areas, roots)
      invariant PutAll(sp.table.State(), ObjSeq(sp.areas)) == PutAll(s0, ObjSeq(all))
      decreases |sp.areas|
    {
      var a := sp.areas[0];
      HeldFirst(sp.table.State(), sp.areas, roots);
      PutFirst(sp.table.State(), sp.areas);
      sp.table.Put(a.obj);
      roots := roots - multiset{a.obj};
      sp.areas := sp.areas[1..];
    }
    NoneToPut(sp.table.State());
    sp.pt := map[];
  }

  lemma PutFirst(s: Store, areas: seq<Area>)
    requires areas != [] && areas[0].obj in s.objs
    ensures PutAll(Put(s, areas[0].obj), ObjSeq(areas[1..])) == PutAll(s, ObjSeq(areas))
  {
    assert ObjSeq(areas) == [areas[0].obj] + ObjSeq(areas[1..]);
    hide Put;
  }

  lemma NoneToPut(s: Store)
    ensures PutAll(s, ObjSeq([])) == s
  {
  }

  // ------------------------------------------------------------------ fork

  /** vmmap_clone: every area again, with a reference of its own to the same object. */
  method Clone(sp: Space) returns (child: Space)
    requires Sorted(sp.areas, sp.low, sp.high) && forall a :: a in sp.areas ==> a.obj in sp.table.objs
    modifies sp.table
    ensures fresh(child) && child.table == sp.table && child.low == sp.low && child.high == sp.high
    ensures child.areas == sp.areas && child.pt == map[]
    ensures sp.table.State() == RefAll(old(sp.table.State()), ObjSeq(sp.areas))
  {
    hide RefAll, ObjSeq, Sorted, Vmmap.Insert, MemObjects.Ref;
    child := new Space(sp.low, sp.high, sp.table);
    ghost var s0 := sp.table.State();
    var i := 0;
    assert sp.areas[0..] == sp.areas;
    while i < |sp.areas|
      invariant 0 <= i <= |sp.areas| && child.areas == sp.areas[..i] && child.pt == map[]
      invariant RefAll(sp.table.State(), ObjSeq(sp.areas[i..])) == RefAll(s0, ObjSeq(sp.areas))
      invariant sp.table.objs.Keys == s0.objs.Keys
    {
      var a := sp.areas[i];
      assert a in sp.areas;
      RefFirst(sp.table.State(), sp.areas[i..]);
      assert sp.areas[i..][1..] == sp.areas[i + 1..];
      sp.table.Ref(a.obj);
      CloneLast(sp.areas, sp.low, sp.high, i);
      child.Insert(a);
      i := i + 1;
    }
    NoneToRef(sp.table.State(), sp.areas[i..]);
  }

  lemma NoneToRef(s: Store, areas: seq<Area>)
    requires areas == []
    ensures RefAll(s, ObjSeq(areas)) == s
  {
  }

  lemma RefFirst(s: Store, areas: seq<Area>)
    requires areas != [] && areas[0].obj in s.objs
    ensures RefAll(Ref(s, areas[0].obj), ObjSeq(areas[1..])) == RefAll(s, ObjSeq(areas))
    ensures Ref(s, areas[0].obj).objs.Keys == s.objs.Keys
  {
    assert ObjSeq(areas) == [areas[0].obj] + ObjSeq(areas[1..]);
  }

  /** In a sorted list the next area goes to the end. */
  lemma CloneLast(areas: seq<Area>, low: Vpn, high: Vpn, i: nat)
    requires Sorted(areas, low, high) && i < |areas|
    ensures AreaOk(areas[i], low, high)
    ensures Insert(areas[..i], areas[i]) == areas[..i + 1]
  {
    forall k | 0 <= k < |areas[..i]| ensures areas[..i][k].start <= areas[i].start {
      assert areas[k].end <= areas[i].start;
      assert AreaOk(areas[k], low, high);
    }
    InsertLast(areas[..i], areas[i]);
    assert areas[..i] + [areas[i]] == areas[..i + 1];
  }

  /** Two area lists cover the same pages, area by area. */
  ghost predicate SameRanges(a: seq<Area>, b: seq<Area>) {
    |a| == |b| && forall k :: 0 <= k < |a| ==> a[k].start == b[k].start && a[k].end == b[k].end
  }

  /** Looking up the start of the i-th area finds the i-th area. */
  lemma LookupOwn(all: seq<Area>, low: Vpn, high: Vpn, cur: seq<Area>, i: nat, k: nat)
    requires Sorted(all, low, high) && SameRanges(all, cur) && i < |all| && k < |cur|
    ensures Vmmap.Lookup(cur, all[i].start) == Some(cur[i])
    ensures Vmmap.Lookup(cur, all[i].start) == Some(cur[k]) ==> k == i
  {
    forall k | 0 <= k < |cur| ensures AreaOk(cur[k], low, high) { assert AreaOk(all[k], low, high); }
    forall j, k | 0 <= j < k < |cur| ensures cur[j].end <= cur[k].start { assert all[j].end <= all[k].start; }
    AtIndex(cur, low, high, i, all[i].start);
  }

  /** The fork loop: what is left to do gives what the whole loop gives. */
  ghost predicate Forking(s0: Store, all: seq<Area>, s: Store, parent: seq<Area>, child: seq<Area>, rest: seq<Area>) {
    var f := ForkLoop(s, rest);
    ForkLoop(s0, all) == Forked(f.s, parent + f.parent, child + f.child)
  }

  lemma ForkingStart(s: Store, all: seq<Area>)
    ensures Forking(s, all, s, [], [], all)
  {
    var f := ForkLoop(s, all);
    assert [] + f.parent == f.parent && [] + f.child == f.child;
  }

  lemma ForkingStep(s0: Store, all: seq<Area>, s: Store, parent: seq<Area>, child: seq<Area>, rest: seq<Area>)
    requires Forking(s0, all, s, parent, child, rest) && rest != []
    ensures Forking(s0, all, ForkOne(s, rest[0]), parent + [ParentArea(s, rest[0])], child + [ChildArea(s, rest[0])], rest[1..])
  {
    var f := ForkLoop(ForkOne(s, rest[0]), rest[1..]);
    var p, c := ParentArea(s, rest[0]), ChildArea(s, rest[0]);
    assert ForkLoop(s, rest) == Forked(f.s, [p] + f.parent, [c] + f.child);
    hide ForkLoop;
    assert parent + ([p] + f.parent) == parent + [p] + f.parent;
    assert child + ([c] + f.child) == child + [c] + f.child;
  }

  lemma ForkingEnd(s0: Store, all: seq<Area>, s: Store, parent: seq<Area>, child: seq<Area>)
    requires Forking(s0, all, s, parent, child, [])
    ensures ForkLoop(s0, all) == Forked(s, parent, child)
  {
    assert parent + [] == parent && child + [] == child;
  }

  /** The body of fork's loop for the i-th area. */
  method ForkArea(sp: Space, child: Space, i: nat)
    requires sp != child && sp.table == child.table && i < |sp.areas|
    requires Sorted(sp.areas, sp.low, sp.high) && SameRanges(sp.areas, child.areas) && child.areas[i] == sp.areas[i]
    modifies sp`areas, child`areas, sp.table
    ensures sp.table.State() == ForkOne(old(sp.table.State()), old(sp.areas[i]))
    ensures sp.areas == old(sp.areas)[i := ParentArea(old(sp.table.State()), old(sp.areas[i]))]
    ensures child.areas == old(child.areas)[i := ChildArea(old(sp.table.State()), old(sp.areas[i]))]
  {
    var a := sp.areas[i];
    var k := child.Lookup(a.start);
    LookupOwn(sp.areas, sp.low, sp.high, child.areas, i, if k.Some? then k.value else i);
    if a.private {
      var c := sp.table.ShadowCreate(a.obj);
      child.areas := child.areas[k.value := Retarget(a, c)];
      var q := sp.table.ShadowCreate(a.obj);
      sp.areas := sp.areas[i := Retarget(a, q)];
    }
  }

  lemma RangesUpdate(a: seq<Area>, b: seq<Area>, i: nat, x: Area, z: Area, low: Vpn, high: Vpn)
    requires SameRanges(a, b) && Sorted(a, low, high) && i < |a|
    requires x.start == z.start == a[i].start && x.end == z.end == a[i].end
    ensures SameRanges(a[i := x], b[i := z]) && Sorted(a[i := x], low, high)
  {
    var a1 := a[i := x];
    forall k | 0 <= k < |a1| ensures AreaOk(a1[k], low, high) { assert AreaOk(a[k], low, high); }
    forall j, k | 0 <= j < k < |a1| ensures a1[j].end <= a1[k].start { assert a[j].end <= a[k].start; }
  }

  lemma Ranges(s: Store, a: Area)
    ensures ParentArea(s, a).start == ChildArea(s, a).start == a.start
    ensures ParentArea(s, a).end == ChildArea(s, a).end == a.end
  {
  }

  lemma SpliceAt<T>(done: seq<T>, rest: seq<T>, x: T)
    requires rest != []
    ensures (done + rest)[|done| := x] == done + [x] + rest[1..]
  {
  }

  /** The loop of do_fork's step 3, over an area list and its clone. */
  method ForkAreas(sp: Space, child: Space)
    requires sp != child && sp.table == child.table && Sorted(sp.areas, sp.low, sp.high) && child.areas == sp.areas
    modifies sp`areas, child`areas, sp.table
    ensures Forked(sp.table.State(), sp.areas, child.areas) == ForkLoop(old(sp.table.State()), old(sp.areas))
  {
    ghost var s0, all := sp.table.State(), sp.areas;
    ghost var pdone, cdone, rest := [], [], all;
    ForkingStart(s0, all);
    hide Sorted, ForkLoop, ForkOne, Retarget, Forking;
    assert [] + all == all;
    var i := 0;
    while i < |sp.areas|
      invariant i == |pdone| == |cdone| && sp.areas == pdone + rest && child.areas == cdone + rest
      invariant Forking(s0, all, sp.table.State(), pdone, cdone, rest)
      invariant Sorted(sp.areas, sp.low, sp.high) && SameRanges(sp.areas, child.areas)
      decreases |rest|
    {
      ghost var s, a := sp.table.State(), rest[0];
      ForkingStep(s0, all, s, pdone, cdone, rest);
      Ranges(s, a);
      RangesUpdate(sp.areas, child.areas, i, ParentArea(s, a), ChildArea(s, a), sp.low, sp.high);
      SpliceAt(pdone, rest, ParentArea(s, a));
      SpliceAt(cdone, rest, ChildArea(s, a));
      hide SameRanges;
      ForkArea(sp, child, i);
      pdone, cdone, rest := pdone + [ParentArea(s, a)], cdone + [ChildArea(s, a)], rest[1..];
      i := i + 1;
    }
    assert rest == [] && pdone + [] == pdone && cdone + [] == cdone;
    ForkingEnd(s0, all, sp.table.State(), pdone, cdone);
  }

  /** Every page-table entry lies inside the user range, so flushing that range empties the table. */
  lemma FlushAll(y: Sys, p: Pid)
    requires SysInv(y) && p < |y.procs| && y.low < y.high
    ensures PageTable.Flush(y.procs[p].pt, y.low, y.high) == map[]
  {
    var pt := y.procs[p].pt;
    forall v | v in pt ensures PageTable.Cleared(v, y.low, y.high) {
      assert PteOk(y, p, v);
      var i := AtSome(y.procs[p].areas, v);
      Bounds(y.procs[p].areas, y.low, y.high, i);
    }
    assert PageTable.Flush(pt, y.low, y.high).Keys == {};
  }

  lemma AreasExist(y: Sys, p: Pid)
    requires SysInv(y) && p < |y.procs|
    ensures forall a :: a in y.procs[p].areas ==> a.obj in y.store.objs
  {
    forall a | a in y.procs[p].areas ensures a.obj in y.store.objs {
      assert InProc(y.procs, p, a);
      AreaRooted(y, p, a);
    }
  }

  /** do_fork, steps 2 to 4: the child is a new process after the others. */
  method Fork(sp: Space, ghost y: Sys, ghost p: Pid) returns (child: Space)
    requires sp.Represents(y, p) && SysInv(y) && sp.low < sp.high
    modifies sp, sp.table
    ensures fresh(child) && child.table == sp.table
    ensures sp.Represents(VirtualMemory.Fork(y, p), p) && child.Represents(VirtualMemory.Fork(y, p), |y.procs|)
  {
    hide SysInv, Held, Sorted, ForkLoop, PageTable.Flush;
    SpaceHeld(y, p);
    AreasExist(y, p);
    FlushAll(y, p);
    child := Clone(sp);
    ForkAreas(sp, child);
    sp.pt := PageTable.Flush(sp.pt, sp.low, sp.high);
  }
}
