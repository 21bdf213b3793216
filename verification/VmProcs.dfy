/** Fork, exit and collapse as steps of the virtual-memory system. */
module VmProcs {
  import opened Basics
  import opened MemObjects
  import opened ObjectRefs
  import opened ObjectPages
  import opened Vmmap
  import opened VirtualMemory
  import opened VmSteps
  import opened VmMapping
  import opened VmFork
  import ShadowCollapse

  // ------------------------------------------------------------------- exit

  lemma {:induction false} ObjSeqCount(areas: seq<Area>, o: ObjId)
    ensures multiset(ObjSeq(areas))[o] == Count(areas, o)
  {
    if areas != [] { ObjSeqCount(areas[1..], o); }
  }

  lemma ObjSeqBag(areas: seq<Area>)
    ensures multiset(ObjSeq(areas)) == ObjsOf(areas)
  {
    forall o: ObjId ensures multiset(ObjSeq(areas))[o] == ObjsOf(areas)[o] {
      ObjSeqCount(areas, o);
      CountIs(areas, o);
    }
    hide *;
  }

  lemma ExitRoots(y: Sys, p: Pid)
    requires p < |y.procs|
    ensures ObjsOf(y.procs[p].areas) <= RootsOf(y)
    ensures RootsOf(Exit(y, p)) == RootsOf(y) - ObjsOf(y.procs[p].areas)
  {
    forall o: ObjId
      ensures ObjsOf(y.procs[p].areas)[o] <= RootsOf(y)[o]
      ensures RootsOf(Exit(y, p))[o] == RootsOf(y)[o] - ObjsOf(y.procs[p].areas)[o]
    {
      SetProcRoots(y, Exit(y, p).store, p, Proc([], map[]), o);
      CountIs(y.procs[p].areas, o);
      assert Count([], o) == 0;
      hide RootsOf, PutAll, Count, ObjsOf;
    }
    hide *;
  }

  lemma ExitStore(y: Sys, p: Pid)
    requires Inv(y.store, RootsOf(y)) && p < |y.procs|
    ensures Inv(Exit(y, p).store, RootsOf(Exit(y, p)))
    ensures SubObjs(Exit(y, p).store.objs, y.store.objs) && SubMem(Exit(y, p).store, y.store)
  {
    var os := ObjSeq(y.procs[p].areas);
    ObjSeqBag(y.procs[p].areas);
    ExitRoots(y, p);
    hide Inv, SubObjs, SubMem, RootsOf, ObjsOf, ObjSeq;
    PutAllInv(y.store, RootsOf(y), os);
    PutAllShrinks(y.store, os);
  }

  /** A surviving process loses nothing when another exits. */
  lemma ExitKeeps(y: Sys, p: Pid, q: Pid, a: Area, pn: PageNum)
    requires Inv(y.store, RootsOf(y)) && p < |y.procs| && InProc(Exit(y, p).procs, q, a)
    ensures q != p && InProc(y.procs, q, a)
    ensures KeepsTop(y.store, Exit(y, p).store, a.obj) && KeepsPage(y.store, Exit(y, p).store, a.obj, pn)
  {
    ExitStore(y, p);
    AreaRooted(Exit(y, p), q, a);
    SubKeeps(y.store, Exit(y, p).store, a.obj, pn);
    hide Inv, KeepsTop, KeepsPage;
  }

  lemma ExitInv(y: Sys, p: Pid)
    requires SysInv(y) && p < |y.procs|
    ensures SysInv(Exit(y, p))
  {
    hide Inv, TopOk, PteOk, AllApart, AllSorted, PutAll, ObjSeq, RootsOf;
    var y1 := Exit(y, p);
    ExitStore(y, p);
    forall q: Pid, a: Area | InProc(y1.procs, q, a) ensures TopOk(y1, a) {
      ExitTopAt(y, p, q, a);
    }
    forall q: Pid, u: Vpn | q < |y1.procs| && u in y1.procs[q].pt ensures PteOk(y1, q, u) {
      ExitCoherentAt(y, p, q, u);
    }
    ExitTables(y, p);
  }

  lemma ExitTables(y: Sys, p: Pid)
    requires AllApart(y.procs) && AllSorted(y) && p < |y.procs|
    ensures AllApart(Exit(y, p).procs) && AllSorted(Exit(y, p))
  {
    hide PutAll, ObjSeq;
  }

  lemma ExitTopAt(y: Sys, p: Pid, q: Pid, a: Area)
    requires SysInv(y) && p < |y.procs| && InProc(Exit(y, p).procs, q, a)
    ensures TopOk(Exit(y, p), a)
  {
    hide Inv, PutAll, ObjSeq, RootsOf;
    assert InProc(y.procs, q, a);
    ExitKeeps(y, p, q, a, 0);
    assert TopOk(y, a);
  }

  lemma ExitCoherentAt(y: Sys, p: Pid, q: Pid, u: Vpn)
    requires SysInv(y) && p < |y.procs| && q < |y.procs| && u in Exit(y, p).procs[q].pt
    ensures PteOk(Exit(y, p), q, u)
  {
    var y1 := Exit(y, p);
    assert q != p && PteOk(y, q, u);
    var i := AtSome(y1.procs[q].areas, u);
    ExitKeeps(y, p, q, y1.procs[q].areas[i], MapAt(y, q, u).value.pn);
    PteStill(y, y1, q, u);
    hide *;
  }

  /** An exit removes the cells of the process and changes no other cell. */
  lemma ExitCells(y: Sys, p: Pid, q: Pid, u: Vpn)
    requires SysInv(y) && p < |y.procs|
    ensures PageCell(Exit(y, p), q, u) == if q == p then None else PageCell(y, q, u)
  {
    var y1 := Exit(y, p);
    if q != p && MapAt(y, q, u).Some? {
      var i := AtSome(y1.procs[q].areas, u);
      ExitKeeps(y, p, q, y1.procs[q].areas[i], MapAt(y, q, u).value.pn);
    }
    hide Inv;
  }

  // --------------------------------------------------------------- collapse

  lemma CollapseStore(y: Sys, p: Pid, a: Area, x: ObjId, pn: PageNum)
    requires SysInv(y) && InProc(y.procs, p, a) && x in RootsOf(y)
    ensures Inv(CollapseBelow(y, a.obj).store, RootsOf(y))
    ensures KeepsTop(y.store, CollapseBelow(y, a.obj).store, x)
    ensures KeepsPage(y.store, CollapseBelow(y, a.obj).store, x, pn)
  {
    AreaRooted(y, p, a);
    var s, o := y.store, a.obj;
    if IsShadow(s.objs, o) {
      var below := s.objs[o].kind.shadowed;
      ShadowCollapse.WalkCorrect(s, RootsOf(y), o, below);
      var s1 := ShadowCollapse.Walk(s, o, below);
      RootsExist(s1, RootsOf(y), x);
      ShadowCollapse.WalkResident(s, RootsOf(y), o, below, x, pn);
      assert SameAt(s, s1, x, pn);
    } else {
      RootsExist(s, RootsOf(y), x);
    }
    hide Inv, Above, ShadowCollapse.Walk;
  }

  lemma CollapseInv(y: Sys, p: Pid, a: Area)
    requires SysInv(y) && InProc(y.procs, p, a)
    ensures SysInv(CollapseBelow(y, a.obj))
  {
    var y1 := CollapseBelow(y, a.obj);
    AreaRooted(y, p, a);
    CollapseStore(y, p, a, a.obj, 0);
    forall q: Pid, b: Area | InProc(y1.procs, q, b) ensures TopOk(y1, b) {
      AreaRooted(y, q, b);
      CollapseStore(y, p, a, b.obj, 0);
      assert TopOk(y, b);
    }
    forall q: Pid, u: Vpn | q < |y1.procs| && u in y1.procs[q].pt ensures PteOk(y1, q, u) {
      CollapseCoherentAt(y, p, a, q, u);
    }
    assert AllSorted(y1);
    hide Inv, TopOk, PteOk, AllApart, AllSorted;
  }

  lemma CollapseCoherentAt(y: Sys, p: Pid, a: Area, q: Pid, u: Vpn)
    requires SysInv(y) && InProc(y.procs, p, a) && q < |y.procs| && u in y.procs[q].pt
    ensures PteOk(CollapseBelow(y, a.obj), q, u)
  {
    assert PteOk(y, q, u);
    var b := MapArea(y, q, u);
    AreaRooted(y, q, b);
    CollapseStore(y, p, a, b.obj, b.PageOf(u));
    PteStill(y, CollapseBelow(y, a.obj), q, u);
    hide *;
  }

  /** A collapse changes no cell of any process. */
  lemma CollapseCells(y: Sys, p: Pid, a: Area, q: Pid, u: Vpn)
    requires SysInv(y) && InProc(y.procs, p, a)
    ensures PageCell(CollapseBelow(y, a.obj), q, u) == PageCell(y, q, u)
  {
    if MapAt(y, q, u).Some? {
      var b := MapArea(y, q, u);
      AreaRooted(y, q, b);
      CollapseStore(y, p, a, b.obj, b.PageOf(u));
    }
    hide Inv;
  }

  // ------------------------------------------------------------------- fork

  lemma {:induction false} ObjSeqBacked(objs: Objs, areas: seq<Area>)
    requires Backed(objs, areas)
    ensures forall o :: o in ObjSeq(areas) ==> o in objs
  {
    if areas != [] {
      assert Backed(objs, areas[1..]);
      ObjSeqBacked(objs, areas[1..]);
    }
  }

  lemma AreasBacked(y: Sys, p: Pid)
    requires Inv(y.store, RootsOf(y)) && p < |y.procs|
    ensures Backed(y.store.objs, y.procs[p].areas)
  {
    forall i | 0 <= i < |y.procs[p].areas| ensures y.procs[p].areas[i].obj in y.store.objs {
      AreaRooted(y, p, y.procs[p].areas[i]);
    }
    hide Inv;
  }

  lemma InvParts(s: Store, roots: multiset<ObjId>)
    requires Inv(s, roots)
    ensures Fresh(s) && Closed(s.objs) && FramesOk(s)
  {
  }

  /** The cloned store: one more reference for each area, everything else as it was. */
  lemma CloneOk(y: Sys, p: Pid)
    requires Inv(y.store, RootsOf(y)) && p < |y.procs|
    ensures Inv(CloneStore(y, p), RootsOf(y) + ObjsOf(y.procs[p].areas))
    ensures Fresh(CloneStore(y, p)) && Closed(CloneStore(y, p).objs) && FramesOk(CloneStore(y, p))
    ensures Backed(CloneStore(y, p).objs, y.procs[p].areas)
    ensures SubObjs(CloneStore(y, p).objs, y.store.objs) && SubObjs(y.store.objs, CloneStore(y, p).objs)
    ensures CloneStore(y, p).mem == y.store.mem && CloneStore(y, p).nextObj == y.store.nextObj
  {
    var areas := y.procs[p].areas;
    var s0 := CloneStore(y, p);
    AreasBacked(y, p);
    ObjSeqBacked(y.store.objs, areas);
    ObjSeqBag(areas);
    RefAllInv(y.store, RootsOf(y), ObjSeq(areas));
    RefAllShape(y.store, ObjSeq(areas));
    InvParts(s0, RootsOf(y) + ObjsOf(areas));
    assert Backed(s0.objs, areas);
    hide Inv, Fresh, Closed, FramesOk, Backed, SubObjs, ObjSeq;
  }

  /** The store after fork, seen from the store before. */
  lemma ForkStoreShape(y: Sys, p: Pid)
    requires Inv(y.store, RootsOf(y)) && p < |y.procs|
    ensures SubObjs(y.store.objs, ForkOf(y, p).s.objs) && ForkOf(y, p).s.mem == y.store.mem
    ensures |ForkOf(y, p).parent| == |y.procs[p].areas| && |ForkOf(y, p).child| == |y.procs[p].areas|
  {
    CloneOk(y, p);
    ForkShape(CloneStore(y, p), y.procs[p].areas);
    SubObjsTrans(y.store.objs, CloneStore(y, p).objs, ForkOf(y, p).s.objs);
    hide Inv, SubObjs, Closed, FramesOk, Fresh, Backed, CloneStore, ForkLoop;
  }

  lemma ForkRoots(y: Sys, p: Pid)
    requires p < |y.procs|
    ensures ObjsOf(y.procs[p].areas) <= RootsOf(y)
    ensures RootsOf(Fork(y, p)) ==
      RootsOf(y) - ObjsOf(y.procs[p].areas) + ObjsOf(ForkOf(y, p).parent) + ObjsOf(ForkOf(y, p).child)
  {
    forall o: ObjId
      ensures ObjsOf(y.procs[p].areas)[o] <= RootsOf(y)[o]
      ensures RootsOf(Fork(y, p))[o] == RootsOf(y)[o] - ObjsOf(y.procs[p].areas)[o]
        + ObjsOf(ForkOf(y, p).parent)[o] + ObjsOf(ForkOf(y, p).child)[o]
    {
      ForkRootCount(y, p, o);
    }
    hide *;
  }

  lemma ForkRootCount(y: Sys, p: Pid, o: ObjId)
    requires p < |y.procs|
    ensures ObjsOf(y.procs[p].areas)[o] <= RootsOf(y)[o]
    ensures RootsOf(Fork(y, p))[o] == RootsOf(y)[o] - ObjsOf(y.procs[p].areas)[o]
      + ObjsOf(ForkOf(y, p).parent)[o] + ObjsOf(ForkOf(y, p).child)[o]
  {
    var f := ForkOf(y, p);
    var pr := Proc(f.parent, map[]);
    var ch := Proc(f.child, map[]);
    SetProcRoots(y, y.store, p, pr, o);
    RootAppend(y.procs[p := pr], ch, o);
    RootsCount(y.procs[p := pr], o);
    RootsCount(y.procs[p := pr] + [ch], o);
    CountIs(y.procs[p].areas, o);
    CountIs(f.parent, o);
    CountIs(f.child, o);
    hide RootCount, Count, ObjsOf, Roots, ForkLoop, CloneStore;
  }

  lemma ForkStore(y: Sys, p: Pid)
    requires Inv(y.store, RootsOf(y)) && p < |y.procs|
    ensures Inv(Fork(y, p).store, RootsOf(Fork(y, p)))
  {
    var areas := y.procs[p].areas;
    CloneOk(y, p);
    ForkRoots(y, p);
    hide Inv, ObjsOf, RootsOf, CloneStore;
    var base := RootsOf(y) - ObjsOf(areas);
    assert base + ObjsOf(areas) == RootsOf(y);
    ForkLoopInv(CloneStore(y, p), base, areas);
  }

  /** twins has the areas of the forked process, with new objects for the private ones. */
  ghost predicate Twins(twins: seq<Area>, areas: seq<Area>, lo: nat, hi: nat) {
    |twins| == |areas| && forall i :: 0 <= i < |areas| ==> TwinOf(twins[i], areas[i], lo, hi)
  }

  lemma ForkIsTwins(y: Sys, p: Pid)
    requires Inv(y.store, RootsOf(y)) && p < |y.procs|
    ensures Twins(ForkOf(y, p).parent, y.procs[p].areas, y.store.nextObj, ForkOf(y, p).s.nextObj)
    ensures Twins(ForkOf(y, p).child, y.procs[p].areas, y.store.nextObj, ForkOf(y, p).s.nextObj)
  {
    CloneOk(y, p);
    ForkStoreShape(y, p);
    hide Inv, SubObjs, Closed, FramesOk, Fresh, Backed, CloneStore, ForkLoop, TwinOf;
    forall i: nat | i < |y.procs[p].areas|
      ensures TwinOf(ForkOf(y, p).parent[i], y.procs[p].areas[i], y.store.nextObj, ForkOf(y, p).s.nextObj)
      ensures TwinOf(ForkOf(y, p).child[i], y.procs[p].areas[i], y.store.nextObj, ForkOf(y, p).s.nextObj)
    {
      ForkTwins(CloneStore(y, p), y.procs[p].areas, i);
    }
  }

  /** No two new areas share an object. */
  lemma TwinsDistinct(s: Store, areas: seq<Area>, i: nat, j: nat)
    requires Fresh(s) && Closed(s.objs) && FramesOk(s) && Backed(s.objs, areas) && i < |areas| && j < |areas|
    requires areas[i].private && areas[j].private
    ensures i < |ForkLoop(s, areas).parent| && j < |ForkLoop(s, areas).parent|
    ensures i < |ForkLoop(s, areas).child| && j < |ForkLoop(s, areas).child|
    ensures ForkLoop(s, areas).parent[i].obj != ForkLoop(s, areas).child[j].obj
    ensures i != j ==> ForkLoop(s, areas).parent[i].obj != ForkLoop(s, areas).parent[j].obj
    ensures i != j ==> ForkLoop(s, areas).child[i].obj != ForkLoop(s, areas).child[j].obj
  {
    hide Closed, FramesOk, Fresh, Backed, ForkLoop;
    ForkTwins(s, areas, i);
    ForkTwins(s, areas, j);
    if i < j { ForkOrder(s, areas, i, j); } else if j < i { ForkOrder(s, areas, j, i); }
  }

  lemma {:induction false} TwinsSorted(twins: seq<Area>, areas: seq<Area>, lo: nat, hi: nat, low: Vpn, high: Vpn)
    requires Twins(twins, areas, lo, hi) && Sorted(areas, low, high)
    ensures Sorted(twins, low, high)
  {
    forall i | 0 <= i < |twins| ensures AreaOk(twins[i], low, high) {
      assert TwinOf(twins[i], areas[i], lo, hi) && AreaOk(areas[i], low, high);
    }
    forall i, j | 0 <= i < j < |twins| ensures twins[i].end <= twins[j].start {
      assert TwinOf(twins[i], areas[i], lo, hi) && TwinOf(twins[j], areas[j], lo, hi);
    }
  }

  /** A twin address space maps the same pages, to the twins' objects. */
  lemma TwinsAt(twins: seq<Area>, areas: seq<Area>, lo: nat, hi: nat, low: Vpn, high: Vpn, v: Vpn) returns (i: nat)
    requires Twins(twins, areas, lo, hi) && Sorted(areas, low, high)
    ensures At(twins, v).Some? <==> At(areas, v).Some?
    ensures At(areas, v).Some? ==>
      && i < |areas| && i < |twins| && areas[i].Covers(v)
      && At(areas, v) == Some(Mapping(areas[i].obj, areas[i].PageOf(v), areas[i].prot, areas[i].private))
      && At(twins, v) == Some(Mapping(twins[i].obj, areas[i].PageOf(v), areas[i].prot, areas[i].private))
  {
    i := 0;
    TwinsSorted(twins, areas, lo, hi, low, high);
    if At(areas, v).Some? {
      i := AtSome(areas, v);
      assert TwinOf(twins[i], areas[i], lo, hi);
      AtIndex(twins, low, high, i, v);
    } else if At(twins, v).Some? {
      var k := AtSome(twins, v);
      assert TwinOf(twins[k], areas[k], lo, hi);
      AtIndex(areas, low, high, k, v);
    }
  }

  /** An area after the fork: a bystander's, or the twin of one of the forked process. */
  lemma ForkArea(y: Sys, p: Pid, q: Pid, a: Area) returns (i: nat)
    requires Inv(y.store, RootsOf(y)) && p < |y.procs| && InProc(Fork(y, p).procs, q, a)
    ensures q != p && q != |y.procs| ==> InProc(y.procs, q, a)
    ensures q == p || q == |y.procs| ==>
      && i < |y.procs[p].areas| && i < |ForkOf(y, p).parent| && i < |ForkOf(y, p).child|
      && a == (if q == p then ForkOf(y, p).parent else ForkOf(y, p).child)[i]
      && TwinOf(a, y.procs[p].areas[i], y.store.nextObj, ForkOf(y, p).s.nextObj)
  {
    i := 0;
    ForkIsTwins(y, p);
    hide Inv, ForkLoop, CloneStore, TwinOf;
    var f := ForkOf(y, p);
    if q == p {
      i :| 0 <= i < |f.parent| && f.parent[i] == a;
    } else if q == |y.procs| {
      i :| 0 <= i < |f.child| && f.child[i] == a;
    }
  }

  /** Fork's loop puts nothing above an object that no private area of the forked process has. */
  lemma ForkNotAbove(y: Sys, p: Pid, x: ObjId)
    requires Inv(y.store, RootsOf(y)) && p < |y.procs| && Above(y.store.objs, x) == {}
    requires forall i :: 0 <= i < |y.procs[p].areas| && y.procs[p].areas[i].private ==> y.procs[p].areas[i].obj != x
    ensures Above(ForkOf(y, p).s.objs, x) == {}
  {
    CloneOk(y, p);
    ForkAbove(CloneStore(y, p), y.procs[p].areas, x);
    SameLinksAbove(CloneStore(y, p).objs, y.store.objs, x);
    hide Inv, CloneStore, ForkLoop, Backed, SubObjs;
  }

  /** An object mapped shared, or privately by another process, is none of the forked private objects. */
  lemma OthersPrivate(y: Sys, p: Pid, q: Pid, a: Area, i: nat)
    requires SysInv(y) && p < |y.procs| && InProc(y.procs, q, a) && (q != p || !a.private)
    requires i < |y.procs[p].areas| && y.procs[p].areas[i].private
    ensures y.procs[p].areas[i].obj != a.obj
  {
    var b := y.procs[p].areas[i];
    assert InProc(y.procs, p, b);
    assert Apart(p, b, q, a) && TopOk(y, a) && TopOk(y, b);
  }

  /** A bystander's area, or a shared area of the forked process, keeps its place. */
  lemma ForkOldTop(y: Sys, p: Pid, q: Pid, a: Area)
    requires SysInv(y) && p < |y.procs| && InProc(y.procs, q, a) && (q != p || !a.private)
    ensures TopOk(Fork(y, p), a)
  {
    assert TopOk(y, a);
    ForkStoreShape(y, p);
    if !y.store.objs[a.obj].kind.File? {
      forall i: nat | i < |y.procs[p].areas| && y.procs[p].areas[i].private
        ensures y.procs[p].areas[i].obj != a.obj
      {
        OthersPrivate(y, p, q, a, i);
      }
      ForkNotAbove(y, p, a.obj);
    }
    hide Inv, CloneStore, ForkLoop, Above, AllApart, TopsOk, Coherent, AllSorted;
  }

  lemma SameLinksAbove(objs1: Objs, objs: Objs, x: ObjId)
    requires SubObjs(objs1, objs)
    ensures Above(objs, x) == {} ==> Above(objs1, x) == {}
  {
    forall z | z in Above(objs1, x) ensures z in Above(objs, x) { }
  }

  lemma ForkTwinTop(y: Sys, p: Pid, q: Pid, a: Area)
    requires SysInv(y) && p < |y.procs| && InProc(Fork(y, p).procs, q, a) && (q == p || q == |y.procs|)
    ensures TopOk(Fork(y, p), a)
  {
    var i := ForkArea(y, p, q, a);
    var areas := y.procs[p].areas;
    assert InProc(y.procs, p, areas[i]);
    hide Inv, CloneStore, ForkLoop, Backed, CellOf, Above, AllApart, TopsOk, Coherent, AllSorted;
    if areas[i].private {
      CloneOk(y, p);
      ForkCells(CloneStore(y, p), areas, i, 0);
      TwinAbove(y, p, a.obj);
    } else {
      ForkOldTop(y, p, p, areas[i]);
    }
  }

  /** A new object is a top object and unknown to the file system. */
  lemma TwinAbove(y: Sys, p: Pid, x: ObjId)
    requires Inv(y.store, RootsOf(y)) && p < |y.procs| && x >= y.store.nextObj
    ensures Above(ForkOf(y, p).s.objs, x) == {} && x !in y.fs
  {
    CloneOk(y, p);
    var s0 := CloneStore(y, p);
    forall i | 0 <= i < |y.procs[p].areas| ensures y.procs[p].areas[i].obj != x {
      assert y.procs[p].areas[i].obj in s0.objs;
    }
    ForkAbove(s0, y.procs[p].areas, x);
    NothingAbove(s0.objs, x);
    if x in y.fs { RootsExist(y.store, RootsOf(y), x); assert false; }
    hide Inv, CloneStore, ForkLoop;
  }

  lemma ForkTwinsApart(y: Sys, p: Pid, q: Pid, i: nat, r: Pid, j: nat)
    requires Inv(y.store, RootsOf(y)) && p < |y.procs| && i < |y.procs[p].areas| && j < |y.procs[p].areas|
    requires (q == p || q == |y.procs|) && (r == p || r == |y.procs|) && (q != r || i != j)
    requires y.procs[p].areas[i].private && y.procs[p].areas[j].private
    ensures |ForkOf(y, p).parent| == |ForkOf(y, p).child| == |y.procs[p].areas|
    ensures (if q == p then ForkOf(y, p).parent else ForkOf(y, p).child)[i].obj
         != (if r == p then ForkOf(y, p).parent else ForkOf(y, p).child)[j].obj
  {
    hide Inv, CloneStore, ForkLoop, Backed, Fresh, Closed, FramesOk, SubObjs;
    CloneOk(y, p);
    ForkStoreShape(y, p);
    TwinsDistinct(CloneStore(y, p), y.procs[p].areas, i, j);
    TwinsDistinct(CloneStore(y, p), y.procs[p].areas, j, i);
  }

  lemma ForkApartAt(y: Sys, p: Pid, q: Pid, a: Area, r: Pid, b: Area)
    requires SysInv(y) && p < |y.procs| && InProc(Fork(y, p).procs, q, a) && InProc(Fork(y, p).procs, r, b)
    ensures Apart(q, a, r, b)
  {
    var i := ForkArea(y, p, q, a);
    var j := ForkArea(y, p, r, b);
    hide Inv, CloneStore, ForkLoop, Backed, TopsOk, Coherent, AllSorted;
    var twinA, twinB := q == p || q == |y.procs|, r == p || r == |y.procs|;
    if !twinA { AreaRooted(y, q, a); }
    if !twinB { AreaRooted(y, r, b); }
    if !twinA && !twinB {
      assert Apart(q, a, r, b);
    } else if twinA && twinB && a.private && b.private && (q != r || i != j) {
      ForkTwinsApart(y, p, q, i, r, j);
    }
  }

  lemma ForkCoherentAt(y: Sys, p: Pid, q: Pid, u: Vpn)
    requires SysInv(y) && p < |y.procs| && q < |y.procs| && q != p && u in y.procs[q].pt
    ensures PteOk(Fork(y, p), q, u)
  {
    var y1 := Fork(y, p);
    assert PteOk(y, q, u);
    var b := MapArea(y, q, u);
    ForkStoreShape(y, p);
    SuperKeeps(y.store, y1.store, b.obj, b.PageOf(u));
    PteStill(y, y1, q, u);
    hide *;
  }

  lemma ForkInv(y: Sys, p: Pid)
    requires SysInv(y) && p < |y.procs|
    ensures SysInv(Fork(y, p))
  {
    var y1 := Fork(y, p);
    ForkStore(y, p);
    ForkSorted(y, p);
    forall q: Pid, a: Area | InProc(y1.procs, q, a) ensures TopOk(y1, a) {
      var i := ForkArea(y, p, q, a);
      if q == p || q == |y.procs| { ForkTwinTop(y, p, q, a); } else { ForkOldTop(y, p, q, a); }
    }
    forall q: Pid, a: Area, r: Pid, b: Area | InProc(y1.procs, q, a) && InProc(y1.procs, r, b) ensures Apart(q, a, r, b) {
      ForkApartAt(y, p, q, a, r, b);
    }
    forall q: Pid, u: Vpn | q < |y1.procs| && u in y1.procs[q].pt ensures PteOk(y1, q, u) {
      ForkCoherentAt(y, p, q, u);
    }
    hide Inv, TopOk, PteOk, Apart, AllSorted, ForkLoop;
  }

  lemma ForkSorted(y: Sys, p: Pid)
    requires Inv(y.store, RootsOf(y)) && AllSorted(y) && p < |y.procs|
    ensures AllSorted(Fork(y, p))
  {
    var f := ForkOf(y, p);
    ForkIsTwins(y, p);
    TwinsSorted(f.parent, y.procs[p].areas, y.store.nextObj, f.s.nextObj, y.low, y.high);
    TwinsSorted(f.child, y.procs[p].areas, y.store.nextObj, f.s.nextObj, y.low, y.high);
    hide Inv, Sorted, Twins, ForkLoop, CloneStore;
  }

  lemma ForkAreaCell(y: Sys, p: Pid, i: nat, pn: PageNum)
    requires SysInv(y) && p < |y.procs| && i < |y.procs[p].areas|
    ensures i < |ForkOf(y, p).parent| && i < |ForkOf(y, p).child|
    ensures CellOf(ForkOf(y, p).s, ForkOf(y, p).parent[i].obj, pn) == CellOf(y.store, y.procs[p].areas[i].obj, pn)
    ensures CellOf(ForkOf(y, p).s, ForkOf(y, p).child[i].obj, pn) == CellOf(y.store, y.procs[p].areas[i].obj, pn)
  {
    var areas := y.procs[p].areas;
    assert InProc(y.procs, p, areas[i]);
    AreaRooted(y, p, areas[i]);
    hide Inv, CloneStore, ForkLoop, Backed, CellOf, TopsOk, AllApart, Coherent, AllSorted;
    CloneOk(y, p);
    ForkCells(CloneStore(y, p), areas, i, pn);
    CloneCells(y, p, areas[i].obj, pn);
  }

  lemma ForkTwinCell(y: Sys, p: Pid, q: Pid, u: Vpn)
    requires SysInv(y) && p < |y.procs| && (q == p || q == |y.procs|)
    ensures PageCell(Fork(y, p), q, u) == PageCell(y, p, u)
  {
    hide Inv, CloneStore, ForkLoop, CellOf, Twins, TopsOk, AllApart, Coherent, At;
    var areas := y.procs[p].areas;
    var f := ForkOf(y, p);
    ForkIsTwins(y, p);
    var i := TwinsAt(if q == p then f.parent else f.child, areas, y.store.nextObj, f.s.nextObj, y.low, y.high, u);
    if At(areas, u).Some? {
      ForkAreaCell(y, p, i, areas[i].PageOf(u));
    }
  }

  lemma CloneCells(y: Sys, p: Pid, x: ObjId, pn: PageNum)
    requires Inv(y.store, RootsOf(y)) && p < |y.procs| && x in y.store.objs
    ensures CellOf(CloneStore(y, p), x, pn) == CellOf(y.store, x, pn)
  {
    CloneOk(y, p);
    SuperKeeps(y.store, CloneStore(y, p), x, pn);
    hide Inv, CloneStore;
  }

  /**
   * Right after fork, parent and child see every page as the parent saw it,
   * and every other process sees what it saw.
   */
  lemma ForkPages(y: Sys, p: Pid, q: Pid, u: Vpn)
    requires SysInv(y) && p < |y.procs|
    ensures PageCell(Fork(y, p), q, u) == PageCell(y, if q == |y.procs| then p else q, u)
  {
    if q == p || q == |y.procs| {
      ForkTwinCell(y, p, q, u);
    } else if MapAt(y, q, u).Some? {
      var b := MapArea(y, q, u);
      ForkStoreShape(y, p);
      SuperKeeps(y.store, Fork(y, p).store, b.obj, b.PageOf(u));
    }
    hide Inv, ForkLoop, CellOf;
  }
}
