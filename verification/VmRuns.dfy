/**
 * Runs of the virtual-memory system: any interleaving of stores, page faults,
 * maps, unmaps, forks, exits and collapses by any number of processes.
 */
module VmRuns {
  import opened Basics
  import opened MemObjects
  import opened ObjectRefs
  import opened ObjectPages
  import opened Vmmap
  import opened VirtualMemory
  import opened VmSteps
  import opened VmMapping
  import opened VmProcs
  import ShadowCollapse

  datatype Action =
    | DoStore(p: Pid, v: Vpn, d: Page)
    | DoFault(p: Pid, v: Vpn, write: bool)
    | DoMap(p: Pid, lo: Vpn, hi: Vpn, prot: Prot, private: bool, file: Option<ObjId>, off: PageNum)
    | DoUnmap(p: Pid, lo: Vpn, hi: Vpn)
    | DoFork(p: Pid)
    | DoExit(p: Pid)
    | DoCollapse(p: Pid, area: nat)

  ghost predicate Enabled(y: Sys, act: Action) {
    && act.p < |y.procs|
    && match act
       case DoStore(p, v, _) => v in y.procs[p].pt && y.procs[p].pt[v].write
       case DoFault(_, _, _) => true
       case DoMap(_, lo, hi, _, _, file, _) => y.low <= lo < hi <= y.high && FileOk(y.store, file)
       case DoUnmap(_, lo, hi) => y.low <= lo < hi <= y.high
       case DoFork(_) => true
       case DoExit(_) => true
       case DoCollapse(p, area) => area < |y.procs[p].areas|
  }

  // --------------------------------------------------------------- mapping

  /** File objects are never freed by dropping references. */
  lemma {:induction false} PutKeepsFiles(s: Store, o: ObjId, x: ObjId)
    requires o in s.objs && x in s.objs && s.objs[x].kind.File?
    ensures x in Put(s, o).objs && Put(s, o).objs[x].kind.File?
    decreases o
  {
    var ob := s.objs[o];
    if ob.kind.Shadow? && ob.refcount - 1 == |ob.pages| {
      var s1 := Discard(s, o);
      if ob.kind.shadowed < o && ob.kind.shadowed in s1.objs {
        PutKeepsFiles(s1, ob.kind.shadowed, x);
      }
    }
  }

  lemma {:induction false} PutAllKeepsFiles(s: Store, os: seq<ObjId>, x: ObjId)
    requires x in s.objs && s.objs[x].kind.File?
    ensures x in PutAll(s, os).objs && PutAll(s, os).objs[x].kind.File?
    decreases |os|
  {
    if os != [] {
      if os[0] in s.objs {
        PutKeepsFiles(s, os[0], x);
        PutAllKeepsFiles(Put(s, os[0]), os[1..], x);
      } else {
        PutAllKeepsFiles(s, os[1..], x);
      }
    }
  }

  lemma UnmapReady(y: Sys, p: Pid, lo: Vpn, hi: Vpn, file: Option<ObjId>)
    requires SysInv(y) && p < |y.procs| && y.low <= lo < hi <= y.high && FileOk(y.store, file)
    ensures MapOk(Unmap(y, p, lo, hi), p, lo, hi, file)
  {
    var y1 := Unmap(y, p, lo, hi);
    var areas := y.procs[p].areas;
    RemoveSorted(areas, y.low, y.high, lo, hi);
    forall v: Vpn | lo <= v < hi ensures At(y1.procs[p].areas, v) == None {
      RemoveAt(areas, y.low, y.high, lo, hi, v);
    }
    RangeEmptyIsAt(y1.procs[p].areas, y.low, y.high, lo, hi);
    if file.Some? {
      var s1 := RefAll(y.store, RefsTaken(areas, lo, hi));
      RefAllShape(y.store, RefsTaken(areas, lo, hi));
      PutAllKeepsFiles(s1, RefsDropped(areas, lo, hi), file.value);
    }
    hide Inv, Remove, RangeEmpty;
  }

  /** vmmap_map on a fixed range: unmap what is there, then insert. */
  function MapAfter(y1: Sys, p: Pid, lo: Vpn, hi: Vpn, prot: Prot, private: bool, file: Option<ObjId>, off: PageNum): Sys {
    if p < |y1.procs| && lo < hi && (file.Some? ==> file.value in y1.store.objs)
    then MapInto(y1, p, lo, hi, prot, private, file, off) else y1
  }

  function Apply(y: Sys, act: Action): Sys
    requires Enabled(y, act)
  {
    match act
    case DoStore(p, v, d) => StoreTo(y, p, v, d)
    case DoFault(p, v, write) => Fault(y, p, v, write).y
    case DoMap(p, lo, hi, prot, private, file, off) =>
      MapAfter(Unmap(y, p, lo, hi), p, lo, hi, prot, private, file, off)
    case DoUnmap(p, lo, hi) => Unmap(y, p, lo, hi)
    case DoFork(p) => Fork(y, p)
    case DoExit(p) => Exit(y, p)
    case DoCollapse(p, area) => CollapseBelow(y, y.procs[p].areas[area].obj)
  }

  /** Every step keeps the invariant. */
  lemma StepInv(y: Sys, act: Action)
    requires SysInv(y) && Enabled(y, act)
    ensures SysInv(Apply(y, act))
  {
    hide SysInv;
    match act
    case DoStore(p, v, d) => StoreInv(y, p, v, d);
    case DoFault(p, v, write) => FaultInv(y, p, v, write);
    case DoMap(p, lo, hi, prot, private, file, off) =>
      UnmapInv(y, p, lo, hi);
      UnmapReady(y, p, lo, hi, file);
      MapIntoInv(Unmap(y, p, lo, hi), p, lo, hi, prot, private, file, off);
    case DoUnmap(p, lo, hi) => UnmapInv(y, p, lo, hi);
    case DoFork(p) => ForkInv(y, p);
    case DoExit(p) => ExitInv(y, p);
    case DoCollapse(p, area) => CollapseInv(y, p, y.procs[p].areas[area]);
  }

  // ------------------------------------------------------------------- runs

  ghost predicate Legal(y: Sys, acts: seq<Action>)
    decreases |acts|
  {
    acts == [] || (Enabled(y, acts[0]) && Legal(Apply(y, acts[0]), acts[1..]))
  }

  ghost function Run(y: Sys, acts: seq<Action>): Sys
    requires Legal(y, acts)
    decreases |acts|
  {
    if acts == [] then y else Run(Apply(y, acts[0]), acts[1..])
  }

  /**
   * In every run: reference counts are conserved, chains are finite with
   * right bottom pointers, areas are sorted and disjoint, and every
   * page-table entry names the frame its chain finds and is writable only if
   * the area allows it and its top object owns the frame.
   */
  lemma {:induction false} RunInv(y: Sys, acts: seq<Action>)
    requires SysInv(y) && Legal(y, acts)
    ensures SysInv(Run(y, acts))
    decreases |acts|
  {
    if acts != [] {
      StepInv(y, acts[0]);
      hide SysInv, Apply;
      RunInv(Apply(y, acts[0]), acts[1..]);
    }
  }

  // -------------------------------------------------------- initial states

  /** Only file objects, referenced by the file system alone, and processes without areas. */
  ghost predicate Initial(y: Sys) {
    && (forall o :: o in y.store.objs ==>
          o < y.store.nextObj && y.store.objs[o].kind.File? && |y.store.objs[o].pages| == 0
          && y.store.objs[o].refcount == y.fs[o])
    && (forall o :: o in y.fs ==> o in y.store.objs)
    && y.store.mem == map[]
    && (forall p: Pid :: p < |y.procs| ==> y.procs[p] == Proc([], map[]))
  }

  lemma {:induction false} EmptyRoots(procs: seq<Proc>)
    requires forall p: Pid :: p < |procs| ==> procs[p] == Proc([], map[])
    ensures Roots(procs) == multiset{}
  {
    if procs != [] { EmptyRoots(procs[1..]); }
  }

  lemma InitialCounted(objs: Objs, fs: multiset<ObjId>, o: ObjId)
    requires (forall x :: x in objs ==> objs[x].kind.File? && |objs[x].pages| == 0 && objs[x].refcount == fs[x]) && o in objs
    ensures Counted(objs, fs, o)
  {
    assert Above(objs, o) == {};
  }

  lemma InitialStore(s: Store, fs: multiset<ObjId>)
    requires forall o :: o in s.objs ==>
      o < s.nextObj && s.objs[o].kind.File? && |s.objs[o].pages| == 0 && s.objs[o].refcount == fs[o]
    requires (forall o :: o in fs ==> o in s.objs) && s.mem == map[]
    ensures Inv(s, fs)
  {
    hide Counted;
    forall o | o in s.objs ensures Counted(s.objs, fs, o) { InitialCounted(s.objs, fs, o); }
    forall o, pn: PageNum, f: FrameId ensures !HasFrame(s.objs, o, pn, f) {
      assert o in s.objs ==> pn !in s.objs[o].pages.Keys;
    }
  }

  lemma InitialInv(y: Sys)
    requires Initial(y)
    ensures SysInv(y)
  {
    hide Inv;
    EmptyRoots(y.procs);
    assert RootsOf(y) == y.fs;
    InitialStore(y.store, y.fs);
    assert forall p: Pid, a: Area :: !InProc(y.procs, p, a);
  }

  // ------------------------------------------------- bottom pages and steps

  lemma CollapseBottom(y: Sys, p: Pid, a: Area, b: ObjId, pn: PageNum)
    requires SysInv(y) && InProc(y.procs, p, a) && b in y.store.objs && !IsShadow(y.store.objs, b)
    requires b in CollapseBelow(y, a.obj).store.objs
    ensures BottomValue(CollapseBelow(y, a.obj).store, b, pn) == BottomValue(y.store, b, pn)
  {
    AreaRooted(y, p, a);
    if IsShadow(y.store.objs, a.obj) {
      ShadowCollapse.WalkCorrect(y.store, RootsOf(y), a.obj, y.store.objs[a.obj].kind.shadowed);
      assert SameAt(y.store, CollapseBelow(y, a.obj).store, b, pn);
    }
    hide Inv;
  }

  lemma MapIntoBottom(y: Sys, p: Pid, lo: Vpn, hi: Vpn, prot: Prot, private: bool, file: Option<ObjId>, off: PageNum, b: ObjId, pn: PageNum)
    requires SysInv(y) && MapOk(y, p, lo, hi, file) && b in y.store.objs && !IsShadow(y.store.objs, b)
    ensures BottomValue(MapInto(y, p, lo, hi, prot, private, file, off).store, b, pn) == BottomValue(y.store, b, pn)
  {
    BackOk(y.store, RootsOf(y), file, private, 0);
    SuperKeeps(y.store, MapInto(y, p, lo, hi, prot, private, file, off).store, b, pn);
    hide Inv, Back, BottomValue;
  }

  lemma ForkBottom(y: Sys, p: Pid, b: ObjId, pn: PageNum)
    requires SysInv(y) && p < |y.procs| && b in y.store.objs && !IsShadow(y.store.objs, b)
    ensures BottomValue(Fork(y, p).store, b, pn) == BottomValue(y.store, b, pn)
  {
    ForkStoreShape(y, p);
    SuperKeeps(y.store, Fork(y, p).store, b, pn);
    hide Inv, ForkOf, BottomValue;
  }

  lemma ShrinkBottom(y: Sys, y1: Sys, b: ObjId, pn: PageNum)
    requires SubObjs(y1.store.objs, y.store.objs) && SubMem(y1.store, y.store) && Inv(y1.store, RootsOf(y1))
    requires b in y1.store.objs && !IsShadow(y1.store.objs, b)
    ensures BottomValue(y1.store, b, pn) == BottomValue(y.store, b, pn)
  {
    SubKeeps(y.store, y1.store, b, pn);
  }

  /** No step but a store through a shared mapping changes a page of a surviving bottom object. */
  lemma StepBottom(y: Sys, act: Action, b: ObjId, pn: PageNum)
    requires SysInv(y) && Enabled(y, act) && b in y.store.objs && !IsShadow(y.store.objs, b)
    requires b in Apply(y, act).store.objs && !IsShadow(Apply(y, act).store.objs, b)
    requires act.DoStore? ==> MapAt(y, act.p, act.v).Some?
    requires act.DoStore? ==>
      !(MapAt(y, act.p, act.v).value.obj == b && MapAt(y, act.p, act.v).value.pn == pn)
    ensures BottomValue(Apply(y, act).store, b, pn) == BottomValue(y.store, b, pn)
  {
    match act
    case DoStore(p, v, d) => StoreBottoms(y, p, v, d, b, pn); hide *;
    case DoFault(p, v, write) => FaultBottoms(y, p, v, write, b, pn); hide *;
    case DoMap(p, lo, hi, prot, private, file, off) => MapBottom(y, p, lo, hi, prot, private, file, off, b, pn); hide *;
    case DoUnmap(p, lo, hi) =>
      UnmapStore(y, p, lo, hi);
      ShrinkBottom(y, Unmap(y, p, lo, hi), b, pn);
      hide *;
    case DoFork(p) => ForkBottom(y, p, b, pn); hide *;
    case DoExit(p) =>
      ExitStore(y, p);
      ShrinkBottom(y, Exit(y, p), b, pn);
      hide *;
    case DoCollapse(p, area) => CollapseBottom(y, p, y.procs[p].areas[area], b, pn); hide *;
  }

  lemma UnmapNext(y: Sys, p: Pid, lo: Vpn, hi: Vpn)
    requires p < |y.procs| && lo < hi
    ensures Unmap(y, p, lo, hi).store.nextObj == y.store.nextObj
  {
    var areas := y.procs[p].areas;
    RefAllShape(y.store, RefsTaken(areas, lo, hi));
    PutAllShrinks(RefAll(y.store, RefsTaken(areas, lo, hi)), RefsDropped(areas, lo, hi));
    hide SubObjs, SubMem, PutAll, RefAll, RefsTaken, RefsDropped, Remove;
  }

  lemma MapSurvivor(y: Sys, p: Pid, lo: Vpn, hi: Vpn, prot: Prot, private: bool, file: Option<ObjId>, off: PageNum, b: ObjId)
    requires MapOk(y, p, lo, hi, file) && b < y.store.nextObj
    requires b in MapInto(y, p, lo, hi, prot, private, file, off).store.objs
    ensures b in y.store.objs
  {
  }

  lemma MapBottom(y: Sys, p: Pid, lo: Vpn, hi: Vpn, prot: Prot, private: bool, file: Option<ObjId>, off: PageNum, b: ObjId, pn: PageNum)
    requires SysInv(y) && Enabled(y, DoMap(p, lo, hi, prot, private, file, off))
    requires b in y.store.objs && !IsShadow(y.store.objs, b)
    requires b in Apply(y, DoMap(p, lo, hi, prot, private, file, off)).store.objs
    ensures BottomValue(Apply(y, DoMap(p, lo, hi, prot, private, file, off)).store, b, pn) == BottomValue(y.store, b, pn)
  {
    var y1 := Unmap(y, p, lo, hi);
    UnmapInv(y, p, lo, hi);
    UnmapStore(y, p, lo, hi);
    UnmapReady(y, p, lo, hi, file);
    UnmapNext(y, p, lo, hi);
    MapSurvivor(y1, p, lo, hi, prot, private, file, off, b);
    ShrinkBottom(y, y1, b, pn);
    MapIntoBottom(y1, p, lo, hi, prot, private, file, off, b, pn);
    hide Inv, Unmap, MapInto, BottomValue;
  }

  // -------------------------------------------------------------- isolation

  /** The step changes what p has mapped at v. */
  predicate Touches(act: Action, p: Pid, v: Vpn) {
    match act
    case DoMap(q, lo, hi, _, _, _, _) => q == p && lo <= v < hi
    case DoUnmap(q, lo, hi) => q == p && lo <= v < hi
    case DoExit(q) => q == p
    case _ => false
  }

  /** The step does not store, through a shared mapping, to the bottom page that p's page v still follows. */
  ghost predicate Quiet(y: Sys, act: Action, p: Pid, v: Vpn) {
    act.DoStore? && MapAt(y, act.p, act.v).Some? ==>
      PageCell(y, p, v) != Some(Follow(MapAt(y, act.p, act.v).value.obj, MapAt(y, act.p, act.v).value.pn))
  }

  ghost predicate HasPrivate(y: Sys, p: Pid, v: Vpn) {
    MapAt(y, p, v).Some? && MapAt(y, p, v).value.private
  }

  lemma StepMaps(y: Sys, act: Action, p: Pid, v: Vpn)
    requires SysInv(y) && Enabled(y, act) && HasPrivate(y, p, v) && !Touches(act, p, v)
    ensures HasPrivate(Apply(y, act), p, v)
  {
    hide Inv, AllSorted, TopsOk, AllApart, Coherent, At, Unmap, Fork, MapAfter, MemObjects.Lookup, GetForWrite, PutAll, ObjSeq;
    match act
    case DoStore(q, u, d) =>
    case DoFault(q, u, write) =>
    case DoMap(q, lo, hi, prot, private, file, off) => RemapMaps(y, q, lo, hi, prot, private, file, off, p, v);
    case DoUnmap(q, lo, hi) => UnmapMaps(y, q, lo, hi, p, v);
    case DoFork(q) => ForkMaps(y, q, p, v);
    case DoExit(q) =>
    case DoCollapse(q, area) =>
  }

  lemma RemapMaps(y: Sys, q: Pid, lo: Vpn, hi: Vpn, prot: Prot, private: bool, file: Option<ObjId>, off: PageNum, p: Pid, v: Vpn)
    requires SysInv(y) && Enabled(y, DoMap(q, lo, hi, prot, private, file, off)) && HasPrivate(y, p, v)
    requires !Touches(DoMap(q, lo, hi, prot, private, file, off), p, v)
    ensures HasPrivate(MapAfter(Unmap(y, q, lo, hi), q, lo, hi, prot, private, file, off), p, v)
  {
    hide Inv, AllSorted, TopsOk, AllApart, Coherent, Unmap, MapInto, At;
    UnmapMaps(y, q, lo, hi, p, v);
    UnmapInv(y, q, lo, hi);
    UnmapReady(y, q, lo, hi, file);
    MapIntoMaps(Unmap(y, q, lo, hi), q, lo, hi, prot, private, file, off, p, v);
  }

  lemma ForkMaps(y: Sys, q: Pid, p: Pid, v: Vpn)
    requires SysInv(y) && q < |y.procs| && HasPrivate(y, p, v)
    ensures HasPrivate(Fork(y, q), p, v)
    ensures p == q ==> HasPrivate(Fork(y, q), |y.procs|, v)
  {
    hide Inv, TopsOk, AllApart, Coherent, Sorted, ForkLoop, CloneStore, Twins, At;
    if p == q {
      var f := ForkOf(y, q);
      var areas := y.procs[q].areas;
      ForkIsTwins(y, q);
      var i := TwinsAt(f.parent, areas, y.store.nextObj, f.s.nextObj, y.low, y.high, v);
      var j := TwinsAt(f.child, areas, y.store.nextObj, f.s.nextObj, y.low, y.high, v);
      hide Inv, ForkLoop, CloneStore, Twins, At;
    }
  }

  /** What a step does to the cell of a private page it does not unmap. */
  lemma StepCell(y: Sys, act: Action, p: Pid, v: Vpn)
    requires SysInv(y) && Enabled(y, act) && HasPrivate(y, p, v) && !Touches(act, p, v)
    ensures PageCell(Apply(y, act), p, v) == PageCell(y, p, v)
         || (act.DoStore? && act.p == p && act.v == v && PageCell(Apply(y, act), p, v) == Some(Own(act.d)))
         || (act.DoFault? && act.p == p && act.v == v && PageValue(y, p, v).Some?
             && PageCell(Apply(y, act), p, v) == Some(Own(PageValue(y, p, v).value)))
    ensures act.DoStore? && act.p == p && act.v == v ==> PageCell(Apply(y, act), p, v) == Some(Own(act.d))
  {
    match act
    case DoStore(q, u, d) =>
      assert PteOk(y, q, u);
      if MapAt(y, q, u).value.private {
        PrivateStoreCells(y, q, u, d, p, v);
      } else {
        SharedStoreCells(y, q, u, d, p, v);
      }
      hide *;
    case DoFault(q, u, write) => FaultCells(y, q, u, write, p, v); hide *;
    case DoMap(q, lo, hi, prot, private, file, off) =>
      UnmapCells(y, q, lo, hi, p, v);
      UnmapInv(y, q, lo, hi);
      UnmapReady(y, q, lo, hi, file);
      MapIntoCells(Unmap(y, q, lo, hi), q, lo, hi, prot, private, file, off, p, v);
      hide Inv, Unmap, MapInto, PageCell;
    case DoUnmap(q, lo, hi) => UnmapCells(y, q, lo, hi, p, v); hide *;
    case DoFork(q) => ForkPages(y, q, p, v); hide *;
    case DoExit(q) => ExitCells(y, q, p, v); hide *;
    case DoCollapse(q, area) => CollapseCells(y, q, y.procs[q].areas[area], p, v); hide *;
  }

  /** A private page's contents change only when its own process stores to it. */
  lemma StepValue(y: Sys, act: Action, p: Pid, v: Vpn)
    requires SysInv(y) && Enabled(y, act) && HasPrivate(y, p, v) && !Touches(act, p, v) && Quiet(y, act, p, v)
    ensures PageValue(Apply(y, act), p, v) ==
      if act.DoStore? && act.p == p && act.v == v then Some(act.d) else PageValue(y, p, v)
  {
    hide SysInv, Apply, MapAt, CellOf;
    var y1 := Apply(y, act);
    StepCell(y, act, p, v);
    var c := PageCell(y, p, v);
    if PageCell(y1, p, v) == c && c.Some? && c.value.Follow? {
      var b, pn := c.value.b, c.value.pn;
      FollowBottom(y, p, v, b, pn);
      StepInv(y, act);
      FollowBottom(y1, p, v, b, pn);
      if act.DoStore? { PteMapped(y, act.p, act.v); }
      StepBottom(y, act, b, pn);
    }
  }

  lemma PteMapped(y: Sys, p: Pid, v: Vpn)
    requires SysInv(y) && p < |y.procs| && v in y.procs[p].pt
    ensures MapAt(y, p, v).Some?
  {
    assert PteOk(y, p, v);
  }

  ghost predicate Undisturbed(y: Sys, acts: seq<Action>, p: Pid, v: Vpn)
    requires Legal(y, acts)
    decreases |acts|
  {
    acts == [] ||
    (!Touches(acts[0], p, v) && Quiet(y, acts[0], p, v) && Undisturbed(Apply(y, acts[0]), acts[1..], p, v))
  }

  /** The last value process p stores to page v in the run, or the initial one. */
  function LastStore(acts: seq<Action>, p: Pid, v: Vpn, init: Option<Page>): Option<Page> {
    if acts == [] then init
    else if acts[0].DoStore? && acts[0].p == p && acts[0].v == v then LastStore(acts[1..], p, v, Some(acts[0].d))
    else LastStore(acts[1..], p, v, init)
  }

  /** Over a whole run, a private page holds its first contents overridden only by its process's own stores. */
  lemma {:induction false} PrivateMemory(y: Sys, acts: seq<Action>, p: Pid, v: Vpn)
    requires SysInv(y) && Legal(y, acts) && HasPrivate(y, p, v) && Undisturbed(y, acts, p, v)
    ensures PageValue(Run(y, acts), p, v) == LastStore(acts, p, v, PageValue(y, p, v))
    decreases |acts|
  {
    if acts != [] {
      var y1 := Apply(y, acts[0]);
      StepInv(y, acts[0]);
      StepMaps(y, acts[0], p, v);
      StepValue(y, acts[0], p, v);
      hide SysInv, Apply, HasPrivate, PageValue, Quiet, Touches;
      PrivateMemory(y1, acts[1..], p, v);
    }
  }

  /**
   * Fork isolation: after a fork of p and any later run, parent and child
   * each see the parent's memory as it was at the fork, overridden only by
   * their own stores.
   */
  lemma ForkIsolation(y: Sys, p: Pid, acts: seq<Action>, q: Pid, v: Vpn)
    requires SysInv(y) && p < |y.procs| && HasPrivate(y, p, v) && (q == p || q == |y.procs|)
    requires Legal(Fork(y, p), acts) && Undisturbed(Fork(y, p), acts, q, v)
    ensures PageValue(Run(Fork(y, p), acts), q, v) == LastStore(acts, q, v, PageValue(y, p, v))
  {
    ForkInv(y, p);
    ForkMaps(y, p, p, v);
    ForkPages(y, p, q, v);
    ForkValue(y, p, q, v);
    hide SysInv, Fork, HasPrivate, PageValue, PageCell;
    PrivateMemory(Fork(y, p), acts, q, v);
  }

  lemma ForkValue(y: Sys, p: Pid, q: Pid, v: Vpn)
    requires SysInv(y) && p < |y.procs| && (q == p || q == |y.procs|)
    ensures PageValue(Fork(y, p), q, v) == PageValue(y, p, v)
  {
    ForkPages(y, p, q, v);
    var c := PageCell(y, p, v);
    if c.Some? && c.value.Follow? {
      FollowBottom(y, p, v, c.value.b, c.value.pn);
      ForkBottom(y, p, c.value.b, c.value.pn);
    }
    hide SysInv, Fork, PageCell, BottomValue;
  }

  /** What the hardware loads at the end of such a run. */
  lemma ForkIsolationLoads(y: Sys, p: Pid, acts: seq<Action>, q: Pid, v: Vpn)
    requires SysInv(y) && p < |y.procs| && HasPrivate(y, p, v) && (q == p || q == |y.procs|)
    requires Legal(Fork(y, p), acts) && Undisturbed(Fork(y, p), acts, q, v)
    requires q < |Run(Fork(y, p), acts).procs| && v in Run(Fork(y, p), acts).procs[q].pt
    ensures Some(LoadFrom(Run(Fork(y, p), acts), q, v)) == LastStore(acts, q, v, PageValue(y, p, v))
  {
    ForkInv(y, p);
    RunInv(Fork(y, p), acts);
    ForkIsolation(y, p, acts, q, v);
    LoadIsValue(Run(Fork(y, p), acts), q, v);
    hide *;
  }

  // ------------------------------------------- anonymous memory, all runs

  /** The page is a private copy, or follows an anonymous object. */
  ghost predicate Anonymous(y: Sys, p: Pid, v: Vpn) {
    HasPrivate(y, p, v) &&
    var c := PageCell(y, p, v).value;
    c.Follow? ==> c.b in y.store.objs && y.store.objs[c.b].kind.Anon?
  }

  /** The bottom of an anonymous private page is mapped by nobody, so no step can disturb it. */
  lemma AnonymousIsQuiet(y: Sys, act: Action, p: Pid, v: Vpn)
    requires SysInv(y) && Anonymous(y, p, v)
    ensures Quiet(y, act, p, v)
  {
    var a := MapArea(y, p, v);
    var c := PageCell(y, p, v).value;
    if c.Follow? && act.DoStore? && MapAt(y, act.p, act.v).Some? {
      BottomReferenced(y.store.objs, a.obj);
      var m := MapArea(y, act.p, act.v);
      assert m.obj != c.b;
    }
    hide Inv;
  }

  lemma CollapseAnon(y: Sys, p: Pid, a: Area, b: ObjId)
    requires SysInv(y) && InProc(y.procs, p, a) && b in y.store.objs && y.store.objs[b].kind.Anon?
    requires b in CollapseBelow(y, a.obj).store.objs && !IsShadow(CollapseBelow(y, a.obj).store.objs, b)
    ensures CollapseBelow(y, a.obj).store.objs[b].kind.Anon?
  {
    AreaRooted(y, p, a);
    if IsShadow(y.store.objs, a.obj) {
      ShadowCollapse.WalkResident(y.store, RootsOf(y), a.obj, y.store.objs[a.obj].kind.shadowed, b, 0);
    }
    hide Inv;
  }

  lemma FaultAnon(y: Sys, p: Pid, v: Vpn, write: bool, b: ObjId)
    requires SysInv(y) && p < |y.procs| && b in y.store.objs && y.store.objs[b].kind.Anon?
    ensures b in Fault(y, p, v, write).y.store.objs && Fault(y, p, v, write).y.store.objs[b].kind.Anon?
  {
    var m := MapAt(y, p, v);
    if y.low <= v < y.high && m.Some? && m.value.prot.read && (write ==> m.value.prot.write) {
      assert Fault(y, p, v, write).y.store == FaultLookup(y, m.value, write).s;
      FaultKeeps(y, p, v, write, b, 0);
    }
    hide Inv, FaultLookup;
  }

  /** A surviving anonymous object stays anonymous. */
  lemma StepAnon(y: Sys, act: Action, b: ObjId)
    requires SysInv(y) && Enabled(y, act) && b in y.store.objs && y.store.objs[b].kind.Anon?
    requires b in Apply(y, act).store.objs && !IsShadow(Apply(y, act).store.objs, b)
    ensures Apply(y, act).store.objs[b].kind.Anon?
  {
    hide SysInv, Inv, Unmap, Exit, Fault, MapAfter, CollapseBelow, ForkOf, AllSorted, TopsOk, Closed, FramesOk;
    SortedParts(y);
    match act
    case DoStore(p, v, d) =>
    case DoFault(p, v, write) => FaultAnon(y, p, v, write, b);
    case DoMap(p, lo, hi, prot, private, file, off) => MapAnon(y, p, lo, hi, prot, private, file, off, b);
    case DoUnmap(p, lo, hi) => UnmapStore(y, p, lo, hi);
    case DoFork(p) => ForkStoreShape(y, p);
    case DoExit(p) => ExitStore(y, p);
    case DoCollapse(p, area) => CollapseAnon(y, p, y.procs[p].areas[area], b);
  }

  lemma MapAnon(y: Sys, p: Pid, lo: Vpn, hi: Vpn, prot: Prot, private: bool, file: Option<ObjId>, off: PageNum, b: ObjId)
    requires SysInv(y) && Enabled(y, DoMap(p, lo, hi, prot, private, file, off)) && b in y.store.objs && y.store.objs[b].kind.Anon?
    requires b in MapAfter(Unmap(y, p, lo, hi), p, lo, hi, prot, private, file, off).store.objs
    requires !IsShadow(MapAfter(Unmap(y, p, lo, hi), p, lo, hi, prot, private, file, off).store.objs, b)
    ensures MapAfter(Unmap(y, p, lo, hi), p, lo, hi, prot, private, file, off).store.objs[b].kind.Anon?
  {
    hide SysInv, Inv, Unmap, Back, RootsOf, Insert, CellOf, Base;
    SortedParts(y);
    UnmapInv(y, p, lo, hi);
    UnmapStore(y, p, lo, hi);
    UnmapReady(y, p, lo, hi, file);
    UnmapNext(y, p, lo, hi);
    var y1 := Unmap(y, p, lo, hi);
    MapSurvivor(y1, p, lo, hi, prot, private, file, off, b);
    SortedParts(y1);
    BackOk(y1.store, RootsOf(y1), file, private, 0);
  }

  lemma StepAnonymous(y: Sys, act: Action, p: Pid, v: Vpn)
    requires SysInv(y) && Enabled(y, act) && Anonymous(y, p, v) && !Touches(act, p, v)
    ensures Anonymous(Apply(y, act), p, v)
  {
    var y1 := Apply(y, act);
    StepInv(y, act);
    StepMaps(y, act, p, v);
    StepCell(y, act, p, v);
    var c := PageCell(y, p, v).value;
    if PageCell(y1, p, v) == Some(c) && c.Follow? {
      FollowBottom(y1, p, v, c.b, c.pn);
      StepAnon(y, act, c.b);
    }
    hide SysInv, Apply;
  }

  predicate Spares(acts: seq<Action>, p: Pid, v: Vpn) {
    forall i :: 0 <= i < |acts| ==> !Touches(acts[i], p, v)
  }

  lemma {:induction false} AnonymousUndisturbed(y: Sys, acts: seq<Action>, p: Pid, v: Vpn)
    requires SysInv(y) && Legal(y, acts) && Anonymous(y, p, v) && Spares(acts, p, v)
    ensures Undisturbed(y, acts, p, v)
    decreases |acts|
  {
    if acts != [] {
      assert !Touches(acts[0], p, v);
      AnonymousIsQuiet(y, acts[0], p, v);
      StepAnonymous(y, acts[0], p, v);
      StepInv(y, acts[0]);
      hide SysInv, Apply, Anonymous, Quiet, Touches;
      AnonymousUndisturbed(Apply(y, acts[0]), acts[1..], p, v);
    }
  }

  /** Anonymous private memory is an independent array of pages per process, in every run. */
  lemma AnonymousMemory(y: Sys, acts: seq<Action>, p: Pid, v: Vpn)
    requires SysInv(y) && Legal(y, acts) && Anonymous(y, p, v) && Spares(acts, p, v)
    ensures PageValue(Run(y, acts), p, v) == LastStore(acts, p, v, PageValue(y, p, v))
  {
    AnonymousUndisturbed(y, acts, p, v);
    PrivateMemory(y, acts, p, v);
    hide SysInv;
  }
}
