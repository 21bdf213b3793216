/** Map and unmap keep the invariant of the virtual-memory system. */
module VmMapping {
  import opened Basics
  import opened MemObjects
  import opened ObjectRefs
  import opened ObjectPages
  import opened Vmmap
  import opened VirtualMemory
  import opened VmSteps

  // ----------------------------------------------------------- references

  /** Taking references changes nothing but counts. */
  lemma {:induction false} RefAllShape(s: Store, os: seq<ObjId>)
    ensures SubObjs(RefAll(s, os).objs, s.objs) && SubObjs(s.objs, RefAll(s, os).objs)
    ensures RefAll(s, os).mem == s.mem && RefAll(s, os).nextObj == s.nextObj && RefAll(s, os).nextFrame == s.nextFrame
    decreases |os|
  {
    if os != [] && os[0] in s.objs {
      var s1 := Ref(s, os[0]);
      AddRefShape(s.objs, os[0], 1);
      SubObjsBack(s.objs, os[0]);
      hide SubObjs, AddRef;
      RefAllShape(s1, os[1..]);
      SubObjsTrans(RefAll(s1, os[1..]).objs, s1.objs, s.objs);
      SubObjsTrans(s.objs, s1.objs, RefAll(s1, os[1..]).objs);
    } else if os != [] {
      hide SubObjs;
      RefAllShape(s, os[1..]);
    }
  }

  lemma SubObjsBack(objs: Objs, o: ObjId)
    requires o in objs
    ensures SubObjs(objs, AddRef(objs, o, 1))
  {
  }

  lemma SubObjsTrans(a: Objs, b: Objs, c: Objs)
    requires SubObjs(a, b) && SubObjs(b, c)
    ensures SubObjs(a, c)
  {
  }

  lemma {:induction false} RefAllInv(s: Store, roots: multiset<ObjId>, os: seq<ObjId>)
    requires Inv(s, roots) && (forall o :: o in os ==> o in s.objs)
    ensures Inv(RefAll(s, os), roots + multiset(os))
    decreases |os|
  {
    if os == [] {
      assert roots + multiset(os) == roots;
    } else {
      var s1 := Ref(s, os[0]);
      RefInv(s, roots, os[0]);
      AddRefShape(s.objs, os[0], 1);
      assert forall o :: o in os[1..] ==> o in os;
      hide Inv, AddRef;
      RefAllInv(s1, roots + multiset{os[0]}, os[1..]);
      BagCons(roots, os);
    }
  }

  lemma BagCons(roots: multiset<ObjId>, os: seq<ObjId>)
    requires os != []
    ensures roots + multiset{os[0]} + multiset(os[1..]) == roots + multiset(os)
  {
    assert os == [os[0]] + os[1..];
  }

  // ---------------------------------------------------------------- unmap

  /** What replacing one process does to the references held by areas. */
  lemma SetProcRoots(y: Sys, s: Store, p: Pid, pr: Proc, o: ObjId)
    requires p < |y.procs|
    ensures RootsOf(SetProc(y, s, p, pr))[o] == RootsOf(y)[o] - Count(y.procs[p].areas, o) + Count(pr.areas, o)
    ensures Count(y.procs[p].areas, o) <= RootsOf(y)[o]
  {
    RootUpdate(y.procs, p, pr, o);
    RootUpdate(y.procs, p, Proc([], map[]), o);
    RootsCount(y.procs, o);
    RootsCount(y.procs[p := pr], o);
    assert Count([], o) == 0;
    hide RootCount, Roots, Count;
  }

  lemma UnmapCount(y: Sys, p: Pid, lo: Vpn, hi: Vpn, o: ObjId)
    requires p < |y.procs| && lo < hi
    ensures var areas := y.procs[p].areas;
      && multiset(RefsDropped(areas, lo, hi))[o] <= RootsOf(y)[o]
      && RootsOf(Unmap(y, p, lo, hi))[o] ==
           RootsOf(y)[o] + multiset(RefsTaken(areas, lo, hi))[o] - multiset(RefsDropped(areas, lo, hi))[o]
  {
    var areas := y.procs[p].areas;
    RemoveCount(areas, lo, hi, o);
    DropsCount(areas, lo, hi, o);
    TakesCount(areas, lo, hi, o);
    DroppedCount(areas, lo, hi, o);
    CountIs(areas, o);
    SetProcRoots(y, Unmap(y, p, lo, hi).store, p, Unmap(y, p, lo, hi).procs[p], o);
    hide Count, Remove, RefsDropped, RefsTaken, Takes, Drops, ObjsOf, RootsOf, RemoveRefs;
  }

  lemma UnmapRoots(y: Sys, p: Pid, lo: Vpn, hi: Vpn)
    requires p < |y.procs| && lo < hi
    ensures var areas := y.procs[p].areas;
      && multiset(RefsDropped(areas, lo, hi)) <= RootsOf(y) + multiset(RefsTaken(areas, lo, hi))
      && RootsOf(Unmap(y, p, lo, hi)) ==
           RootsOf(y) + multiset(RefsTaken(areas, lo, hi)) - multiset(RefsDropped(areas, lo, hi))
  {
    forall o: ObjId
      ensures multiset(RefsDropped(y.procs[p].areas, lo, hi))[o] <= RootsOf(y)[o]
      ensures RootsOf(Unmap(y, p, lo, hi))[o] ==
        RootsOf(y)[o] + multiset(RefsTaken(y.procs[p].areas, lo, hi))[o] - multiset(RefsDropped(y.procs[p].areas, lo, hi))[o]
    {
      UnmapCount(y, p, lo, hi, o);
    }
    hide *;
  }

  lemma {:induction false} TakenExist(y: Sys, p: Pid, lo: Vpn, hi: Vpn, o: ObjId)
    requires Inv(y.store, RootsOf(y)) && p < |y.procs| && o in RefsTaken(y.procs[p].areas, lo, hi)
    ensures o in y.store.objs
  {
    var i := TakenFrom(y.procs[p].areas, lo, hi);
    AreaRooted(y, p, y.procs[p].areas[i]);
    hide Inv;
  }

  lemma UnmapStore(y: Sys, p: Pid, lo: Vpn, hi: Vpn)
    requires Inv(y.store, RootsOf(y)) && p < |y.procs| && lo < hi
    ensures Inv(Unmap(y, p, lo, hi).store, RootsOf(Unmap(y, p, lo, hi)))
    ensures SubObjs(Unmap(y, p, lo, hi).store.objs, y.store.objs) && SubMem(Unmap(y, p, lo, hi).store, y.store)
  {
    var areas := y.procs[p].areas;
    var taken, dropped := RefsTaken(areas, lo, hi), RefsDropped(areas, lo, hi);
    forall o | o in taken ensures o in y.store.objs { TakenExist(y, p, lo, hi, o); }
    UnmapRoots(y, p, lo, hi);
    hide Inv, SubObjs, SubMem, RefsTaken, RefsDropped, RootsOf;
    var s1 := RefAll(y.store, taken);
    RefAllInv(y.store, RootsOf(y), taken);
    RefAllShape(y.store, taken);
    RefAllMem(y.store, taken);
    PutAllInv(s1, RootsOf(y) + multiset(taken), dropped);
    PutAllShrinks(s1, dropped);
    ShrinkTrans(PutAll(s1, dropped), s1, y.store);
  }

  lemma RefAllMem(s: Store, os: seq<ObjId>)
    ensures SubMem(RefAll(s, os), s)
  {
    RefAllShape(s, os);
    hide SubObjs;
  }

  /** Where an area of the new address space comes from. */
  lemma UnmapArea(y: Sys, p: Pid, lo: Vpn, hi: Vpn, q: Pid, a: Area) returns (b: Area)
    requires p < |y.procs| && lo < hi && InProc(Unmap(y, p, lo, hi).procs, q, a)
    ensures InProc(y.procs, q, b) && PieceOf(a, b)
  {
    if q == p {
      var k :| 0 <= k < |Remove(y.procs[p].areas, lo, hi)| && Remove(y.procs[p].areas, lo, hi)[k] == a;
      var i := RemovePieces(y.procs[p].areas, lo, hi, k);
      b := y.procs[p].areas[i];
    } else {
      b := a;
    }
  }

  lemma UnmapTopAt(y: Sys, p: Pid, lo: Vpn, hi: Vpn, q: Pid, a: Area)
    requires SysInv(y) && p < |y.procs| && lo < hi && InProc(Unmap(y, p, lo, hi).procs, q, a)
    ensures TopOk(Unmap(y, p, lo, hi), a)
  {
    var y1 := Unmap(y, p, lo, hi);
    var b := UnmapArea(y, p, lo, hi, q, a);
    assert TopOk(y, b);
    UnmapStore(y, p, lo, hi);
    AreaRooted(y1, q, a);
    SubKeeps(y.store, y1.store, a.obj, 0);
    hide Inv, Unmap;
  }

  lemma UnmapApart(y: Sys, p: Pid, lo: Vpn, hi: Vpn)
    requires AllApart(y.procs) && p < |y.procs| && lo < hi
    ensures AllApart(Unmap(y, p, lo, hi).procs)
  {
    var y1 := Unmap(y, p, lo, hi);
    forall q: Pid, a: Area, r: Pid, b: Area | InProc(y1.procs, q, a) && InProc(y1.procs, r, b) ensures Apart(q, a, r, b) {
      var a0 := UnmapArea(y, p, lo, hi, q, a);
      var b0 := UnmapArea(y, p, lo, hi, r, b);
      assert Apart(q, a0, r, b0);
    }
    hide Apart, Unmap;
  }

  lemma UnmapMaps(y: Sys, p: Pid, lo: Vpn, hi: Vpn, q: Pid, u: Vpn)
    requires AllSorted(y) && p < |y.procs| && lo < hi
    ensures MapAt(Unmap(y, p, lo, hi), q, u) == if q == p && lo <= u < hi then None else MapAt(y, q, u)
  {
    RemoveAt(y.procs[p].areas, y.low, y.high, lo, hi, u);
  }

  lemma UnmapCoherentAt(y: Sys, p: Pid, lo: Vpn, hi: Vpn, q: Pid, u: Vpn)
    requires SysInv(y) && p < |y.procs| && lo < hi
    requires q < |y.procs| && u in Unmap(y, p, lo, hi).procs[q].pt
    ensures PteOk(Unmap(y, p, lo, hi), q, u)
  {
    var y1 := Unmap(y, p, lo, hi);
    assert u in y.procs[q].pt && PteOk(y, q, u);
    assert y1.procs[q].pt[u] == y.procs[q].pt[u] && (q == p ==> !(lo <= u < hi));
    UnmapMaps(y, p, lo, hi, q, u);
    UnmapStore(y, p, lo, hi);
    var i := AtSome(y1.procs[q].areas, u);
    AreaRooted(y1, q, y1.procs[q].areas[i]);
    var m := MapAt(y, q, u).value;
    SubKeeps(y.store, y1.store, m.obj, m.pn);
    PteStill(y, y1, q, u);
    hide *;
  }

  lemma UnmapInv(y: Sys, p: Pid, lo: Vpn, hi: Vpn)
    requires SysInv(y) && p < |y.procs| && lo < hi
    ensures SysInv(Unmap(y, p, lo, hi))
  {
    var y1 := Unmap(y, p, lo, hi);
    UnmapStore(y, p, lo, hi);
    UnmapApart(y, p, lo, hi);
    RemoveSorted(y.procs[p].areas, y.low, y.high, lo, hi);
    assert AllSorted(y1);
    forall q: Pid, a: Area | InProc(y1.procs, q, a) ensures TopOk(y1, a) {
      UnmapTopAt(y, p, lo, hi, q, a);
    }
    forall q: Pid, u: Vpn | q < |y1.procs| && u in y1.procs[q].pt ensures PteOk(y1, q, u) {
      UnmapCoherentAt(y, p, lo, hi, q, u);
    }
    hide Inv, TopOk, PteOk, AllApart, AllSorted, Unmap;
  }

  /** Unmapping removes the cells of the range and changes no other cell. */
  lemma UnmapCells(y: Sys, p: Pid, lo: Vpn, hi: Vpn, q: Pid, u: Vpn)
    requires SysInv(y) && p < |y.procs| && lo < hi
    ensures PageCell(Unmap(y, p, lo, hi), q, u) == if q == p && lo <= u < hi then None else PageCell(y, q, u)
  {
    var y1 := Unmap(y, p, lo, hi);
    UnmapMaps(y, p, lo, hi, q, u);
    UnmapStore(y, p, lo, hi);
    if MapAt(y1, q, u).Some? {
      var i := AtSome(y1.procs[q].areas, u);
      AreaRooted(y1, q, y1.procs[q].areas[i]);
      var m := MapAt(y, q, u).value;
      SubKeeps(y.store, y1.store, m.obj, m.pn);
    }
    hide Inv, Unmap;
  }

  // ------------------------------------------------------------------- map

  /** The object whose pages a new mapping first shows. */
  function Base(s: Store, file: Option<ObjId>): ObjId {
    if file.Some? then file.value else s.nextObj
  }

  function BackBase(s: Store, file: Option<ObjId>): Store
    requires file.Some? ==> file.value in s.objs
  {
    if file.Some? then Ref(s, file.value) else NewObj(s, Anon)
  }

  ghost predicate FileOk(s: Store, file: Option<ObjId>) {
    file.Some? ==> file.value in s.objs && s.objs[file.value].kind.File?
  }

  lemma BackBaseInv(s: Store, roots: multiset<ObjId>, file: Option<ObjId>)
    requires Inv(s, roots) && FileOk(s, file)
    ensures Inv(BackBase(s, file), roots + multiset{Base(s, file)})
  {
    if file.Some? {
      RefInv(s, roots, file.value);
    } else {
      NewAnonInv(s, roots);
    }
    hide Inv, Ref, NewObj;
  }

  lemma BackBaseShape(s: Store, file: Option<ObjId>)
    requires FileOk(s, file) && s.nextObj !in s.objs && s.nextObj + 1 !in s.objs
    ensures SubObjs(s.objs, BackBase(s, file).objs) && BackBase(s, file).mem == s.mem
    ensures s.nextObj <= BackBase(s, file).nextObj && BackBase(s, file).nextObj !in s.objs
    ensures BackBase(s, file).nextObj !in BackBase(s, file).objs
    ensures Base(s, file) in BackBase(s, file).objs && !IsShadow(BackBase(s, file).objs, Base(s, file))
  {
    if file.Some? {
      AddRefShape(s.objs, file.value, 1);
      SubObjsBack(s.objs, file.value);
    } else {
      SubObjsAdd(s.objs, s.nextObj, Anon);
    }
    hide SubObjs;
  }

  lemma BackBaseOk(s: Store, roots: multiset<ObjId>, file: Option<ObjId>)
    requires Inv(s, roots) && FileOk(s, file)
    ensures Inv(BackBase(s, file), roots + multiset{Base(s, file)})
    ensures SubObjs(s.objs, BackBase(s, file).objs) && BackBase(s, file).mem == s.mem
    ensures s.nextObj <= BackBase(s, file).nextObj && BackBase(s, file).nextObj !in s.objs
    ensures BackBase(s, file).nextObj !in BackBase(s, file).objs
    ensures Base(s, file) in BackBase(s, file).objs && !IsShadow(BackBase(s, file).objs, Base(s, file))
  {
    assert s.nextObj !in s.objs && s.nextObj + 1 !in s.objs;
    BackBaseInv(s, roots, file);
    BackBaseShape(s, file);
    hide *;
  }

  lemma BackInv(s: Store, roots: multiset<ObjId>, file: Option<ObjId>, private: bool)
    requires Inv(s, roots) && FileOk(s, file)
    ensures Inv(Back(s, file, private).0, roots + multiset{Back(s, file, private).1})
  {
    hide Inv, NewShadow;
    BackBaseOk(s, roots, file);
    if private {
      var s0, b := BackBase(s, file), Base(s, file);
      NewShadowInv(s0, roots + multiset{b}, b);
      assert roots + multiset{b} - multiset{b} + multiset{s0.nextObj} == roots + multiset{s0.nextObj};
    }
  }

  lemma ShadowBaseShape(s: Store, s0: Store, b: ObjId, pn: PageNum)
    requires SubObjs(s.objs, s0.objs) && Closed(s0.objs) && FramesOk(s0)
    requires b in s0.objs && b < s0.nextObj && !IsShadow(s0.objs, b) && s0.nextObj !in s0.objs
    ensures SubObjs(s.objs, NewShadow(s0, b).objs) && IsShadow(NewShadow(s0, b).objs, s0.nextObj)
    ensures Above(NewShadow(s0, b).objs, s0.nextObj) == {}
    ensures CellOf(NewShadow(s0, b), s0.nextObj, pn) == Follow(b, pn)
  {
    NewShadowMeaning(s0, b, pn);
    var kind := NewShadow(s0, b).objs[s0.nextObj].kind;
    AddObjAbove(s0.objs, s0.nextObj, kind, s0.nextObj);
    NothingAbove(s0.objs, s0.nextObj);
    SubObjsAdd(s0.objs, s0.nextObj, kind);
    SubObjsTrans(s.objs, s0.objs, NewShadow(s0, b).objs);
    hide SubObjs, Above;
  }

  /** A new mapping's object, its place and what it shows. */
  lemma BackOk(s: Store, roots: multiset<ObjId>, file: Option<ObjId>, private: bool, pn: PageNum)
    requires Inv(s, roots) && FileOk(s, file)
    ensures var (s1, o) := Back(s, file, private);
      && Inv(s1, roots + multiset{o})
      && SubObjs(s.objs, s1.objs) && s1.mem == s.mem
      && private == IsShadow(s1.objs, o)
      && o in s1.objs
      && (private ==> o !in s.objs)
      && (!s1.objs[o].kind.File? ==> Above(s1.objs, o) == {})
      && CellOf(s1, o, pn) == Follow(Base(s, file), pn)
  {
    BackBaseOk(s, roots, file);
    BackInv(s, roots, file, private);
    var s0, b := BackBase(s, file), Base(s, file);
    if private {
      RootsExist(s0, roots + multiset{b}, b);
      ShadowBaseShape(s, s0, b, pn);
    } else if file.None? {
      AddObjAbove(s.objs, s.nextObj, Anon, s.nextObj);
      NothingAbove(s.objs, s.nextObj);
    }
    hide Inv, Above, SubObjs;
  }

  lemma SubObjsAdd(objs: Objs, o: ObjId, kind: Kind)
    requires o !in objs
    ensures SubObjs(objs, AddObj(objs, o, kind))
  {
  }

  /** The only object that gets something above it is the base of a private mapping. */
  lemma BackAbove(s: Store, roots: multiset<ObjId>, file: Option<ObjId>, private: bool, x: ObjId)
    requires Inv(s, roots) && FileOk(s, file) && x in s.objs && file != Some(x) && Above(s.objs, x) == {}
    ensures Above(Back(s, file, private).0.objs, x) == {}
  {
    BackBaseOk(s, roots, file);
    var s0, b := BackBase(s, file), Base(s, file);
    assert Above(s0.objs, x) == {} by {
      if file.Some? {
        AddRefShape(s.objs, file.value, 1);
      } else {
        AddObjAbove(s.objs, s.nextObj, Anon, x);
      }
    }
    if private {
      assert x != b;
      AddObjAbove(s0.objs, s0.nextObj, NewShadow(s0, b).objs[s0.nextObj].kind, x);
    }
    hide Inv;
  }

  ghost predicate MapOk(y: Sys, p: Pid, lo: Vpn, hi: Vpn, file: Option<ObjId>) {
    && p < |y.procs| && y.low <= lo < hi <= y.high && FileOk(y.store, file)
    && RangeEmpty(y.procs[p].areas, lo, hi)
  }

  lemma MapIntoStore(y: Sys, p: Pid, lo: Vpn, hi: Vpn, prot: Prot, private: bool, file: Option<ObjId>, off: PageNum)
    requires Inv(y.store, RootsOf(y)) && MapOk(y, p, lo, hi, file)
    ensures var y1 := MapInto(y, p, lo, hi, prot, private, file, off);
      Inv(y1.store, RootsOf(y1))
  {
    var y1 := MapInto(y, p, lo, hi, prot, private, file, off);
    var o := Back(y.store, file, private).1;
    BackOk(y.store, RootsOf(y), file, private, 0);
    MapIntoRoots(y, p, y1.store, Area(lo, hi, off, prot, private, o), y1.procs[p].pt);
    hide Inv, Back, Insert;
  }

  lemma MapIntoRoots(y: Sys, p: Pid, s: Store, a: Area, pt: map<Vpn, Pte>)
    requires p < |y.procs|
    ensures RootsOf(SetProc(y, s, p, Proc(Insert(y.procs[p].areas, a), pt))) == RootsOf(y) + multiset{a.obj}
  {
    var pr := Proc(Insert(y.procs[p].areas, a), pt);
    forall o: ObjId ensures RootsOf(SetProc(y, s, p, pr))[o] == RootsOf(y)[o] + One(a.obj, o) {
      SetProcRoots(y, s, p, pr, o);
      InsertCount(y.procs[p].areas, a, o);
      hide RootsOf, Count, Insert;
    }
    hide RootsOf, Insert, SetProc;
  }

  lemma {:induction false} InsertCount(areas: seq<Area>, a: Area, o: ObjId)
    ensures Count(Insert(areas, a), o) == Count(areas, o) + One(a.obj, o)
  {
    if areas != [] && areas[0].start <= a.start {
      InsertCount(areas[1..], a, o);
      CountCons(areas[0], Insert(areas[1..], a), o);
    } else {
      CountCons(a, areas, o);
      assert areas == [] ==> [a] + areas == [a];
    }
  }

  /** An area of the new address space is the new area or an old one. */
  lemma MapIntoArea(y: Sys, p: Pid, lo: Vpn, hi: Vpn, prot: Prot, private: bool, file: Option<ObjId>, off: PageNum, q: Pid, a: Area)
    requires AllSorted(y) && MapOk(y, p, lo, hi, file)
    requires InProc(MapInto(y, p, lo, hi, prot, private, file, off).procs, q, a)
    ensures InProc(y.procs, q, a) || (q == p && a == Area(lo, hi, off, prot, private, Back(y.store, file, private).1))
  {
    if q == p {
      var n := Area(lo, hi, off, prot, private, Back(y.store, file, private).1);
      InsertSorted(y.procs[p].areas, y.low, y.high, n);
    }
  }

  lemma MapIntoTopAt(y: Sys, p: Pid, lo: Vpn, hi: Vpn, prot: Prot, private: bool, file: Option<ObjId>, off: PageNum, q: Pid, a: Area)
    requires SysInv(y) && MapOk(y, p, lo, hi, file)
    requires InProc(MapInto(y, p, lo, hi, prot, private, file, off).procs, q, a)
    ensures TopOk(MapInto(y, p, lo, hi, prot, private, file, off), a)
  {
    MapIntoArea(y, p, lo, hi, prot, private, file, off, q, a);
    BackOk(y.store, RootsOf(y), file, private, 0);
    if InProc(y.procs, q, a) {
      assert TopOk(y, a);
      AreaRooted(y, q, a);
      if !y.store.objs[a.obj].kind.File? { BackAbove(y.store, RootsOf(y), file, private, a.obj); }
    } else if private {
      if a.obj in y.fs { RootsExist(y.store, RootsOf(y), a.obj); assert false; }
    }
    hide Inv, Back, Above;
  }

  lemma MapIntoApart(y: Sys, p: Pid, lo: Vpn, hi: Vpn, prot: Prot, private: bool, file: Option<ObjId>, off: PageNum)
    requires SysInv(y) && MapOk(y, p, lo, hi, file)
    ensures AllApart(MapInto(y, p, lo, hi, prot, private, file, off).procs)
  {
    var y1 := MapInto(y, p, lo, hi, prot, private, file, off);
    BackOk(y.store, RootsOf(y), file, private, 0);
    forall q: Pid, a: Area, r: Pid, b: Area | InProc(y1.procs, q, a) && InProc(y1.procs, r, b) ensures Apart(q, a, r, b) {
      MapIntoArea(y, p, lo, hi, prot, private, file, off, q, a);
      MapIntoArea(y, p, lo, hi, prot, private, file, off, r, b);
      if InProc(y.procs, q, a) { AreaRooted(y, q, a); }
      if InProc(y.procs, r, b) { AreaRooted(y, r, b); }
      assert InProc(y.procs, q, a) && InProc(y.procs, r, b) ==> Apart(q, a, r, b);
      hide Inv, Back, MapInto;
    }
    hide *;
  }

  lemma MapIntoMaps(y: Sys, p: Pid, lo: Vpn, hi: Vpn, prot: Prot, private: bool, file: Option<ObjId>, off: PageNum, q: Pid, u: Vpn)
    requires AllSorted(y) && MapOk(y, p, lo, hi, file)
    ensures MapAt(MapInto(y, p, lo, hi, prot, private, file, off), q, u) ==
      if q == p && lo <= u < hi then Some(Mapping(Back(y.store, file, private).1, u - lo + off, prot, private))
      else MapAt(y, q, u)
  {
    InsertAt(y.procs[p].areas, Area(lo, hi, off, prot, private, Back(y.store, file, private).1), u);
    hide Back, Insert;
  }

  lemma MapIntoCoherentAt(y: Sys, p: Pid, lo: Vpn, hi: Vpn, prot: Prot, private: bool, file: Option<ObjId>, off: PageNum, q: Pid, u: Vpn)
    requires SysInv(y) && MapOk(y, p, lo, hi, file)
    requires q < |y.procs| && u in MapInto(y, p, lo, hi, prot, private, file, off).procs[q].pt
    ensures PteOk(MapInto(y, p, lo, hi, prot, private, file, off), q, u)
  {
    var y1 := MapInto(y, p, lo, hi, prot, private, file, off);
    assert u in y.procs[q].pt && PteOk(y, q, u);
    assert y1.procs[q].pt[u] == y.procs[q].pt[u] && (q == p ==> !(lo <= u < hi));
    MapIntoMaps(y, p, lo, hi, prot, private, file, off, q, u);
    BackOk(y.store, RootsOf(y), file, private, 0);
    var b := MapArea(y, q, u);
    SuperKeeps(y.store, y1.store, b.obj, b.PageOf(u));
    PteStill(y, y1, q, u);
    hide *;
  }

  lemma MapIntoInv(y: Sys, p: Pid, lo: Vpn, hi: Vpn, prot: Prot, private: bool, file: Option<ObjId>, off: PageNum)
    requires SysInv(y) && MapOk(y, p, lo, hi, file)
    ensures SysInv(MapInto(y, p, lo, hi, prot, private, file, off))
  {
    hide Inv, TopOk, PteOk, AllApart, AllSorted, MapInto, RangeEmpty, RootsOf;
    var y1 := MapInto(y, p, lo, hi, prot, private, file, off);
    MapIntoStore(y, p, lo, hi, prot, private, file, off);
    MapIntoApart(y, p, lo, hi, prot, private, file, off);
    MapIntoSorted(y, p, lo, hi, prot, private, file, off);
    forall q: Pid, a: Area | InProc(y1.procs, q, a) ensures TopOk(y1, a) {
      MapIntoTopAt(y, p, lo, hi, prot, private, file, off, q, a);
    }
    forall q: Pid, u: Vpn | q < |y1.procs| && u in y1.procs[q].pt ensures PteOk(y1, q, u) {
      MapIntoCoherentAt(y, p, lo, hi, prot, private, file, off, q, u);
    }
  }

  lemma MapIntoSorted(y: Sys, p: Pid, lo: Vpn, hi: Vpn, prot: Prot, private: bool, file: Option<ObjId>, off: PageNum)
    requires AllSorted(y) && MapOk(y, p, lo, hi, file)
    ensures AllSorted(MapInto(y, p, lo, hi, prot, private, file, off))
    ensures |MapInto(y, p, lo, hi, prot, private, file, off).procs| == |y.procs|
  {
    hide Back, Insert, RangeEmpty;
    InsertSorted(y.procs[p].areas, y.low, y.high, Area(lo, hi, off, prot, private, Back(y.store, file, private).1));
  }

  /** A new mapping shows the file's or a new zero-filled object's pages, and no other cell changes. */
  lemma MapIntoCells(y: Sys, p: Pid, lo: Vpn, hi: Vpn, prot: Prot, private: bool, file: Option<ObjId>, off: PageNum, q: Pid, u: Vpn)
    requires SysInv(y) && MapOk(y, p, lo, hi, file)
    ensures PageCell(MapInto(y, p, lo, hi, prot, private, file, off), q, u) ==
      if q == p && lo <= u < hi then Some(Follow(Base(y.store, file), u - lo + off)) else PageCell(y, q, u)
  {
    hide SysInv, Inv, Back, CellOf, Insert, Base, RootsOf, PageCell, MapAt, MapInto, SetProc;
    SortedParts(y);
    MapIntoMaps(y, p, lo, hi, prot, private, file, off, q, u);
    var y1 := MapInto(y, p, lo, hi, prot, private, file, off);
    if q == p && lo <= u < hi {
      MapIntoBacked(y, p, lo, hi, prot, private, file, off, u - lo + off);
      CellAt(y1, q, u);
    } else {
      OtherCells(y, p, lo, hi, prot, private, file, off, q, u);
    }
  }

  lemma SortedParts(y: Sys)
    requires SysInv(y)
    ensures AllSorted(y) && TopsOk(y) && Inv(y.store, RootsOf(y)) && Closed(y.store.objs) && FramesOk(y.store)
  {
  }

  /** A page's cell is that of the object page it is mapped to. */
  lemma CellAt(y: Sys, q: Pid, u: Vpn)
    ensures PageCell(y, q, u) ==
      if MapAt(y, q, u).Some? then Some(CellOf(y.store, MapAt(y, q, u).value.obj, MapAt(y, q, u).value.pn)) else None
  {
  }

  lemma MapIntoBacked(y: Sys, p: Pid, lo: Vpn, hi: Vpn, prot: Prot, private: bool, file: Option<ObjId>, off: PageNum, pn: PageNum)
    requires SysInv(y) && MapOk(y, p, lo, hi, file)
    ensures CellOf(MapInto(y, p, lo, hi, prot, private, file, off).store, Back(y.store, file, private).1, pn) == Follow(Base(y.store, file), pn)
  {
    hide SysInv, Inv, Back, CellOf, Insert, Base, RootsOf;
    SortedParts(y);
    BackOk(y.store, RootsOf(y), file, private, pn);
  }

  lemma OtherCells(y: Sys, p: Pid, lo: Vpn, hi: Vpn, prot: Prot, private: bool, file: Option<ObjId>, off: PageNum, q: Pid, u: Vpn)
    requires SysInv(y) && MapOk(y, p, lo, hi, file) && !(q == p && lo <= u < hi)
    ensures PageCell(MapInto(y, p, lo, hi, prot, private, file, off), q, u) == PageCell(y, q, u)
  {
    hide SysInv, Inv, Back, CellOf, Insert, RootsOf, PageCell, MapAt, KeepsPage, AllSorted, TopsOk, Closed, FramesOk, TopOk;
    SortedParts(y);
    var y1 := MapInto(y, p, lo, hi, prot, private, file, off);
    MapIntoMaps(y, p, lo, hi, prot, private, file, off, q, u);
    BackOk(y.store, RootsOf(y), file, private, 0);
    CellAt(y, q, u);
    CellAt(y1, q, u);
    if MapAt(y, q, u).Some? {
      var b := MapArea(y, q, u);
      SuperKeeps(y.store, y1.store, b.obj, b.PageOf(u));
      KeptCell(y.store, y1.store, b.obj, b.PageOf(u));
    }
  }

  lemma KeptCell(s: Store, s1: Store, o: ObjId, pn: PageNum)
    requires KeepsPage(s, s1, o, pn)
    ensures CellOf(s1, o, pn) == CellOf(s, o, pn)
  {
  }
}
