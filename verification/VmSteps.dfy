/** Every step of the virtual-memory system keeps its invariant. */
module VmSteps {
  import opened Basics
  import opened MemObjects
  import opened ObjectRefs
  import opened ObjectPages
  import opened Vmmap
  import opened VirtualMemory

  // ------------------------------------------------------------------ roots

  function RootCount(procs: seq<Proc>, o: ObjId): nat {
    if procs == [] then 0 else Count(procs[0].areas, o) + RootCount(procs[1..], o)
  }

  lemma {:induction false} RootsCount(procs: seq<Proc>, o: ObjId)
    ensures Roots(procs)[o] == RootCount(procs, o)
  {
    if procs != [] {
      RootsCount(procs[1..], o);
      CountIs(procs[0].areas, o);
    }
  }

  lemma {:induction false} RootUpdate(procs: seq<Proc>, p: Pid, pr: Proc, o: ObjId)
    requires p < |procs|
    ensures RootCount(procs[p := pr], o) + Count(procs[p].areas, o) == RootCount(procs, o) + Count(pr.areas, o)
  {
    if p == 0 {
      assert procs[p := pr][1..] == procs[1..];
    } else {
      assert procs[p := pr][1..] == procs[1..][p - 1 := pr];
      RootUpdate(procs[1..], p - 1, pr, o);
    }
  }

  lemma {:induction false} RootAppend(procs: seq<Proc>, pr: Proc, o: ObjId)
    ensures RootCount(procs + [pr], o) == RootCount(procs, o) + Count(pr.areas, o)
  {
    if procs == [] {
      assert procs + [pr] == [pr];
    } else {
      assert (procs + [pr])[1..] == procs[1..] + [pr];
      RootAppend(procs[1..], pr, o);
    }
  }

  lemma {:induction false} CountMember(areas: seq<Area>, a: Area)
    requires a in areas
    ensures Count(areas, a.obj) > 0
  {
    if areas[0] != a { CountMember(areas[1..], a); }
  }

  lemma {:induction false} RootMember(procs: seq<Proc>, p: Pid, a: Area)
    requires InProc(procs, p, a)
    ensures RootCount(procs, a.obj) > 0
  {
    if p == 0 {
      CountMember(procs[0].areas, a);
    } else {
      assert procs[1..][p - 1] == procs[p];
      RootMember(procs[1..], p - 1, a);
    }
  }

  /** Every area's object exists and is referenced. */
  lemma AreaRooted(y: Sys, p: Pid, a: Area)
    requires Inv(y.store, RootsOf(y)) && InProc(y.procs, p, a)
    ensures a.obj in y.store.objs && a.obj < y.store.nextObj && a.obj in RootsOf(y)
    ensures External(y.store.objs, RootsOf(y), a.obj) > 0
  {
    RootMember(y.procs, p, a);
    RootsCount(y.procs, a.obj);
    RootsExist(y.store, RootsOf(y), a.obj);
    hide Inv;
  }

  // ---------------------------------------------------------------- mappings

  /** The mapping of page v of process p, if any. */
  function MapAt(y: Sys, p: Pid, v: Vpn): Option<Mapping> {
    if p < |y.procs| then At(y.procs[p].areas, v) else None
  }

  /** The cell behind page v of process p, if it is mapped. */
  function PageCell(y: Sys, p: Pid, v: Vpn): Option<Cell> {
    var m := MapAt(y, p, v);
    if m.None? then None else Some(CellOf(y.store, m.value.obj, m.value.pn))
  }

  /** The contents of page v of process p. */
  function PageValue(y: Sys, p: Pid, v: Vpn): Option<Page> {
    var c := PageCell(y, p, v);
    if c.None? then None else CellValue(y.store, c.value)
  }

  /** A mapped page comes from an area whose object is live. */
  lemma MapArea(y: Sys, p: Pid, v: Vpn) returns (a: Area)
    requires Inv(y.store, RootsOf(y)) && TopsOk(y) && MapAt(y, p, v).Some?
    ensures InProc(y.procs, p, a) && a.Covers(v) && TopOk(y, a)
    ensures MapAt(y, p, v) == Some(Mapping(a.obj, a.PageOf(v), a.prot, a.private))
    ensures a.obj in y.store.objs && External(y.store.objs, RootsOf(y), a.obj) > 0
  {
    var i := AtSome(y.procs[p].areas, v);
    a := y.procs[p].areas[i];
    AreaRooted(y, p, a);
    hide Inv;
  }

  /** Two different pages never show the same page of a private top object. */
  lemma MapsApart(y: Sys, p: Pid, v: Vpn, q: Pid, u: Vpn)
    requires Inv(y.store, RootsOf(y)) && TopsOk(y) && AllApart(y.procs)
    requires MapAt(y, p, v).Some? && MapAt(y, q, u).Some? && (p != q || v != u)
    requires MapAt(y, p, v).value.private
    ensures MapAt(y, p, v).value.obj != MapAt(y, q, u).value.obj || MapAt(y, p, v).value.pn != MapAt(y, q, u).value.pn
  {
    var a := MapArea(y, p, v);
    var b := MapArea(y, q, u);
    assert Apart(p, a, q, b);
  }

  /** An entry stays right when its mapping and its page are kept. */
  lemma PteStill(y: Sys, y1: Sys, q: Pid, u: Vpn)
    requires q < |y.procs| && q < |y1.procs| && u in y.procs[q].pt && u in y1.procs[q].pt
    requires PteOk(y, q, u) && y1.procs[q].pt[u] == y.procs[q].pt[u]
    requires MapAt(y1, q, u) == MapAt(y, q, u)
    requires KeepsPage(y.store, y1.store, MapAt(y, q, u).value.obj, MapAt(y, q, u).value.pn)
    ensures PteOk(y1, q, u)
  {
  }

  // --------------------------------------------------------- load and store

  /** What the hardware reads through an entry is the page's contents. */
  lemma LoadIsValue(y: Sys, p: Pid, v: Vpn)
    requires SysInv(y) && p < |y.procs| && v in y.procs[p].pt
    ensures PageValue(y, p, v) == Some(LoadFrom(y, p, v))
  {
    assert PteOk(y, p, v);
    var a := MapArea(y, p, v);
    FindIsView(y.store, a.obj, a.PageOf(v));
  }

  lemma {:induction false} FindHasFrame(objs: Objs, o: ObjId, pn: PageNum) returns (owner: ObjId)
    requires Find(objs, o, pn).Some?
    ensures HasFrame(objs, owner, pn, Find(objs, o, pn).value)
  {
    if Private(objs, o, pn).Some? {
      owner := PrivateHasFrame(objs, o, pn);
    } else {
      owner := Bottom(objs, o);
    }
  }

  lemma StoreInv(y: Sys, p: Pid, v: Vpn, d: Page)
    requires SysInv(y) && p < |y.procs| && v in y.procs[p].pt
    ensures SysInv(StoreTo(y, p, v, d))
  {
    assert PteOk(y, p, v);
    var m := MapAt(y, p, v).value;
    var owner := FindHasFrame(y.store.objs, m.obj, m.pn);
    WriteInv(y.store, RootsOf(y), y.procs[p].pt[v].frame, d);
    var y1 := StoreTo(y, p, v, d);
    hide Inv;
    forall q: Pid, u: Vpn | q < |y1.procs| && u in y1.procs[q].pt ensures PteOk(y1, q, u) {
      assert PteOk(y, q, u);
    }
    forall q: Pid, a: Area | InProc(y1.procs, q, a) ensures TopOk(y1, a) {
      assert TopOk(y, a);
    }
    hide PteOk, TopOk, AllApart;
  }

  /** The frame of a writable entry is the top object's own, and nowhere else. */
  lemma WritableFrame(y: Sys, p: Pid, v: Vpn)
    requires SysInv(y) && p < |y.procs| && v in y.procs[p].pt && y.procs[p].pt[v].write
    ensures MapAt(y, p, v).Some?
    ensures var m := MapAt(y, p, v).value; var f := y.procs[p].pt[v].frame;
      && HasFrame(y.store.objs, m.obj, m.pn, f)
      && (forall x: ObjId, r: PageNum :: HasFrame(y.store.objs, x, r, f) ==> x == m.obj && r == m.pn)
      && m.private == IsShadow(y.store.objs, m.obj)
      && (m.private ==> Above(y.store.objs, m.obj) == {})
  {
    assert PteOk(y, p, v);
    var a := MapArea(y, p, v);
    assert HasFrame(y.store.objs, a.obj, a.PageOf(v), y.procs[p].pt[v].frame);
  }

  /** Writing a frame that a chain does not find leaves its cell. */
  lemma OtherFrame(s: Store, f: FrameId, d: Page, o: ObjId, pn: PageNum)
    requires Private(s.objs, o, pn) != Some(f)
    ensures CellOf(s.(mem := s.mem[f := d]), o, pn) == CellOf(s, o, pn)
  {
  }

  lemma OwnFrame(s: Store, f: FrameId, d: Page, o: ObjId, pn: PageNum)
    requires HasFrame(s.objs, o, pn, f) && IsShadow(s.objs, o)
    ensures CellOf(s.(mem := s.mem[f := d]), o, pn) == Own(d)
  {
  }

  /** A store to a private page changes that page of that process and no other cell. */
  lemma PrivateStoreCells(y: Sys, p: Pid, v: Vpn, d: Page, q: Pid, u: Vpn)
    requires SysInv(y) && p < |y.procs| && v in y.procs[p].pt && y.procs[p].pt[v].write
    requires MapAt(y, p, v).value.private
    ensures PageCell(StoreTo(y, p, v, d), q, u) == if q == p && u == v then Some(Own(d)) else PageCell(y, q, u)
  {
    hide Inv, CellOf, HasFrame, TopsOk, AllApart, AllSorted, Coherent, At, IsShadow;
    WritableFrame(y, p, v);
    var f, m := y.procs[p].pt[v].frame, MapAt(y, p, v).value;
    if q == p && u == v {
      OwnFrame(y.store, f, d, m.obj, m.pn);
    } else if MapAt(y, q, u).Some? {
      var k := MapAt(y, q, u).value;
      MapsApart(y, p, v, q, u);
      OnlyTopFinds(y.store.objs, m.obj, m.pn, f, k.obj, k.pn);
      OtherFrame(y.store, f, d, k.obj, k.pn);
    }
  }

  /** A store to a shared page changes that page of the bottom object and no cell. */
  lemma SharedStoreCells(y: Sys, p: Pid, v: Vpn, d: Page, q: Pid, u: Vpn)
    requires SysInv(y) && p < |y.procs| && v in y.procs[p].pt && y.procs[p].pt[v].write
    requires !MapAt(y, p, v).value.private
    ensures PageCell(StoreTo(y, p, v, d), q, u) == PageCell(y, q, u)
  {
    hide SysInv, CellOf, At;
    WritableFrame(y, p, v);
    var f := y.procs[p].pt[v].frame;
    var m := MapAt(y, q, u);
    if m.Some? {
      if Private(y.store.objs, m.value.obj, m.value.pn).Some? {
        var owner := PrivateHasFrame(y.store.objs, m.value.obj, m.value.pn);
      }
      OtherFrame(y.store, f, d, m.value.obj, m.value.pn);
    }
  }

  /** A store changes the contents of a bottom page only through a shared mapping of that page. */
  lemma StoreBottoms(y: Sys, p: Pid, v: Vpn, d: Page, b: ObjId, pn: PageNum)
    requires SysInv(y) && p < |y.procs| && v in y.procs[p].pt && y.procs[p].pt[v].write
    requires b in y.store.objs && !IsShadow(y.store.objs, b)
    ensures BottomValue(StoreTo(y, p, v, d).store, b, pn) ==
      if MapAt(y, p, v).value.obj == b && MapAt(y, p, v).value.pn == pn then Some(d) else BottomValue(y.store, b, pn)
  {
    hide SysInv, At, MapAt;
    WritableFrame(y, p, v);
    if pn in y.store.objs[b].pages {
      assert HasFrame(y.store.objs, b, pn, y.store.objs[b].pages[pn]);
    }
  }

  // ------------------------------------------------------------- page fault

  /** The lookup a page fault makes. */
  function FaultLookup(y: Sys, m: Mapping, write: bool): Got {
    if write then GetForWrite(y.store, m.obj, m.pn) else MemObjects.Lookup(y.store, m.obj, m.pn)
  }

  lemma FaultStoreInv(y: Sys, p: Pid, v: Vpn, write: bool)
    requires SysInv(y) && MapAt(y, p, v).Some?
    ensures Inv(FaultLookup(y, MapAt(y, p, v).value, write).s, RootsOf(y))
  {
    var a := MapArea(y, p, v);
    hide Inv;
    if write {
      WriteLookupInv(y.store, RootsOf(y), a.obj, a.PageOf(v));
    } else {
      LookupInv(y.store, RootsOf(y), a.obj, a.PageOf(v));
    }
  }

  /** The lookup keeps every object's place, and every page but the one written through a private area. */
  lemma FaultKeeps(y: Sys, p: Pid, v: Vpn, write: bool, x: ObjId, q: PageNum)
    requires SysInv(y) && MapAt(y, p, v).Some? && x in y.store.objs
    ensures KeepsTop(y.store, FaultLookup(y, MapAt(y, p, v).value, write).s, x)
    ensures !(write && MapAt(y, p, v).value.private && x == MapAt(y, p, v).value.obj && q == MapAt(y, p, v).value.pn) ==>
      KeepsPage(y.store, FaultLookup(y, MapAt(y, p, v).value, write).s, x, q)
  {
    var a := MapArea(y, p, v);
    var o, pn := a.obj, a.PageOf(v);
    if write && a.private {
      WriteLookupKeepsTop(y.store, RootsOf(y), o, pn, x);
      if x != o || q != pn { WriteLookupKeepsPage(y.store, RootsOf(y), o, pn, x, q); }
    } else {
      LookupKeepsPage(y.store, o, pn, x, q);
    }
    hide *;
  }

  /** The frame found is the one the chain shows; for a write, the top object owns it. */
  lemma FaultFrame(y: Sys, p: Pid, v: Vpn, write: bool)
    requires SysInv(y) && MapAt(y, p, v).Some?
    ensures var m := MapAt(y, p, v).value;
      var g := FaultLookup(y, m, write);
      && (g.frame.Some? <==> PageValue(y, p, v).Some?)
      && (g.frame.Some? ==>
            && Find(g.s.objs, m.obj, m.pn) == g.frame
            && (write ==> Resident(g.s.objs, m.obj, m.pn) == g.frame))
  {
    var a := MapArea(y, p, v);
    var o, pn := a.obj, a.PageOf(v);
    if write && a.private {
      WriteLookupOwns(y.store, o, pn);
    } else {
      LookupCorrect(y.store, o, pn);
      LookupKeepsPage(y.store, o, pn, o, pn);
    }
  }

  lemma FaultTops(y: Sys, p: Pid, v: Vpn, write: bool, y1: Sys)
    requires SysInv(y) && MapAt(y, p, v).Some?
    requires y1.store == FaultLookup(y, MapAt(y, p, v).value, write).s && y1.fs == y.fs
    requires forall q: Pid, a: Area :: InProc(y1.procs, q, a) ==> InProc(y.procs, q, a)
    ensures TopsOk(y1)
  {
    forall q: Pid, a: Area | InProc(y1.procs, q, a) ensures TopOk(y1, a) {
      assert TopOk(y, a);
      AreaRooted(y, q, a);
      FaultKeeps(y, p, v, write, a.obj, 0);
    }
    hide *;
  }

  lemma FaultCoherentAt(y: Sys, p: Pid, v: Vpn, write: bool, y1: Sys, q: Pid, u: Vpn)
    requires SysInv(y) && MapAt(y, p, v).Some? && (write ==> MapAt(y, p, v).value.prot.write)
    requires var g := FaultLookup(y, MapAt(y, p, v).value, write);
      g.frame.Some? && y1 == SetProc(y, g.s, p, y.procs[p].(pt := y.procs[p].pt[v := Pte(g.frame.value, write)]))
    requires q < |y1.procs| && u in y1.procs[q].pt
    ensures PteOk(y1, q, u)
  {
    assert MapAt(y1, q, u) == MapAt(y, q, u);
    if q == p && u == v {
      FaultFrame(y, p, v, write);
    } else {
      assert u in y.procs[q].pt && PteOk(y, q, u);
      var m := MapAt(y, p, v).value;
      if m.private { MapsApart(y, p, v, q, u); }
      var b := MapArea(y, q, u);
      FaultKeeps(y, p, v, write, b.obj, b.PageOf(u));
      hide SysInv, KeepsPage, FaultLookup;
      PteStill(y, y1, q, u);
    }
  }

  lemma FaultInv(y: Sys, p: Pid, v: Vpn, write: bool)
    requires SysInv(y) && p < |y.procs|
    ensures SysInv(Fault(y, p, v, write).y)
  {
    var m := MapAt(y, p, v);
    if y.low <= v < y.high && m.Some? && m.value.prot.read && (write ==> m.value.prot.write) {
      var g := FaultLookup(y, m.value, write);
      var y1 := Fault(y, p, v, write).y;
      assert y1.store == g.s;
      FaultStoreInv(y, p, v, write);
      forall q: Pid | q < |y1.procs| ensures y1.procs[q].areas == y.procs[q].areas { }
      SameAreas(y, y1);
      FaultTops(y, p, v, write, y1);
      if g.frame.Some? {
        forall q: Pid, u: Vpn | q < |y1.procs| && u in y1.procs[q].pt ensures PteOk(y1, q, u) {
          FaultCoherentAt(y, p, v, write, y1, q, u);
        }
        hide Inv, PteOk, TopsOk, AllApart, AllSorted, FaultLookup;
      } else {
        FaultKilledCoherent(y, p, v, write);
        hide Inv, TopsOk, AllApart, AllSorted, Coherent;
      }
    }
  }

  lemma FaultKilledCoherent(y: Sys, p: Pid, v: Vpn, write: bool)
    requires SysInv(y) && MapAt(y, p, v).Some? && FaultLookup(y, MapAt(y, p, v).value, write).frame.None?
    ensures Coherent(y.(store := FaultLookup(y, MapAt(y, p, v).value, write).s))
  {
    var y1 := y.(store := FaultLookup(y, MapAt(y, p, v).value, write).s);
    FaultFrame(y, p, v, write);
    forall q: Pid, u: Vpn | q < |y1.procs| && u in y1.procs[q].pt ensures PteOk(y1, q, u) {
      assert PteOk(y, q, u);
      var m := MapAt(y, p, v).value;
      if m.private && (q != p || u != v) { MapsApart(y, p, v, q, u); }
      if q == p && u == v { LoadIsValue(y, q, u); assert false; }
      var b := MapArea(y, q, u);
      FaultKeeps(y, p, v, write, b.obj, b.PageOf(u));
      PteStill(y, y1, q, u);
    }
    hide *;
  }

  /** Steps that leave the areas alone keep what is said about areas only. */
  lemma SameAreas(y: Sys, y1: Sys)
    requires |y1.procs| == |y.procs| && y1.low == y.low && y1.high == y.high && y1.fs == y.fs
    requires forall q: Pid :: q < |y.procs| ==> y1.procs[q].areas == y.procs[q].areas
    ensures AllSorted(y) ==> AllSorted(y1)
    ensures AllApart(y.procs) ==> AllApart(y1.procs)
    ensures RootsOf(y1) == RootsOf(y)
    ensures forall q: Pid, a: Area :: InProc(y1.procs, q, a) <==> InProc(y.procs, q, a)
  {
    SameRoots(y.procs, y1.procs);
  }

  lemma {:induction false} SameRoots(procs: seq<Proc>, procs1: seq<Proc>)
    requires |procs1| == |procs|
    requires forall q: Pid :: q < |procs| ==> procs1[q].areas == procs[q].areas
    ensures Roots(procs1) == Roots(procs)
  {
    if procs != [] {
      SameRoots(procs[1..], procs1[1..]);
    }
  }

  /** A page fault changes one cell at most: a write to a private page makes it that process's own copy. */
  lemma FaultCells(y: Sys, p: Pid, v: Vpn, write: bool, q: Pid, u: Vpn)
    requires SysInv(y) && p < |y.procs|
    ensures Fault(y, p, v, write).Resumed? ==> PageValue(y, p, v).Some?
    ensures PageCell(Fault(y, p, v, write).y, q, u) ==
      if Fault(y, p, v, write).Resumed? && write && MapAt(y, p, v).value.private && q == p && u == v
      then Some(Own(PageValue(y, p, v).value)) else PageCell(y, q, u)
  {
    var y1 := Fault(y, p, v, write).y;
    var m := MapAt(y, p, v);
    if y.low <= v < y.high && m.Some? && m.value.prot.read && (write ==> m.value.prot.write) {
      assert y1.store == FaultLookup(y, m.value, write).s;
      assert MapAt(y1, q, u) == MapAt(y, q, u);
      FaultFrame(y, p, v, write);
      if MapAt(y, q, u).Some? {
        var b := MapArea(y, q, u);
        if write && m.value.private && q == p && u == v {
          WriteLookupOwns(y.store, b.obj, b.PageOf(u));
          if y1.store == FaultLookup(y, m.value, write).s && FaultLookup(y, m.value, write).frame.None? {
            FaultFailKeeps(y, p, v);
          }
        } else {
          if m.value.private && (q != p || u != v) { MapsApart(y, p, v, q, u); }
          FaultKeeps(y, p, v, write, b.obj, b.PageOf(u));
        }
      }
    }
  }

  lemma FaultFailKeeps(y: Sys, p: Pid, v: Vpn)
    requires SysInv(y) && MapAt(y, p, v).Some? && MapAt(y, p, v).value.private
    requires GetForWrite(y.store, MapAt(y, p, v).value.obj, MapAt(y, p, v).value.pn).frame.None?
    ensures var m := MapAt(y, p, v).value;
      CellOf(GetForWrite(y.store, m.obj, m.pn).s, m.obj, m.pn) == CellOf(y.store, m.obj, m.pn)
  {
    var a := MapArea(y, p, v);
    var o, pn := a.obj, a.PageOf(v);
    CopyLookupCorrect(y.store, o, pn);
    FailRestores(y.store, o, pn);
    BumpFrame(y.store, RootsOf(y));
    assert KeepsAt(y.store, y.store.(nextFrame := y.store.nextFrame + 1), o, pn);
    hide Inv;
  }

  /** A page fault changes no page of a bottom object. */
  lemma FaultBottoms(y: Sys, p: Pid, v: Vpn, write: bool, b: ObjId, pn: PageNum)
    requires SysInv(y) && p < |y.procs| && b in y.store.objs && !IsShadow(y.store.objs, b)
    ensures b in Fault(y, p, v, write).y.store.objs
    ensures BottomValue(Fault(y, p, v, write).y.store, b, pn) == BottomValue(y.store, b, pn)
  {
    var m := MapAt(y, p, v);
    if y.low <= v < y.high && m.Some? && m.value.prot.read && (write ==> m.value.prot.write) {
      assert Fault(y, p, v, write).y.store == FaultLookup(y, m.value, write).s;
      var a := MapArea(y, p, v);
      FaultKeeps(y, p, v, write, b, pn);
    }
  }

  /** The page is inside the user bounds, mapped with the access asked for, and has contents. */
  ghost predicate Serviceable(y: Sys, p: Pid, v: Vpn, write: bool) {
    && y.low <= v < y.high && MapAt(y, p, v).Some?
    && MapAt(y, p, v).value.prot.read && (write ==> MapAt(y, p, v).value.prot.write)
    && PageValue(y, p, v).Some?
  }

  ghost predicate SameEntry(pt1: map<Vpn, Pte>, pt: map<Vpn, Pte>, u: Vpn) {
    (u in pt1 <==> u in pt) && (u in pt ==> pt1[u] == pt[u])
  }

  /** A fault is resumed exactly when the access is allowed and the page exists. */
  lemma FaultResumes(y: Sys, p: Pid, v: Vpn, write: bool)
    requires SysInv(y) && p < |y.procs|
    ensures Fault(y, p, v, write).Resumed? <==> Serviceable(y, p, v, write)
  {
    hide SysInv, At, PageValue;
    if MapAt(y, p, v).Some? { FaultFrame(y, p, v, write); }
  }

  /**
   * What a fault leaves in the page tables: the page asked for, with the access
   * asked for and its contents as before, if it is resumed, and every other
   * entry of every process as it was.
   */
  lemma FaultEntries(y: Sys, p: Pid, v: Vpn, write: bool)
    requires SysInv(y) && p < |y.procs|
    ensures var r := Fault(y, p, v, write);
      && |r.y.procs| == |y.procs|
      && (forall q: Pid :: q < |y.procs| ==> r.y.procs[q].areas == y.procs[q].areas)
      && (forall q: Pid, u: Vpn :: q < |y.procs| && (q != p || u != v) ==> SameEntry(r.y.procs[q].pt, y.procs[q].pt, u))
      && (r.Killed? ==> SameEntry(r.y.procs[p].pt, y.procs[p].pt, v))
      && (r.Resumed? ==> v in r.y.procs[p].pt && r.y.procs[p].pt[v].write == write)
      && (r.Resumed? ==> PageValue(y, p, v) == Some(LoadFrom(r.y, p, v)))
  {
    hide SysInv, At, PageValue, GetForWrite, MemObjects.Lookup, Content;
    if Fault(y, p, v, write).Resumed? { FaultLoads(y, p, v, write); }
  }

  /** The contents of the page asked for are as before. */
  lemma FaultLoads(y: Sys, p: Pid, v: Vpn, write: bool)
    requires SysInv(y) && p < |y.procs| && Fault(y, p, v, write).Resumed?
    ensures v in Fault(y, p, v, write).y.procs[p].pt
    ensures PageValue(y, p, v) == Some(LoadFrom(Fault(y, p, v, write).y, p, v))
  {
    hide SysInv, At, GetForWrite, MemObjects.Lookup, LoadFrom, BottomValue, CellOf;
    var y1 := Fault(y, p, v, write).y;
    FaultInv(y, p, v, write);
    LoadIsValue(y1, p, v);
    FaultCells(y, p, v, write, p, v);
    if PageCell(y, p, v).value.Follow? {
      var c := PageCell(y, p, v).value;
      FollowBottom(y, p, v, c.b, c.pn);
      FaultBottoms(y, p, v, write, c.b, c.pn);
    }
  }

  /** The bottom object a page follows exists. */
  lemma FollowBottom(y: Sys, p: Pid, v: Vpn, b: ObjId, pn: PageNum)
    requires SysInv(y) && PageCell(y, p, v) == Some(Follow(b, pn))
    ensures b in y.store.objs && !IsShadow(y.store.objs, b)
  {
    var a := MapArea(y, p, v);
    BottomIsEnd(y.store.objs, a.obj);
  }
}
