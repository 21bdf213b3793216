/** The loop of fork over the areas: new objects, references and what they show. */
module VmFork {
  import opened MemObjects
  import opened ObjectRefs
  import opened ObjectPages
  import opened Vmmap
  import opened VirtualMemory
  import opened VmMapping

  // ------------------------------------------------------------ fork's loop

  ghost predicate Fresh(s: Store) { forall x :: x in s.objs ==> x < s.nextObj }

  /** The areas' objects exist. */
  ghost predicate Backed(objs: Objs, areas: seq<Area>) {
    forall i :: 0 <= i < |areas| ==> areas[i].obj in objs
  }

  lemma BackedAt(objs: Objs, areas: seq<Area>, i: nat)
    requires Backed(objs, areas) && i < |areas|
    ensures areas[i].obj in objs
  {
  }

  lemma NewShadowShape(s: Store, o: ObjId)
    requires Fresh(s) && Closed(s.objs) && FramesOk(s) && o in s.objs
    ensures Fresh(NewShadow(s, o)) && Closed(NewShadow(s, o).objs) && FramesOk(NewShadow(s, o))
    ensures SubObjs(s.objs, NewShadow(s, o).objs) && NewShadow(s, o).mem == s.mem
    ensures NewShadow(s, o).nextObj == s.nextObj + 1
    ensures IsShadow(NewShadow(s, o).objs, s.nextObj) && NewShadow(s, o).objs[s.nextObj].kind.shadowed == o
  {
    var s1 := NewShadow(s, o);
    forall x | IsShadow(s1.objs, x) ensures s1.objs[x].kind.shadowed < x && s1.objs[x].kind.shadowed in s1.objs {
      if x != s.nextObj { assert IsShadow(s.objs, x); }
    }
    AddObjFrames(s, s1.objs[s.nextObj].kind);
  }

  lemma ForkOneShape(s: Store, a: Area)
    requires Fresh(s) && Closed(s.objs) && FramesOk(s) && a.obj in s.objs
    ensures Fresh(ForkOne(s, a)) && Closed(ForkOne(s, a).objs) && FramesOk(ForkOne(s, a))
    ensures SubObjs(s.objs, ForkOne(s, a).objs) && ForkOne(s, a).mem == s.mem
    ensures ForkOne(s, a).nextObj == s.nextObj + (if a.private then 2 else 0)
  {
    if a.private {
      var s1 := NewShadow(s, a.obj);
      NewShadowShape(s, a.obj);
      assert a.obj in s1.objs;
      NewShadowShape(s1, a.obj);
      SubObjsTrans(s.objs, s1.objs, ForkOne(s, a).objs);
    }
    hide SubObjs, FramesOk, Closed, NewShadow;
  }

  /** fork's loop, one area at a time. */
  lemma ForkStep(s: Store, areas: seq<Area>)
    requires areas != []
    ensures ForkLoop(s, areas).s == ForkLoop(ForkOne(s, areas[0]), areas[1..]).s
    ensures ForkLoop(s, areas).parent ==
      [ParentArea(s, areas[0])] + ForkLoop(ForkOne(s, areas[0]), areas[1..]).parent
    ensures ForkLoop(s, areas).child ==
      [ChildArea(s, areas[0])] + ForkLoop(ForkOne(s, areas[0]), areas[1..]).child
  {
  }

  lemma BackedRest(s: Store, areas: seq<Area>)
    requires Fresh(s) && Closed(s.objs) && FramesOk(s) && areas != [] && Backed(s.objs, areas)
    ensures Backed(ForkOne(s, areas[0]).objs, areas[1..])
  {
    ForkOneShape(s, areas[0]);
    hide ForkOne;
  }

  lemma {:induction false} ForkShape(s: Store, areas: seq<Area>)
    requires Fresh(s) && Closed(s.objs) && FramesOk(s) && Backed(s.objs, areas)
    ensures var f := ForkLoop(s, areas);
      && |f.parent| == |areas| && |f.child| == |areas|
      && Fresh(f.s) && Closed(f.s.objs) && FramesOk(f.s)
      && SubObjs(s.objs, f.s.objs) && f.s.mem == s.mem && s.nextObj <= f.s.nextObj
    decreases |areas|
  {
    if areas != [] {
      var s1 := ForkOne(s, areas[0]);
      ForkOneShape(s, areas[0]);
      BackedRest(s, areas);
      ForkShape(s1, areas[1..]);
      SubObjsTrans(s.objs, s1.objs, ForkLoop(s1, areas[1..]).s.objs);
    } else {
      assert SubObjs(s.objs, s.objs);
    }
    hide SubObjs, FramesOk, Closed, Fresh, NewShadow, Backed;
  }

  /** Only the objects of private areas get something above them. */
  lemma {:induction false} ForkAbove(s: Store, areas: seq<Area>, x: ObjId)
    requires Fresh(s) && Closed(s.objs) && FramesOk(s) && Backed(s.objs, areas)
    requires forall i :: 0 <= i < |areas| && areas[i].private ==> areas[i].obj != x
    ensures Above(ForkLoop(s, areas).s.objs, x) == Above(s.objs, x)
    decreases |areas|
  {
    if areas != [] {
      ForkOneShape(s, areas[0]);
      BackedRest(s, areas);
      ForkAbove(ForkOne(s, areas[0]), areas[1..], x);
      if areas[0].private {
        var o := areas[0].obj;
        var s1 := NewShadow(s, o);
        NewShadowShape(s, o);
        AddObjAbove(s.objs, s.nextObj, s1.objs[s.nextObj].kind, x);
        AddObjAbove(s1.objs, s1.nextObj, NewShadow(s1, o).objs[s1.nextObj].kind, x);
      }
    }
    hide FramesOk, Closed, Backed;
  }

  /** b is a with its object replaced, when a is private, by a new object numbered in [lo, hi). */
  ghost predicate TwinOf(b: Area, a: Area, lo: nat, hi: nat) {
    b == Retarget(a, b.obj) && (a.private ==> lo <= b.obj < hi)
  }

  lemma {:induction false} ForkTwins(s: Store, areas: seq<Area>, i: nat)
    requires Fresh(s) && Closed(s.objs) && FramesOk(s) && Backed(s.objs, areas) && i < |areas|
    ensures var f := ForkLoop(s, areas);
      && i < |f.parent| && i < |f.child|
      && TwinOf(f.parent[i], areas[i], s.nextObj, f.s.nextObj)
      && TwinOf(f.child[i], areas[i], s.nextObj, f.s.nextObj)
      && (areas[i].private ==> f.child[i].obj < f.parent[i].obj)
    decreases |areas|
  {
    hide SubObjs, FramesOk, Closed, Fresh, Backed, ForkOne;
    BackedAt(s.objs, areas, 0);
    var s1 := ForkOne(s, areas[0]);
    ForkOneShape(s, areas[0]);
    ForkOneNext(s, areas[0]);
    BackedRest(s, areas);
    ForkShape(s1, areas[1..]);
    if i > 0 {
      ForkTwins(s1, areas[1..], i - 1);
    }
  }

  lemma ForkOneNext(s: Store, a: Area)
    ensures ForkOne(s, a).nextObj == s.nextObj + if a.private then 2 else 0
  {
  }

  /** New objects of later areas have later numbers. */
  lemma {:induction false} ForkOrder(s: Store, areas: seq<Area>, i: nat, j: nat)
    requires Fresh(s) && Closed(s.objs) && FramesOk(s) && Backed(s.objs, areas) && i < j < |areas|
    requires areas[i].private && areas[j].private
    ensures j < |ForkLoop(s, areas).parent| && j < |ForkLoop(s, areas).child|
    ensures ForkLoop(s, areas).parent[i].obj < ForkLoop(s, areas).child[j].obj
    decreases |areas|
  {
    hide SubObjs, FramesOk, Closed, Fresh, Backed, ForkOne, ForkLoop;
    BackedAt(s.objs, areas, 0);
    var s1 := ForkOne(s, areas[0]);
    ForkOneShape(s, areas[0]);
    BackedRest(s, areas);
    ForkStep(s, areas);
    ForkShape(s1, areas[1..]);
    ForkTwins(s1, areas[1..], j - 1);
    if i > 0 {
      ForkOrder(s1, areas[1..], i - 1, j - 1);
    }
  }

  // --------------------------------------------------------- what fork shows

  /** A new shadow object on top of o shows what o shows, and so do the old objects. */
  lemma NewShadowCells(s: Store, o: ObjId, x: ObjId, pn: PageNum)
    requires Fresh(s) && Closed(s.objs) && FramesOk(s) && o in s.objs && (x in s.objs || x == s.nextObj)
    ensures CellOf(NewShadow(s, o), x, pn) == CellOf(s, if x == s.nextObj then o else x, pn)
  {
    if x == s.nextObj {
      NewShadowMeaning(s, o, pn);
      if Private(s.objs, o, pn).Some? { var owner := PrivateHasFrame(s.objs, o, pn); }
    } else {
      NewShadowShape(s, o);
      SuperKeeps(s, NewShadow(s, o), x, pn);
    }
  }

  lemma ForkOneCells(s: Store, a: Area, pn: PageNum)
    requires Fresh(s) && Closed(s.objs) && FramesOk(s) && a.obj in s.objs && a.private
    ensures CellOf(ForkOne(s, a), s.nextObj, pn) == CellOf(s, a.obj, pn)
    ensures CellOf(ForkOne(s, a), s.nextObj + 1, pn) == CellOf(s, a.obj, pn)
    ensures s.nextObj in ForkOne(s, a).objs && s.nextObj + 1 in ForkOne(s, a).objs
    ensures IsShadow(ForkOne(s, a).objs, s.nextObj) && IsShadow(ForkOne(s, a).objs, s.nextObj + 1)
  {
    var s1 := NewShadow(s, a.obj);
    NewShadowShape(s, a.obj);
    NewShadowShape(s1, a.obj);
    NewShadowCells(s, a.obj, s.nextObj, pn);
    NewShadowCells(s, a.obj, a.obj, pn);
    NewShadowCells(s1, a.obj, s.nextObj, pn);
    NewShadowCells(s1, a.obj, s1.nextObj, pn);
    hide CellOf, FramesOk, Closed, NewShadow;
  }

  /** Old objects keep their cells through fork's loop. */
  lemma ForkKeeps(s: Store, areas: seq<Area>, x: ObjId, pn: PageNum)
    requires Fresh(s) && Closed(s.objs) && FramesOk(s) && Backed(s.objs, areas) && x in s.objs
    ensures KeepsPage(s, ForkLoop(s, areas).s, x, pn)
  {
    ForkShape(s, areas);
    SuperKeeps(s, ForkLoop(s, areas).s, x, pn);
    hide SubObjs, FramesOk, Closed, Fresh, Backed, ForkLoop;
  }

  lemma ForkFirstCells(s: Store, areas: seq<Area>, pn: PageNum)
    requires Fresh(s) && Closed(s.objs) && FramesOk(s) && Backed(s.objs, areas) && areas != [] && areas[0].private
    ensures var f := ForkLoop(s, areas);
      && CellOf(f.s, s.nextObj, pn) == CellOf(s, areas[0].obj, pn)
      && CellOf(f.s, s.nextObj + 1, pn) == CellOf(s, areas[0].obj, pn)
      && IsShadow(f.s.objs, s.nextObj) && IsShadow(f.s.objs, s.nextObj + 1)
  {
    assert areas[0].obj in s.objs;
    hide SubObjs, FramesOk, Closed, Fresh, Backed, ForkLoop, ForkOne, CellOf, BottomValue, Find, Resident;
    var s1 := ForkOne(s, areas[0]);
    ForkStep(s, areas);
    ForkOneShape(s, areas[0]);
    BackedRest(s, areas);
    ForkOneCells(s, areas[0], pn);
    ForkKeeps(s1, areas[1..], s.nextObj, pn);
    ForkKeeps(s1, areas[1..], s.nextObj + 1, pn);
  }

  /** Parent and child see every page of an area as the parent saw it. */
  lemma {:induction false} ForkCells(s: Store, areas: seq<Area>, i: nat, pn: PageNum)
    requires Fresh(s) && Closed(s.objs) && FramesOk(s) && Backed(s.objs, areas) && i < |areas|
    ensures var f := ForkLoop(s, areas);
      && i < |f.parent| && i < |f.child|
      && CellOf(f.s, f.parent[i].obj, pn) == CellOf(s, areas[i].obj, pn)
      && CellOf(f.s, f.child[i].obj, pn) == CellOf(s, areas[i].obj, pn)
      && (areas[i].private ==> IsShadow(f.s.objs, f.parent[i].obj) && IsShadow(f.s.objs, f.child[i].obj))
    decreases |areas|
  {
    hide SubObjs, FramesOk, Closed, Fresh, Backed, ForkLoop, ForkOne, CellOf, BottomValue, Find, Resident;
    BackedAt(s.objs, areas, 0);
    BackedAt(s.objs, areas, i);
    var s1 := ForkOne(s, areas[0]);
    ForkStep(s, areas);
    ForkShape(s, areas);
    if i > 0 {
      ForkOneShape(s, areas[0]);
      BackedRest(s, areas);
      ForkOneKeeps(s, areas[0], areas[i].obj, pn);
      ForkCells(s1, areas[1..], i - 1, pn);
    } else if areas[0].private {
      ForkFirstCells(s, areas, pn);
    } else {
      ForkKeeps(s, areas, areas[0].obj, pn);
    }
  }

  lemma ForkOneKeeps(s: Store, a: Area, x: ObjId, pn: PageNum)
    requires Fresh(s) && Closed(s.objs) && FramesOk(s) && a.obj in s.objs && x in s.objs
    ensures CellOf(ForkOne(s, a), x, pn) == CellOf(s, x, pn)
  {
    ForkOneShape(s, a);
    SuperKeeps(s, ForkOne(s, a), x, pn);
  }

  // ------------------------------------------------------------- references

  /** fork's loop trades the two references to each private object for one to each new shadow. */
  lemma {:induction false} ForkLoopInv(s: Store, base: multiset<ObjId>, areas: seq<Area>)
    requires Inv(s, base + ObjsOf(areas) + ObjsOf(areas))
    ensures Inv(ForkLoop(s, areas).s, base + ObjsOf(ForkLoop(s, areas).parent) + ObjsOf(ForkLoop(s, areas).child))
    decreases |areas|
  {
    if areas != [] {
      hide Inv, ForkOne, ForkLoop, ObjsOf, ParentArea, ChildArea;
      var a := areas[0];
      var c, p := ChildArea(s, a).obj, ParentArea(s, a).obj;
      var rest := ForkLoop(ForkOne(s, a), areas[1..]);
      ForkOneInv(s, base, areas);
      ForkStep(s, areas);
      ForkLoopInv(ForkOne(s, a), base + multiset{p} + multiset{c}, areas[1..]);
      ConsObjs(ParentArea(s, a), rest.parent);
      ConsObjs(ChildArea(s, a), rest.child);
      Regroup(base, p, c, ObjsOf(rest.parent), ObjsOf(rest.child));
    }
  }

  lemma ConsObjs(a: Area, areas: seq<Area>)
    ensures ObjsOf([a] + areas) == multiset{a.obj} + ObjsOf(areas)
  {
    assert ([a] + areas)[1..] == areas;
  }

  lemma HeadTail(areas: seq<Area>)
    requires areas != []
    ensures ObjsOf(areas) == multiset{areas[0].obj} + ObjsOf(areas[1..])
  {
  }

  lemma Regroup(base: multiset<ObjId>, x: ObjId, y: ObjId, m: multiset<ObjId>, n: multiset<ObjId>)
    ensures base + multiset{x} + multiset{y} + m + n == base + (multiset{x} + m) + (multiset{y} + n)
  {
  }

  lemma ForkOneInv(s: Store, base: multiset<ObjId>, areas: seq<Area>)
    requires areas != [] && Inv(s, base + ObjsOf(areas) + ObjsOf(areas))
    ensures Inv(ForkOne(s, areas[0]), base + multiset{ParentArea(s, areas[0]).obj} + multiset{ChildArea(s, areas[0]).obj}
                                      + ObjsOf(areas[1..]) + ObjsOf(areas[1..]))
  {
    hide Inv, NewShadow;
    var a := areas[0];
    var m := ObjsOf(areas[1..]);
    HeadTail(areas);
    Regroup(base, a.obj, a.obj, m, m);
    hide ObjsOf;
    if a.private {
      ForkPairInv(s, base, a.obj, m);
      NewShadowNext(s, a.obj);
    }
  }

  lemma NewShadowNext(s: Store, o: ObjId)
    ensures NewShadow(s, o).nextObj == s.nextObj + 1
  {
  }

  lemma ForkPairInv(s: Store, base: multiset<ObjId>, o: ObjId, m: multiset<ObjId>)
    requires Inv(s, base + multiset{o} + multiset{o} + m + m)
    ensures Inv(NewShadow(NewShadow(s, o), o), base + multiset{s.nextObj + 1} + multiset{s.nextObj} + m + m)
  {
    hide Inv, NewShadow;
    NewShadowInv(s, base + multiset{o} + multiset{o} + m + m, o);
    TradeOne(base, o, s.nextObj, m);
    NewShadowInv(NewShadow(s, o), base + multiset{o} + multiset{s.nextObj} + m + m, o);
    NewShadowNext(s, o);
    TradeTwo(base, o, s.nextObj, s.nextObj + 1, m);
  }

  lemma TradeOne(base: multiset<ObjId>, o: ObjId, c: ObjId, m: multiset<ObjId>)
    ensures base + multiset{o} + multiset{o} + m + m - multiset{o} + multiset{c} == base + multiset{o} + multiset{c} + m + m
  {
  }

  lemma TradeTwo(base: multiset<ObjId>, o: ObjId, c: ObjId, p: ObjId, m: multiset<ObjId>)
    ensures base + multiset{o} + multiset{c} + m + m - multiset{o} + multiset{p} == base + multiset{p} + multiset{c} + m + m
  {
  }
}
