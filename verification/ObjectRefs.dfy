/**
 * Reference counts of memory objects through creation, reference and
 * repeated release.
 */
module ObjectRefs {
  import opened MemObjects

  lemma RefInv(s: Store, roots: multiset<ObjId>, o: ObjId)
    requires Inv(s, roots) && o in s.objs
    ensures Inv(Ref(s, o), roots + multiset{o})
  {
    hide RefsOk, FramesOk, ChainOk, AddRef, SubObjs;
    AddRefShape(s.objs, o, 1);
    SameShape(s, Ref(s, o));
    RefRefs(s.objs, roots, o);
  }

  lemma RefRefs(objs: Objs, roots: multiset<ObjId>, o: ObjId)
    requires RefsOk(objs, roots) && o in objs
    ensures RefsOk(AddRef(objs, o, 1), roots + multiset{o})
  {
    forall x | x in AddRef(objs, o, 1) ensures Counted(AddRef(objs, o, 1), roots + multiset{o}, x) {
      AddRefShape(objs, o, 1);
    }
    hide Counted;
  }

  /** The objects above x after a new object has been added. */
  lemma AddObjAbove(objs: Objs, o: ObjId, kind: Kind, x: ObjId)
    requires o !in objs
    ensures Above(AddObj(objs, o, kind), x) == Above(objs, x) + (if kind.Shadow? && kind.shadowed == x then {o} else {})
  {
  }

  lemma AddObjChain(objs: Objs, o: ObjId, kind: Kind)
    requires ChainOk(objs) && o !in objs
    requires kind.Shadow? ==> kind.shadowed < o && kind.shadowed in objs && kind.bottom == Bottom(objs, kind.shadowed)
    ensures ChainOk(AddObj(objs, o, kind)) && SubObjs(objs, AddObj(objs, o, kind))
  {
    var objs1 := AddObj(objs, o, kind);
    forall x | IsShadow(objs1, x)
      ensures objs1[x].kind.shadowed < x && objs1[x].kind.shadowed in objs1
      ensures objs1[x].kind.bottom == Bottom(objs1, x)
    {
      if x != o {
        assert IsShadow(objs, x);
        SubChain(objs, objs1, x, 0);
      } else {
        SubChain(objs, objs1, kind.shadowed, 0);
      }
    }
  }

  lemma AddObjFrames(s: Store, kind: Kind)
    requires FramesOk(s) && s.nextObj !in s.objs
    ensures FramesOk(NewObj(s, kind))
  {
    var s1 := NewObj(s, kind);
    forall o, pn: PageNum, f | HasFrame(s1.objs, o, pn, f) ensures HasFrame(s.objs, o, pn, f) { }
  }

  /** anon_create: the caller holds the one reference to the new object. */
  lemma NewAnonInv(s: Store, roots: multiset<ObjId>)
    requires Inv(s, roots)
    ensures Inv(NewObj(s, Anon), roots + multiset{s.nextObj})
  {
    AddObjChain(s.objs, s.nextObj, Anon);
    AddObjFrames(s, Anon);
    NewAnonRefs(s.objs, roots, s.nextObj);
    hide RefsOk, FramesOk, ChainOk, External;
  }

  lemma NewAnonRefs(objs: Objs, roots: multiset<ObjId>, o: ObjId)
    requires RefsOk(objs, roots) && o !in objs && Closed(objs)
    ensures RefsOk(AddObj(objs, o, Anon), roots + multiset{o})
  {
    forall x | x in AddObj(objs, o, Anon) ensures Counted(AddObj(objs, o, Anon), roots + multiset{o}, x) {
      AddObjAbove(objs, o, Anon, x);
      NothingAbove(objs, o);
    }
    hide Counted;
  }

  lemma NothingAbove(objs: Objs, o: ObjId)
    requires Closed(objs) && o !in objs
    ensures Above(objs, o) == {}
  {
    forall x | x in objs ensures x !in Above(objs, o) {
      assert IsShadow(objs, x) ==> objs[x].kind.shadowed in objs;
    }
  }

  /** Putting a new shadow object on top of o trades a root on o for a root on the new object. */
  lemma NewShadowInv(s: Store, roots: multiset<ObjId>, o: ObjId)
    requires Inv(s, roots) && o in roots
    ensures Inv(NewShadow(s, o), roots - multiset{o} + multiset{s.nextObj})
  {
    var kind := Shadow(o, if IsShadow(s.objs, o) then s.objs[o].kind.bottom else o);
    AddObjChain(s.objs, s.nextObj, kind);
    AddObjFrames(s, kind);
    NewShadowRefs(s.objs, roots, o, s.nextObj, kind);
    hide RefsOk, FramesOk, ChainOk, External;
  }

  lemma NewShadowRefs(objs: Objs, roots: multiset<ObjId>, o: ObjId, n: ObjId, kind: Kind)
    requires RefsOk(objs, roots) && Closed(objs)
    requires o in roots && n !in objs && kind.Shadow? && kind.shadowed == o
    ensures RefsOk(AddObj(objs, n, kind), roots - multiset{o} + multiset{n})
  {
    var roots1 := roots - multiset{o} + multiset{n};
    assert n !in roots;
    forall x | x in AddObj(objs, n, kind) ensures Counted(AddObj(objs, n, kind), roots1, x) {
      NewShadowExternal(objs, roots, o, n, kind, x);
    }
    hide Counted, External;
  }

  lemma NewShadowExternal(objs: Objs, roots: multiset<ObjId>, o: ObjId, n: ObjId, kind: Kind, x: ObjId)
    requires Closed(objs) && o in roots && n !in roots && n !in objs && kind.Shadow? && kind.shadowed == o
    ensures External(AddObj(objs, n, kind), roots - multiset{o} + multiset{n}, x) == (if x == n then 1 else External(objs, roots, x))
  {
    AddObjAbove(objs, n, kind, x);
    NothingAbove(objs, n);
  }

  /** A new shadow object shows exactly what the object below it shows. */
  lemma NewShadowMeaning(s: Store, o: ObjId, pn: PageNum)
    requires Closed(s.objs) && FramesOk(s) && s.nextObj !in s.objs && o in s.objs && o < s.nextObj
    ensures Private(NewShadow(s, o).objs, s.nextObj, pn) == Private(s.objs, o, pn)
    ensures Bottom(NewShadow(s, o).objs, s.nextObj) == Bottom(s.objs, o)
    ensures View(NewShadow(s, o), s.nextObj, pn) == View(s, o, pn)
  {
    var s1 := NewShadow(s, o);
    SubChain(s.objs, s1.objs, o, pn);
    assert IsShadow(s1.objs, s.nextObj);
    BottomIsEnd(s.objs, o);
  }

  /** Releasing a bag of references one after the other. */
  lemma {:induction false} PutAllInv(s: Store, roots: multiset<ObjId>, os: seq<ObjId>)
    requires Inv(s, roots) && multiset(os) <= roots
    ensures Inv(PutAll(s, os), roots - multiset(os))
    decreases |os|
  {
    if os != [] {
      FirstOut(roots, os);
      RootsExist(s, roots, os[0]);
      hide Inv, Put;
      PutKeepsInv(s, roots, os[0]);
      PutAllInv(Put(s, os[0]), roots - multiset{os[0]}, os[1..]);
    } else {
      assert roots - multiset(os) == roots;
    }
  }

  lemma FirstOut(roots: multiset<ObjId>, os: seq<ObjId>)
    requires os != [] && multiset(os) <= roots
    ensures os[0] in roots && multiset(os[1..]) <= roots - multiset{os[0]}
    ensures roots - multiset{os[0]} - multiset(os[1..]) == roots - multiset(os)
  {
    assert os == [os[0]] + os[1..];
  }

  lemma {:induction false} PutAllShrinks(s: Store, os: seq<ObjId>)
    ensures SubObjs(PutAll(s, os).objs, s.objs) && SubMem(PutAll(s, os), s)
    ensures PutAll(s, os).nextObj == s.nextObj && PutAll(s, os).nextFrame == s.nextFrame
    decreases |os|
  {
    hide SubObjs, SubMem, Put;
    ShrinkRefl(s);
    if os != [] && os[0] in s.objs {
      var s1 := Put(s, os[0]);
      PutShrinks(s, os[0]);
      PutAllShrinks(s1, os[1..]);
      ShrinkTrans(PutAll(s1, os[1..]), s1, s);
    } else if os != [] {
      PutAllShrinks(s, os[1..]);
    }
  }

  lemma ShrinkRefl(s: Store)
    ensures SubObjs(s.objs, s.objs) && SubMem(s, s)
  {
  }

  lemma RootsExist(s: Store, roots: multiset<ObjId>, o: ObjId)
    requires Inv(s, roots) && o in roots
    ensures o in s.objs && o < s.nextObj
  {
  }

  // ------------------------------------------------------ what put frees

  /** File objects, and anonymous objects without resident pages, are never freed by put. */
  predicate Spared(ob: Obj) { ob.kind.File? || (ob.kind.Anon? && |ob.pages| == 0) }

  lemma {:induction false} PutSpares(s: Store, o: ObjId, x: ObjId)
    requires o in s.objs && x in s.objs && Spared(s.objs[x])
    ensures x in Put(s, o).objs
    decreases o
  {
    var ob := s.objs[o];
    if ob.kind.Shadow? && ob.refcount - 1 == |ob.pages| {
      var s1 := Discard(s, o);
      if ob.kind.shadowed < o && ob.kind.shadowed in s1.objs {
        PutSpares(s1, ob.kind.shadowed, x);
      }
    }
  }

  /**
   * put and its cascade free an object exactly when no reference to it is
   * left, neither a root nor a surviving shadow object above it, unless it is
   * a file object or an anonymous object without resident pages.
   */
  lemma PutFreesExactly(s: Store, roots: multiset<ObjId>, o: ObjId, x: ObjId)
    requires Inv(s, roots) && o in roots && x in s.objs
    ensures x !in Put(s, o).objs <==>
      External(Put(s, o).objs, roots - multiset{o}, x) == 0 && !Spared(s.objs[x])
  {
    RootsExist(s, roots, o);
    PutKeepsInv(s, roots, o);
    PutShrinks(s, o);
    var s1 := Put(s, o);
    if x in s1.objs {
      assert Counted(s1.objs, roots - multiset{o}, x);
    } else {
      if Spared(s.objs[x]) {
        PutSpares(s, o, x);
        assert false;
      }
      NothingAbove(s1.objs, x);
    }
    hide Put, ChainOk, FramesOk;
  }

  /** One anonymous object, referenced once, none of whose pages was ever touched. */
  function Untouched(): Store { Store(map[0 := Obj(Anon, 1, map[])], map[], 1, 0) }

  /** Its last reference goes, and it stays behind with a count of zero. */
  lemma AnonLeak()
    ensures Untouched() == NewObj(Store(map[], map[], 0, 0), Anon) && Inv(Untouched(), multiset{0})
    ensures 0 in Put(Untouched(), 0).objs && Put(Untouched(), 0).objs[0].refcount == 0
    ensures External(Put(Untouched(), 0).objs, multiset{}, 0) == 0
  {
    assert Above(Untouched().objs, 0) == {};
    assert Above(Put(Untouched(), 0).objs, 0) == {};
    assert Counted(Untouched().objs, multiset{0}, 0);
  }
}
