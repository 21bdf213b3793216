/**
 * The shadow daemon asserts that an object it does not absorb has exactly two
 * parents (kernel/proc/vm/shadowd.c:95): when that holds.
 */
module ShadowAssertion {
  import opened MemObjects
  import opened ShadowCollapse

  /** The walk's assertion at every object it meets. */
  ghost predicate Asserted(s: Store, last: ObjId, o: ObjId)
    decreases o
  {
    IsShadow(s.objs, o) && IsShadow(s.objs, last) && s.objs[o].kind.shadowed < o ==>
      if Parents(s.objs, o) == 1 then Asserted(Merge(s, last, o), last, s.objs[o].kind.shadowed)
      else Parents(s.objs, o) == 2 && Asserted(s, o, s.objs[o].kind.shadowed)
  }

  /** No shadow object from o down its chain has more than two parents. */
  ghost predicate AtMostTwo(objs: Objs, o: ObjId)
    decreases o
  {
    IsShadow(objs, o) && objs[o].kind.shadowed < o ==>
      Parents(objs, o) <= 2 && AtMostTwo(objs, objs[o].kind.shadowed)
  }

  lemma {:induction false} AtMostTwoFrame(objs: Objs, objs1: Objs, x: ObjId)
    requires forall y :: y <= x ==> (y in objs1 <==> y in objs) && (y in objs ==> objs1[y] == objs[y])
    ensures AtMostTwo(objs, x) <==> AtMostTwo(objs1, x)
    decreases x
  {
    if IsShadow(objs, x) && objs[x].kind.shadowed < x {
      AtMostTwoFrame(objs, objs1, objs[x].kind.shadowed);
    }
  }

  /** An object that another shadows has a parent. */
  lemma HasParent(s: Store, roots: multiset<ObjId>, last: ObjId, o: ObjId)
    requires Inv(s, roots) && IsShadow(s.objs, last) && s.objs[last].kind.shadowed == o && o in s.objs
    ensures Parents(s.objs, o) >= 1
  {
    assert last in Above(s.objs, o);
    assert Counted(s.objs, roots, o);
  }

  /**
   * The assertion holds throughout a walk exactly when no shadow object
   * below the top had more than two parents before it.
   */
  lemma {:induction false} AssertedExactly(s: Store, roots: multiset<ObjId>, last: ObjId, o: ObjId)
    requires Inv(s, roots) && IsShadow(s.objs, last) && s.objs[last].kind.shadowed == o
    ensures Asserted(s, last, o) <==> AtMostTwo(s.objs, o)
    decreases o
  {
    hide Inv, Merge, Parents;
    LinksDown(s, roots, last, o);
    if IsShadow(s.objs, o) {
      var below := s.objs[o].kind.shadowed;
      HasParent(s, roots, last, o);
      if Parents(s.objs, o) == 1 {
        AbsorbFrame(s, roots, last, o);
        AssertedExactly(Merge(s, last, o), roots, last, below);
      } else {
        AssertedExactly(s, roots, o, below);
      }
    }
  }

  lemma LinksDown(s: Store, roots: multiset<ObjId>, last: ObjId, o: ObjId)
    requires Inv(s, roots) && IsShadow(s.objs, last) && s.objs[last].kind.shadowed == o
    ensures o in s.objs && o < last && (IsShadow(s.objs, o) ==> s.objs[o].kind.shadowed < o)
  {
  }

  /** Absorbing o leaves last above the object that o was above, and nothing below o changes. */
  lemma AbsorbFrame(s: Store, roots: multiset<ObjId>, last: ObjId, o: ObjId)
    requires Inv(s, roots) && IsShadow(s.objs, last) && s.objs[last].kind.shadowed == o
    requires IsShadow(s.objs, o) && Parents(s.objs, o) == 1
    ensures Inv(Merge(s, last, o), roots) && IsShadow(Merge(s, last, o).objs, last)
    ensures Merge(s, last, o).objs[last].kind.shadowed == s.objs[o].kind.shadowed
    ensures AtMostTwo(s.objs, s.objs[o].kind.shadowed) <==> AtMostTwo(Merge(s, last, o).objs, s.objs[o].kind.shadowed)
  {
    hide AtMostTwo, Inv, Parents, Single, MergedObjs;
    LinksDown(s, roots, last, o);
    WalkSingle(s, roots, last, o);
    MergeInv(s, roots, last, o);
    MergedLinks(s.objs, last, o, last);
    forall y: ObjId | y < o
      ensures (y in Merge(s, last, o).objs <==> y in s.objs) && (y in s.objs ==> Merge(s, last, o).objs[y] == s.objs[y])
    {
      MergedLinks(s.objs, last, o, y);
    }
    AtMostTwoFrame(s.objs, Merge(s, last, o).objs, s.objs[o].kind.shadowed);
  }
}
