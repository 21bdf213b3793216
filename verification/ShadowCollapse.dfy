/**
 * The shadow daemon's collapse walk (kernel/proc/vm/shadowd.c:66-104 with
 * pframe_migrate, kernel/mm/pframe.c:277-298): a shadow object with a single
 * parent is merged into the object above it.
 */
module ShadowCollapse {
  import opened MemObjects

  /** The pages of the upper object after the lower one's have been migrated: the upper page wins. */
  function Migrated(upper: map<PageNum, FrameId>, lower: map<PageNum, FrameId>): map<PageNum, FrameId> {
    (lower - upper.Keys) + upper
  }

  /** The lower frames that an upper page makes superfluous. */
  function Superseded(upper: map<PageNum, FrameId>, lower: map<PageNum, FrameId>): set<FrameId> {
    set pn | pn in lower && pn in upper :: lower[pn]
  }

  function MergedObjs(objs: Objs, last: ObjId, o: ObjId): Objs
    requires IsShadow(objs, last) && IsShadow(objs, o)
  {
    var up := objs[last];
    var lo := objs[o];
    (objs - {o})[last := Obj(Shadow(lo.kind.shadowed, up.kind.bottom),
                             up.refcount + |lo.pages - up.pages.Keys|,
                             Migrated(up.pages, lo.pages))]
  }

  /** Migrate every page of o into last, link last past o and free o. */
  function Merge(s: Store, last: ObjId, o: ObjId): Store
    requires IsShadow(s.objs, last) && IsShadow(s.objs, o)
  {
    s.(objs := MergedObjs(s.objs, last, o), mem := s.mem - Superseded(s.objs[last].pages, s.objs[o].pages))
  }

  /** o is the object last shadows, and nothing else refers to o. */
  ghost predicate Single(objs: Objs, roots: multiset<ObjId>, last: ObjId, o: ObjId) {
    && IsShadow(objs, last) && IsShadow(objs, o) && objs[last].kind.shadowed == o
    && External(objs, roots, o) == 1
  }

  lemma SingleParent(objs: Objs, roots: multiset<ObjId>, last: ObjId, o: ObjId)
    requires Single(objs, roots, last, o)
    ensures Above(objs, o) == {last} && roots[o] == 0
  {
    assert last in Above(objs, o);
    assert |Above(objs, o) - {last}| == |Above(objs, o)| - 1;
    assert Above(objs, o) - {last} == {};
  }

  // ---------------------------------------------------------------- chains

  lemma MergeClosed(objs: Objs, last: ObjId, o: ObjId)
    requires Closed(objs) && IsShadow(objs, last) && IsShadow(objs, o)
    requires objs[last].kind.shadowed == o && Above(objs, o) == {last}
    ensures Closed(MergedObjs(objs, last, o))
  {
    var objs1 := MergedObjs(objs, last, o);
    forall x | IsShadow(objs1, x) ensures objs1[x].kind.shadowed < x && objs1[x].kind.shadowed in objs1 {
      assert IsShadow(objs, x);
      if x != last {
        assert x !in Above(objs, o);
      }
    }
  }

  /** Every surviving object finds the same frame as before. */
  lemma {:induction false} MergeChain(objs: Objs, last: ObjId, o: ObjId, x: ObjId, pn: PageNum)
    requires Closed(objs) && IsShadow(objs, last) && IsShadow(objs, o)
    requires objs[last].kind.shadowed == o && Above(objs, o) == {last}
    requires x in objs && x != o
    ensures Private(MergedObjs(objs, last, o), x, pn) == Private(objs, x, pn)
    ensures Bottom(MergedObjs(objs, last, o), x) == Bottom(objs, x)
    decreases x
  {
    if IsShadow(objs, x) {
      if x == last {
        MergeChain(objs, last, o, objs[o].kind.shadowed, pn);
      } else {
        assert x !in Above(objs, o);
        MergeChain(objs, last, o, objs[x].kind.shadowed, pn);
      }
    }
  }

  lemma MergeChainOk(objs: Objs, last: ObjId, o: ObjId)
    requires ChainOk(objs) && IsShadow(objs, last) && IsShadow(objs, o)
    requires objs[last].kind.shadowed == o && Above(objs, o) == {last}
    ensures ChainOk(MergedObjs(objs, last, o))
  {
    var objs1 := MergedObjs(objs, last, o);
    MergeClosed(objs, last, o);
    forall x | IsShadow(objs1, x) ensures objs1[x].kind.bottom == Bottom(objs1, x) {
      assert IsShadow(objs, x);
      MergeChain(objs, last, o, x, 0);
    }
  }

  // ---------------------------------------------------------------- frames

  /** Where a frame of the merged store was before. */
  lemma MergeFrame(objs: Objs, last: ObjId, o: ObjId, x: ObjId, pn: PageNum, f: FrameId)
    requires IsShadow(objs, last) && IsShadow(objs, o) && last != o
    requires HasFrame(MergedObjs(objs, last, o), x, pn, f)
    ensures HasFrame(objs, x, pn, f) || (x == last && pn !in objs[last].pages && HasFrame(objs, o, pn, f))
  {
  }

  lemma MergeKeptFrame(s: Store, last: ObjId, o: ObjId, x: ObjId, pn: PageNum, f: FrameId)
    requires FramesOk(s) && IsShadow(s.objs, last) && IsShadow(s.objs, o) && last != o
    requires HasFrame(Merge(s, last, o).objs, x, pn, f)
    ensures f in Merge(s, last, o).mem
  {
    MergeFrame(s.objs, last, o, x, pn, f);
    if f in Superseded(s.objs[last].pages, s.objs[o].pages) {
      var q: PageNum :| q in s.objs[o].pages && q in s.objs[last].pages && s.objs[o].pages[q] == f;
      assert HasFrame(s.objs, o, q, f);
      assert false;
    }
  }

  lemma MergeFrames(s: Store, last: ObjId, o: ObjId)
    requires FramesOk(s) && IsShadow(s.objs, last) && IsShadow(s.objs, o) && last != o
    ensures FramesOk(Merge(s, last, o))
  {
    var s1 := Merge(s, last, o);
    forall x: ObjId, pn: PageNum, f: FrameId | HasFrame(s1.objs, x, pn, f) ensures f in s1.mem && f < s1.nextFrame {
      MergeKeptFrame(s, last, o, x, pn, f);
    }
    forall o1: ObjId, p1: PageNum, o2: ObjId, p2: PageNum, f: FrameId
      | HasFrame(s1.objs, o1, p1, f) && HasFrame(s1.objs, o2, p2, f)
      ensures o1 == o2 && p1 == p2
    {
      MergeFrame(s.objs, last, o, o1, p1, f);
      MergeFrame(s.objs, last, o, o2, p2, f);
    }
  }

  // ------------------------------------------------------------ references

  lemma MigratedSize(upper: map<PageNum, FrameId>, lower: map<PageNum, FrameId>)
    ensures |Migrated(upper, lower)| == |upper| + |lower - upper.Keys|
  {
    assert Migrated(upper, lower).Keys == upper.Keys + (lower - upper.Keys).Keys;
    assert upper.Keys !! (lower - upper.Keys).Keys;
    assert |Migrated(upper, lower)| == |Migrated(upper, lower).Keys|;
  }

  /** The links of the merged objects. */
  lemma MergedLinks(objs: Objs, last: ObjId, o: ObjId, y: ObjId)
    requires IsShadow(objs, last) && IsShadow(objs, o) && last != o
    ensures y in MergedObjs(objs, last, o) <==> y in objs && y != o
    ensures y in objs && y != o && y != last ==> MergedObjs(objs, last, o)[y] == objs[y]
    ensures MergedObjs(objs, last, o)[last].kind == Shadow(objs[o].kind.shadowed, objs[last].kind.bottom)
  {
  }

  lemma MergeAbove(objs: Objs, last: ObjId, o: ObjId, x: ObjId)
    requires Closed(objs) && IsShadow(objs, last) && IsShadow(objs, o)
    requires objs[last].kind.shadowed == o && Above(objs, o) == {last} && x != o
    ensures |Above(MergedObjs(objs, last, o), x)| == |Above(objs, x)|
  {
    var objs1 := MergedObjs(objs, last, o);
    var a := if x == objs[o].kind.shadowed then Above(objs, x) - {o} + {last} else Above(objs, x);
    assert last !in Above(objs, x);
    forall y ensures y in Above(objs1, x) <==> y in a {
      MergedLinks(objs, last, o, y);
      hide MergedObjs;
    }
    assert Above(objs1, x) == a;
  }

  lemma MergeCounted(objs: Objs, roots: multiset<ObjId>, last: ObjId, o: ObjId, x: ObjId)
    requires Closed(objs) && Single(objs, roots, last, o) && x in MergedObjs(objs, last, o)
    requires x in objs && Counted(objs, roots, x)
    ensures Counted(MergedObjs(objs, last, o), roots, x)
  {
    SingleParent(objs, roots, last, o);
    MergeAbove(objs, last, o, x);
    MigratedSize(objs[last].pages, objs[o].pages);
    hide Migrated, Above;
  }

  lemma MergeRefs(objs: Objs, roots: multiset<ObjId>, last: ObjId, o: ObjId)
    requires Closed(objs) && RefsOk(objs, roots) && Single(objs, roots, last, o)
    ensures RefsOk(MergedObjs(objs, last, o), roots)
  {
    SingleParent(objs, roots, last, o);
    hide Counted, External;
    forall x | x in MergedObjs(objs, last, o) ensures Counted(MergedObjs(objs, last, o), roots, x) {
      MergeCounted(objs, roots, last, o, x);
    }
  }

  lemma MergeInv(s: Store, roots: multiset<ObjId>, last: ObjId, o: ObjId)
    requires Inv(s, roots) && Single(s.objs, roots, last, o)
    ensures Inv(Merge(s, last, o), roots)
  {
    SingleParent(s.objs, roots, last, o);
    MergeChainOk(s.objs, last, o);
    MergeFrames(s, last, o);
    MergeRefs(s.objs, roots, last, o);
    hide RefsOk, FramesOk, ChainOk, External;
  }

  lemma MergeMeaningAt(s: Store, last: ObjId, o: ObjId, x: ObjId, pn: PageNum)
    requires Closed(s.objs) && FramesOk(s) && IsShadow(s.objs, last) && IsShadow(s.objs, o)
    requires s.objs[last].kind.shadowed == o && Above(s.objs, o) == {last}
    requires x in Merge(s, last, o).objs
    ensures SameAt(s, Merge(s, last, o), x, pn)
  {
    var s1 := Merge(s, last, o);
    MergeChain(s.objs, last, o, x, pn);
    MergeClosed(s.objs, last, o);
    BottomIsEnd(s1.objs, x);
    BottomIsEnd(s.objs, x);
    if Private(s1.objs, x, pn).Some? {
      var owner := PrivateHasFrame(s1.objs, x, pn);
      MergeKeptFrame(s, last, o, owner, pn, Private(s1.objs, x, pn).value);
    }
    MergeBottomValue(s, last, o, Bottom(s.objs, x), pn);
    if !IsShadow(s.objs, x) { MergeBottomValue(s, last, o, x, pn); }
  }

  lemma MergeBottomValue(s: Store, last: ObjId, o: ObjId, b: ObjId, pn: PageNum)
    requires FramesOk(s) && IsShadow(s.objs, last) && IsShadow(s.objs, o) && last != o
    requires b in s.objs && !IsShadow(s.objs, b)
    ensures b in Merge(s, last, o).objs && Merge(s, last, o).objs[b] == s.objs[b]
    ensures BottomValue(Merge(s, last, o), b, pn) == BottomValue(s, b, pn)
  {
    if pn in s.objs[b].pages {
      assert HasFrame(Merge(s, last, o).objs, b, pn, s.objs[b].pages[pn]);
      MergeKeptFrame(s, last, o, b, pn, s.objs[b].pages[pn]);
    }
  }

  lemma MergeMeaning(s: Store, last: ObjId, o: ObjId)
    requires Closed(s.objs) && FramesOk(s) && IsShadow(s.objs, last) && IsShadow(s.objs, o)
    requires s.objs[last].kind.shadowed == o && Above(s.objs, o) == {last}
    ensures SameMeaning(s, Merge(s, last, o))
  {
    forall x: ObjId, pn: PageNum | x in Merge(s, last, o).objs ensures SameAt(s, Merge(s, last, o), x, pn) {
      MergeMeaningAt(s, last, o, x, pn);
    }
    hide SameAt, Merge;
  }

  // -------------------------------------------------------------- the walk

  /** References to o other than those of its resident pages, as the walk computes them. */
  function Parents(objs: Objs, o: ObjId): int
    requires o in objs
  {
    objs[o].refcount - |objs[o].pages|
  }

  /** The walk down one chain, from object last with o directly below it. */
  function Walk(s: Store, last: ObjId, o: ObjId): Store
    decreases o
  {
    if !IsShadow(s.objs, o) || !IsShadow(s.objs, last) || s.objs[o].kind.shadowed >= o then s
    else if Parents(s.objs, o) == 1 then Walk(Merge(s, last, o), last, s.objs[o].kind.shadowed)
    else Walk(s, o, s.objs[o].kind.shadowed)
  }

  /** One area's share of a pass of the daemon. */
  function Collapse(s: Store, top: ObjId): Store {
    if IsShadow(s.objs, top) then Walk(s, top, s.objs[top].kind.shadowed) else s
  }

  lemma SameMeaningTrans(s: Store, s1: Store, s2: Store)
    requires SameMeaning(s, s1) && SameMeaning(s1, s2)
    ensures SameMeaning(s, s2)
  {
    forall x: ObjId, pn: PageNum | x in s2.objs ensures SameAt(s, s2, x, pn) {
      assert SameAt(s1, s2, x, pn);
      assert SameAt(s, s1, x, pn);
    }
  }

  lemma SameMeaningRefl(s: Store)
    ensures SameMeaning(s, s)
  {
  }

  lemma WalkSingle(s: Store, roots: multiset<ObjId>, last: ObjId, o: ObjId)
    requires Inv(s, roots) && IsShadow(s.objs, last) && IsShadow(s.objs, o) && s.objs[last].kind.shadowed == o
    ensures Parents(s.objs, o) == 1 <==> Single(s.objs, roots, last, o)
  {
    assert Counted(s.objs, roots, o);
  }

  /**
   * A collapse walk keeps the store consistent (reference counts, finite
   * chains, bottom pointers) and every surviving object shows the same page
   * in the same frame; every root survives.
   */
  lemma {:induction false} WalkCorrect(s: Store, roots: multiset<ObjId>, last: ObjId, o: ObjId)
    requires Inv(s, roots) && IsShadow(s.objs, last) && s.objs[last].kind.shadowed == o
    ensures Inv(Walk(s, last, o), roots)
    ensures SameMeaning(s, Walk(s, last, o))
    ensures Walk(s, last, o).nextObj == s.nextObj
    decreases o
  {
    SameMeaningRefl(s);
    if IsShadow(s.objs, o) && s.objs[o].kind.shadowed < o {
      WalkSingle(s, roots, last, o);
      var below := s.objs[o].kind.shadowed;
      if Parents(s.objs, o) == 1 {
        SingleParent(s.objs, roots, last, o);
        MergeInv(s, roots, last, o);
        MergeMeaning(s, last, o);
        MergedLinks(s.objs, last, o, last);
        var s1 := Merge(s, last, o);
        hide Inv, SameMeaning, Single, MergedObjs, Parents;
        WalkCorrect(s1, roots, last, below);
        SameMeaningTrans(s, s1, Walk(s1, last, below));
      } else {
        hide Inv, SameMeaning, Single, Parents;
        WalkCorrect(s, roots, o, below);
      }
    }
    hide Inv, SameMeaning, Parents;
  }

  /** No shadow object strictly below x on its chain has a single parent. */
  ghost predicate NoSingles(objs: Objs, x: ObjId)
    decreases x
  {
    IsShadow(objs, x) && objs[x].kind.shadowed < x && IsShadow(objs, objs[x].kind.shadowed) ==>
      && Parents(objs, objs[x].kind.shadowed) != 1
      && NoSingles(objs, objs[x].kind.shadowed)
  }

  /** Merging keeps the number of last's parents and what is above last. */
  lemma MergeFrameAt(s: Store, last: ObjId, o: ObjId, x: ObjId)
    requires IsShadow(s.objs, last) && IsShadow(s.objs, o) && o < last && x in s.objs && x >= last
    ensures x in Merge(s, last, o).objs && Parents(Merge(s, last, o).objs, x) == Parents(s.objs, x)
    ensures x > last ==> Merge(s, last, o).objs[x] == s.objs[x]
  {
    MergedLinks(s.objs, last, o, x);
    MigratedSize(s.objs[last].pages, s.objs[o].pages);
  }

  /** The walk leaves alone what is above last, and the number of last's own parents. */
  lemma {:induction false} WalkFrame(s: Store, roots: multiset<ObjId>, last: ObjId, o: ObjId, x: ObjId)
    requires Inv(s, roots) && IsShadow(s.objs, last) && s.objs[last].kind.shadowed == o
    requires x in s.objs && x >= last
    ensures x in Walk(s, last, o).objs && Parents(Walk(s, last, o).objs, x) == Parents(s.objs, x)
    ensures x > last ==> Walk(s, last, o).objs[x] == s.objs[x]
    decreases o
  {
    if IsShadow(s.objs, o) && s.objs[o].kind.shadowed < o {
      var below := s.objs[o].kind.shadowed;
      assert o < last;
      if Parents(s.objs, o) == 1 {
        WalkSingle(s, roots, last, o);
        MergeInv(s, roots, last, o);
        MergeFrameAt(s, last, o, x);
        MergedLinks(s.objs, last, o, last);
        hide Inv, Parents, MergedObjs;
        WalkFrame(Merge(s, last, o), roots, last, below, x);
      } else {
        hide Inv, Parents;
        WalkFrame(s, roots, o, below, x);
      }
    }
  }

  /** After the walk no object below last on its chain has a single parent. */
  lemma {:induction false} WalkComplete(s: Store, roots: multiset<ObjId>, last: ObjId, o: ObjId)
    requires Inv(s, roots) && IsShadow(s.objs, last) && s.objs[last].kind.shadowed == o
    ensures NoSingles(Walk(s, last, o).objs, last)
    decreases o
  {
    if IsShadow(s.objs, o) && s.objs[o].kind.shadowed < o {
      var below := s.objs[o].kind.shadowed;
      assert o < last;
      if Parents(s.objs, o) == 1 {
        WalkSingle(s, roots, last, o);
        MergeInv(s, roots, last, o);
        MergedLinks(s.objs, last, o, last);
        hide Inv, Parents, MergedObjs, NoSingles;
        WalkComplete(Merge(s, last, o), roots, last, below);
      } else {
        WalkComplete(s, roots, o, below);
        WalkFrame(s, roots, o, below, o);
        WalkFrame(s, roots, o, below, last);
      }
    }
  }

  /** A page resident in a surviving object stays resident there, and a top object stays one. */
  lemma {:induction false} WalkResident(s: Store, roots: multiset<ObjId>, last: ObjId, o: ObjId, x: ObjId, pn: PageNum)
    requires Inv(s, roots) && IsShadow(s.objs, last) && s.objs[last].kind.shadowed == o
    requires x in Walk(s, last, o).objs
    ensures x in s.objs
    ensures Resident(s.objs, x, pn).Some? ==> Resident(Walk(s, last, o).objs, x, pn) == Resident(s.objs, x, pn)
    ensures Above(s.objs, x) == {} ==> Above(Walk(s, last, o).objs, x) == {}
    ensures Walk(s, last, o).objs[x].kind.File? == s.objs[x].kind.File?
    decreases o
  {
    if IsShadow(s.objs, o) && s.objs[o].kind.shadowed < o {
      var below := s.objs[o].kind.shadowed;
      if Parents(s.objs, o) == 1 {
        WalkSingle(s, roots, last, o);
        SingleParent(s.objs, roots, last, o);
        MergeInv(s, roots, last, o);
        MergedLinks(s.objs, last, o, last);
        var s1 := Merge(s, last, o);
        WalkResident(s1, roots, last, below, x, pn);
        MergedLinks(s.objs, last, o, x);
        MergeAbove(s.objs, last, o, x);
        MergeResident(s.objs, last, o, x, pn);
        hide Inv, MergedObjs, Single;
      } else {
        hide Inv;
        WalkResident(s, roots, o, below, x, pn);
      }
    }
  }

  lemma MergeResident(objs: Objs, last: ObjId, o: ObjId, x: ObjId, pn: PageNum)
    requires IsShadow(objs, last) && IsShadow(objs, o) && last != o && x != o
    ensures Resident(objs, x, pn).Some? ==> Resident(MergedObjs(objs, last, o), x, pn) == Resident(objs, x, pn)
  {
  }
}
