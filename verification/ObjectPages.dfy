/**
 * Resident pages of memory objects: allocation, read lookup through a shadow
 * chain and copy-on-write (kernel/proc/vm/shadow.c:177-266, anon.c:150-190,
 * kernel/mm/pframe.c:228-258 and 339-407).
 */
module ObjectPages {
  import opened Basics
  import opened MemObjects

  /** What a step may not change about page pn of o: its cell, its bottom page and a frame already found. */
  ghost predicate KeepsAt(s: Store, s1: Store, o: ObjId, pn: PageNum) {
    && o in s1.objs
    && CellOf(s1, o, pn) == CellOf(s, o, pn)
    && IsShadow(s1.objs, o) == IsShadow(s.objs, o)
    && (!IsShadow(s.objs, o) ==> BottomValue(s1, o, pn) == BottomValue(s, o, pn))
    && (Find(s.objs, o, pn).Some? ==> Find(s1.objs, o, pn) == Find(s.objs, o, pn))
  }

  ghost predicate Keeps(s: Store, s1: Store) {
    forall o: ObjId, pn: PageNum :: o in s.objs ==> KeepsAt(s, s1, o, pn)
  }

  // ----------------------------------------------------- adding one frame

  /** The same objects with the same links. */
  ghost predicate SameKinds(objs: Objs, objs1: Objs) {
    && objs1.Keys == objs.Keys
    && (forall o :: o in objs ==> objs1[o].kind == objs[o].kind)
  }

  lemma {:induction false} SameKindsBottom(objs: Objs, objs1: Objs, o: ObjId)
    requires SameKinds(objs, objs1)
    ensures Bottom(objs1, o) == Bottom(objs, o)
    decreases o
  {
    if IsShadow(objs, o) && objs[o].kind.shadowed < o {
      SameKindsBottom(objs, objs1, objs[o].kind.shadowed);
    }
  }

  lemma SameKindsChain(objs: Objs, objs1: Objs)
    requires SameKinds(objs, objs1) && ChainOk(objs)
    ensures ChainOk(objs1)
  {
    forall o | IsShadow(objs1, o)
      ensures objs1[o].kind.shadowed < o && objs1[o].kind.shadowed in objs1
      ensures objs1[o].kind.bottom == Bottom(objs1, o)
    {
      assert IsShadow(objs, o);
      SameKindsBottom(objs, objs1, o);
    }
  }

  lemma AddPageKinds(objs: Objs, o: ObjId, pn: PageNum, f: FrameId)
    requires o in objs
    ensures SameKinds(objs, AddPage(objs, o, pn, f))
    ensures forall x :: Above(AddPage(objs, o, pn, f), x) == Above(objs, x)
  {
  }

  lemma AllocFrames(s: Store, o: ObjId, pn: PageNum, d: Page)
    requires FramesOk(s) && o in s.objs && pn !in s.objs[o].pages
    ensures FramesOk(AllocFrame(s, o, pn, d))
  {
    var s1 := AllocFrame(s, o, pn, d);
    forall x, q: PageNum, f | HasFrame(s1.objs, x, q, f)
      ensures HasFrame(s.objs, x, q, f) || (x == o && q == pn && f == s.nextFrame)
    {
    }
  }

  lemma AllocRefs(objs: Objs, roots: multiset<ObjId>, o: ObjId, pn: PageNum, f: FrameId)
    requires RefsOk(objs, roots) && o in objs && pn !in objs[o].pages && External(objs, roots, o) > 0
    ensures RefsOk(AddPage(objs, o, pn, f), roots)
  {
    forall x | x in AddPage(objs, o, pn, f) ensures Counted(AddPage(objs, o, pn, f), roots, x) {
      AddPageKinds(objs, o, pn, f);
      assert x in objs && Counted(objs, roots, x);
    }
    hide Counted;
  }

  lemma AllocFrameInv(s: Store, roots: multiset<ObjId>, o: ObjId, pn: PageNum, d: Page)
    requires Inv(s, roots) && o in s.objs && pn !in s.objs[o].pages && External(s.objs, roots, o) > 0
    ensures Inv(AllocFrame(s, o, pn, d), roots)
  {
    hide RefsOk, FramesOk, ChainOk, External, AddPage;
    AddPageKinds(s.objs, o, pn, s.nextFrame);
    SameKindsChain(s.objs, AddPage(s.objs, o, pn, s.nextFrame));
    AllocFrames(s, o, pn, d);
    AllocRefs(s.objs, roots, o, pn, s.nextFrame);
  }

  /** A new page is seen only for its own number and only from chains through its object. */
  lemma {:induction false} AddPagePrivate(objs: Objs, o: ObjId, pn: PageNum, f: FrameId, x: ObjId, q: PageNum)
    requires o in objs
    requires q != pn || !IsShadow(objs, o) || x < o || (x != o && Above(objs, o) == {})
    ensures Private(AddPage(objs, o, pn, f), x, q) == Private(objs, x, q)
    decreases x
  {
    if IsShadow(objs, x) && objs[x].kind.shadowed < x {
      assert objs[x].kind.shadowed == o ==> x in Above(objs, o);
      AddPagePrivate(objs, o, pn, f, objs[x].kind.shadowed, q);
    }
  }

  // ---------------------------------------------------------- read lookup

  /** The bottom of a shadow chain is referenced from the chain. */
  lemma {:induction false} BottomReferenced(objs: Objs, o: ObjId)
    requires Closed(objs) && IsShadow(objs, o)
    ensures Above(objs, Bottom(objs, o)) != {}
    decreases o
  {
    var below := objs[o].kind.shadowed;
    if IsShadow(objs, below) {
      BottomReferenced(objs, below);
    } else {
      assert o in Above(objs, below);
    }
  }

  lemma FillKeepsAt(s: Store, b: ObjId, pn: PageNum, d: Page, o: ObjId, q: PageNum)
    requires FramesOk(s) && b in s.objs && !IsShadow(s.objs, b)
    requires pn !in s.objs[b].pages && Fill(s.objs[b], pn) == Some(d) && o in s.objs
    ensures KeepsAt(s, AllocFrame(s, b, pn, d), o, q)
  {
    var s1 := AllocFrame(s, b, pn, d);
    AddPageKinds(s.objs, b, pn, s.nextFrame);
    AddPagePrivate(s.objs, b, pn, s.nextFrame, o, q);
    SameKindsBottom(s.objs, s1.objs, o);
    if Private(s.objs, o, q).Some? {
      var owner := PrivateHasFrame(s.objs, o, q);
      assert Private(s.objs, o, q).value < s.nextFrame;
    }
    if q in s.objs[o].pages {
      assert HasFrame(s.objs, o, q, s.objs[o].pages[q]);
    }
  }

  lemma FillKeeps(s: Store, b: ObjId, pn: PageNum, d: Page)
    requires FramesOk(s) && b in s.objs && !IsShadow(s.objs, b)
    requires pn !in s.objs[b].pages && Fill(s.objs[b], pn) == Some(d)
    ensures Keeps(s, AllocFrame(s, b, pn, d))
  {
    forall o: ObjId, q: PageNum | o in s.objs ensures KeepsAt(s, AllocFrame(s, b, pn, d), o, q) {
      FillKeepsAt(s, b, pn, d, o, q);
    }
    hide KeepsAt, AllocFrame;
  }

  lemma KeepsRefl(s: Store)
    ensures Keeps(s, s)
  {
  }

  /** Every frame found holds the page the object shows. */
  lemma FindIsView(s: Store, o: ObjId, pn: PageNum)
    requires Closed(s.objs) && o in s.objs
    ensures Find(s.objs, o, pn).Some? ==> View(s, o, pn) == Some(Content(s, Find(s.objs, o, pn).value))
    ensures Find(s.objs, o, pn).None? ==>
      Bottom(s.objs, o) in s.objs && View(s, o, pn) == Fill(s.objs[Bottom(s.objs, o)], pn)
  {
    BottomIsEnd(s.objs, o);
  }

  /**
   * A read lookup succeeds exactly when the page exists, returns the frame the
   * chain shows, and changes no page of any object.
   */
  lemma LookupCorrect(s: Store, o: ObjId, pn: PageNum)
    requires Closed(s.objs) && FramesOk(s) && o in s.objs
    ensures Keeps(s, Lookup(s, o, pn).s)
    ensures Lookup(s, o, pn).frame.Some? <==> View(s, o, pn).Some?
    ensures Lookup(s, o, pn).frame.Some? ==>
      && Find(Lookup(s, o, pn).s.objs, o, pn) == Lookup(s, o, pn).frame
      && Content(Lookup(s, o, pn).s, Lookup(s, o, pn).frame.value) == View(s, o, pn).value
  {
    FindIsView(s, o, pn);
    BottomIsEnd(s.objs, o);
    KeepsRefl(s);
    hide Keeps;
    var b := Bottom(s.objs, o);
    if Find(s.objs, o, pn).None? && Fill(s.objs[b], pn).Some? {
      var d := Fill(s.objs[b], pn).value;
      FillKeeps(s, b, pn, d);
      AddPageKinds(s.objs, b, pn, s.nextFrame);
      AddPagePrivate(s.objs, b, pn, s.nextFrame, o, pn);
      SameKindsBottom(s.objs, AllocFrame(s, b, pn, d).objs, o);
    }
  }

  lemma LookupInv(s: Store, roots: multiset<ObjId>, o: ObjId, pn: PageNum)
    requires Inv(s, roots) && o in s.objs && External(s.objs, roots, o) > 0
    ensures Inv(Lookup(s, o, pn).s, roots)
  {
    BottomIsEnd(s.objs, o);
    var b := Bottom(s.objs, o);
    if IsShadow(s.objs, o) { BottomReferenced(s.objs, o); }
    if Find(s.objs, o, pn).None? && Fill(s.objs[b], pn).Some? {
      AllocFrameInv(s, roots, b, pn, Fill(s.objs[b], pn).value);
    }
    hide Inv;
  }

  // -------------------------------------------------------- copy on write

  lemma KeepsAtTrans(s: Store, s1: Store, s2: Store, x: ObjId, q: PageNum)
    requires KeepsAt(s, s1, x, q) && KeepsAt(s1, s2, x, q)
    ensures KeepsAt(s, s2, x, q)
  {
  }

  /** Allocating a page of a top object is seen nowhere but in that page. */
  lemma TopAllocKeepsAt(s: Store, o: ObjId, pn: PageNum, d: Page, x: ObjId, q: PageNum)
    requires FramesOk(s) && IsShadow(s.objs, o) && Above(s.objs, o) == {} && x in s.objs
    requires x != o || q != pn
    ensures KeepsAt(s, AllocFrame(s, o, pn, d), x, q)
  {
    var s1 := AllocFrame(s, o, pn, d);
    AddPageKinds(s.objs, o, pn, s.nextFrame);
    AddPagePrivate(s.objs, o, pn, s.nextFrame, x, q);
    SameKindsBottom(s.objs, s1.objs, x);
    if Private(s.objs, x, q).Some? {
      var owner := PrivateHasFrame(s.objs, x, q);
      assert Private(s.objs, x, q).value < s.nextFrame;
    }
    if q in s.objs[x].pages {
      assert HasFrame(s.objs, x, q, s.objs[x].pages[q]);
    }
    if x != o { TopIsNotBottom(s.objs, o, x); }
  }

  lemma {:induction false} TopIsNotBottom(objs: Objs, o: ObjId, x: ObjId)
    requires IsShadow(objs, o) && Above(objs, o) == {} && x != o
    ensures Bottom(objs, x) != o
    decreases x
  {
    if IsShadow(objs, x) && objs[x].kind.shadowed < x {
      assert objs[x].kind.shadowed == o ==> x in Above(objs, o);
      TopIsNotBottom(objs, o, objs[x].kind.shadowed);
    }
  }

  /** Writing a frame is seen only where that frame is found. */
  lemma WriteKeepsAt(s: Store, f: FrameId, d: Page, x: ObjId, q: PageNum)
    requires x in s.objs && Private(s.objs, x, q) != Some(f)
    requires !IsShadow(s.objs, x) ==> Resident(s.objs, x, q) != Some(f)
    ensures KeepsAt(s, s.(mem := s.mem[f := d]), x, q)
  {
  }

  /** In a consistent store, only the owner's chain finds a frame of a top object. */
  lemma {:induction false} OnlyTopFinds(objs: Objs, o: ObjId, pn: PageNum, f: FrameId, x: ObjId, q: PageNum)
    requires HasFrame(objs, o, pn, f) && IsShadow(objs, o) && Above(objs, o) == {}
    requires forall y: ObjId, r: PageNum :: HasFrame(objs, y, r, f) ==> y == o && r == pn
    requires x != o || q != pn
    ensures Private(objs, x, q) != Some(f)
    ensures !IsShadow(objs, x) ==> Resident(objs, x, q) != Some(f)
    decreases x
  {
    assert x in objs && q in objs[x].pages && objs[x].pages[q] == f ==> HasFrame(objs, x, q, f);
    if Private(objs, x, q) == Some(f) && q !in objs[x].pages {
      assert objs[x].kind.shadowed == o ==> x in Above(objs, o);
      OnlyTopFinds(objs, o, pn, f, objs[x].kind.shadowed, q);
    }
  }

  /** Below a fresh page of o the chain shows what o showed. */
  lemma BelowShowsSame(s: Store, o: ObjId, pn: PageNum)
    requires Closed(s.objs) && FramesOk(s) && IsShadow(s.objs, o) && pn !in s.objs[o].pages
    ensures s.objs[o].kind.shadowed in s.objs
    ensures View(AllocFrame(s, o, pn, ZERO_PAGE), s.objs[o].kind.shadowed, pn) == View(s, o, pn)
  {
    var s1 := AllocFrame(s, o, pn, ZERO_PAGE);
    var below := s.objs[o].kind.shadowed;
    AddPageKinds(s.objs, o, pn, s.nextFrame);
    AddPagePrivate(s.objs, o, pn, s.nextFrame, below, pn);
    SameKindsBottom(s.objs, s1.objs, below);
    if Private(s.objs, below, pn).Some? {
      var owner := PrivateHasFrame(s.objs, below, pn);
      assert Private(s.objs, below, pn).value < s.nextFrame;
    } else {
      var b := Bottom(s.objs, below);
      BottomIsEnd(s.objs, below);
      if pn in s.objs[b].pages { assert HasFrame(s.objs, b, pn, s.objs[b].pages[pn]); }
    }
  }

  /** The store after the frame of o has been allocated and the page below looked up. */
  function CopyLookup(s: Store, o: ObjId, pn: PageNum): Got
    requires IsShadow(s.objs, o)
  {
    Lookup(AllocFrame(s, o, pn, ZERO_PAGE), s.objs[o].kind.shadowed, pn)
  }

  lemma CopyLookupCorrect(s: Store, o: ObjId, pn: PageNum)
    requires Closed(s.objs) && FramesOk(s) && IsShadow(s.objs, o) && pn !in s.objs[o].pages
    ensures var g := CopyLookup(s, o, pn);
      && Keeps(AllocFrame(s, o, pn, ZERO_PAGE), g.s)
      && (g.frame.Some? <==> View(s, o, pn).Some?)
      && (g.frame.Some? ==> Content(g.s, g.frame.value) == View(s, o, pn).value)
      && (g.frame.None? ==> g.s == AllocFrame(s, o, pn, ZERO_PAGE))
      && HasFrame(g.s.objs, o, pn, s.nextFrame)
  {
    var s1 := AllocFrame(s, o, pn, ZERO_PAGE);
    BelowShowsSame(s, o, pn);
    AllocFrames(s, o, pn, ZERO_PAGE);
    AddPageKinds(s.objs, o, pn, s.nextFrame);
    var below := s.objs[o].kind.shadowed;
    assert Closed(s1.objs) by {
      forall x | IsShadow(s1.objs, x) ensures s1.objs[x].kind.shadowed < x && s1.objs[x].kind.shadowed in s1.objs {
        assert IsShadow(s.objs, x);
      }
    }
    LookupCorrect(s1, below, pn);
    BottomIsEnd(s1.objs, below);
    BottomBelow(s1.objs, below);
    hide Keeps;
  }

  lemma {:induction false} BottomBelow(objs: Objs, o: ObjId)
    ensures Bottom(objs, o) <= o
    decreases o
  {
    if IsShadow(objs, o) && objs[o].kind.shadowed < o { BottomBelow(objs, objs[o].kind.shadowed); }
  }

  lemma CopyLookupInv(s: Store, roots: multiset<ObjId>, o: ObjId, pn: PageNum)
    requires Inv(s, roots) && IsShadow(s.objs, o) && pn !in s.objs[o].pages && External(s.objs, roots, o) > 0
    ensures Inv(CopyLookup(s, o, pn).s, roots)
  {
    var s1 := AllocFrame(s, o, pn, ZERO_PAGE);
    var below := s.objs[o].kind.shadowed;
    AllocFrameInv(s, roots, o, pn, ZERO_PAGE);
    AddPageKinds(s.objs, o, pn, s.nextFrame);
    assert below in s1.objs;
    assert o in Above(s.objs, below);
    assert External(s1.objs, roots, below) > 0;
    hide Inv;
    LookupInv(s1, roots, below, pn);
  }

  lemma WriteInv(s: Store, roots: multiset<ObjId>, f: FrameId, d: Page)
    requires Inv(s, roots) && f in s.mem
    ensures Inv(s.(mem := s.mem[f := d]), roots)
  {
    hide RefsOk, ChainOk;
  }

  lemma PageRoundTrip(objs: Objs, o: ObjId, pn: PageNum, f: FrameId)
    requires o in objs && pn !in objs[o].pages
    ensures RemovePage(AddPage(objs, o, pn, f), o, pn)[o] == Obj(objs[o].kind, objs[o].refcount + 1, objs[o].pages)
    ensures AddRef(RemovePage(AddPage(objs, o, pn, f), o, pn), o, -1) == objs
  {
    assert objs[o].pages[pn := f] - {pn} == objs[o].pages;
  }

  /** When there is nothing to copy, the write lookup gives its frame back. */
  lemma FailRestores(s: Store, o: ObjId, pn: PageNum)
    requires IsShadow(s.objs, o) && pn !in s.objs[o].pages && s.objs[o].refcount > |s.objs[o].pages|
    requires s.nextFrame !in s.mem
    ensures Put(DropPage(AllocFrame(s, o, pn, ZERO_PAGE), o, pn), o) == s.(nextFrame := s.nextFrame + 1)
  {
    PageRoundTrip(s.objs, o, pn, s.nextFrame);
    assert s.mem[s.nextFrame := ZERO_PAGE] - {s.nextFrame} == s.mem;
    var s2 := DropPage(AllocFrame(s, o, pn, ZERO_PAGE), o, pn);
    hide AddPage, RemovePage, AddRef;
    assert Put(s2, o) == Unref(s2, o);
  }

  lemma WriteLookupInv(s: Store, roots: multiset<ObjId>, o: ObjId, pn: PageNum)
    requires Inv(s, roots) && o in s.objs && External(s.objs, roots, o) > 0
    ensures Inv(GetForWrite(s, o, pn).s, roots)
  {
    if !IsShadow(s.objs, o) {
      LookupInv(s, roots, o, pn);
    } else if pn !in s.objs[o].pages {
      CopyLookupCorrect(s, o, pn);
      CopyLookupInv(s, roots, o, pn);
      var g := CopyLookup(s, o, pn);
      if g.frame.Some? {
        assert s.nextFrame in g.s.mem;
        WriteInv(g.s, roots, s.nextFrame, Content(g.s, g.frame.value));
      } else {
        FailRestores(s, o, pn);
        BumpFrame(s, roots);
      }
    }
    hide Inv;
  }

  lemma BumpFrame(s: Store, roots: multiset<ObjId>)
    requires Inv(s, roots)
    ensures Inv(s.(nextFrame := s.nextFrame + 1), roots) && Keeps(s, s.(nextFrame := s.nextFrame + 1))
  {
    hide RefsOk, ChainOk;
  }

  /** The written page of a top object becomes a private copy of what it showed. */
  lemma WriteLookupOwns(s: Store, o: ObjId, pn: PageNum)
    requires Closed(s.objs) && FramesOk(s) && IsShadow(s.objs, o)
    ensures var g := GetForWrite(s, o, pn);
      && (g.frame.Some? <==> View(s, o, pn).Some?)
      && (g.frame.Some? ==>
            && HasFrame(g.s.objs, o, pn, g.frame.value)
            && IsShadow(g.s.objs, o)
            && CellOf(g.s, o, pn) == Own(View(s, o, pn).value)
            && Find(g.s.objs, o, pn) == g.frame)
  {
    if pn !in s.objs[o].pages {
      CopyLookupCorrect(s, o, pn);
      assert KeepsAt(AllocFrame(s, o, pn, ZERO_PAGE), CopyLookup(s, o, pn).s, o, pn);
    }
  }

  lemma CopyKeepsAt(s: Store, o: ObjId, pn: PageNum, x: ObjId, q: PageNum)
    requires Closed(s.objs) && FramesOk(s) && IsShadow(s.objs, o) && Above(s.objs, o) == {}
    requires pn !in s.objs[o].pages && CopyLookup(s, o, pn).frame.Some?
    requires FramesOk(CopyLookup(s, o, pn).s) && Above(CopyLookup(s, o, pn).s.objs, o) == {}
    requires x in s.objs && (x != o || q != pn)
    ensures KeepsAt(s, GetForWrite(s, o, pn).s, x, q)
  {
    var s1 := AllocFrame(s, o, pn, ZERO_PAGE);
    var g := CopyLookup(s, o, pn);
    CopyLookupCorrect(s, o, pn);
    TopAllocKeepsAt(s, o, pn, ZERO_PAGE, x, q);
    assert KeepsAt(s1, g.s, x, q);
    KeepsAtTrans(s, s1, g.s, x, q);
    assert KeepsAt(s1, g.s, o, pn);
    OnlyTopFinds(g.s.objs, o, pn, s.nextFrame, x, q);
    WriteKeepsAt(g.s, s.nextFrame, Content(g.s, g.frame.value), x, q);
    KeepsAtTrans(s, g.s, GetForWrite(s, o, pn).s, x, q);
  }

  lemma CopyAbove(s: Store, o: ObjId, pn: PageNum, x: ObjId)
    requires IsShadow(s.objs, o) && Above(s.objs, x) == {}
    ensures Above(CopyLookup(s, o, pn).s.objs, x) == {}
  {
    var s1 := AllocFrame(s, o, pn, ZERO_PAGE);
    AddPageKinds(s.objs, o, pn, s.nextFrame);
    var b := Bottom(s1.objs, s.objs[o].kind.shadowed);
    if b in s1.objs { AddPageKinds(s1.objs, b, pn, s1.nextFrame); }
  }

  /**
   * Copy on write at a top object changes that one page's cell, to a private
   * copy of what it showed, and nothing else anywhere.
   */
  lemma WriteLookupKeepsAt(s: Store, roots: multiset<ObjId>, o: ObjId, pn: PageNum, x: ObjId, q: PageNum)
    requires Inv(s, roots) && IsShadow(s.objs, o) && Above(s.objs, o) == {} && External(s.objs, roots, o) > 0
    requires x in s.objs && (x != o || q != pn)
    ensures KeepsAt(s, GetForWrite(s, o, pn).s, x, q)
  {
    if pn !in s.objs[o].pages {
      CopyLookupCorrect(s, o, pn);
      CopyLookupInv(s, roots, o, pn);
      CopyAbove(s, o, pn, o);
      if CopyLookup(s, o, pn).frame.Some? {
        CopyKeepsAt(s, o, pn, x, q);
      } else {
        FailRestores(s, o, pn);
        BumpFrame(s, roots);
      }
    }
    hide KeepsAt;
  }

  // ------------------------------------------------- what a step preserves

  /** Page pn of o keeps its cell, its found frame and its place in o. */
  ghost predicate KeepsPage(s: Store, s1: Store, o: ObjId, pn: PageNum) {
    && KeepsAt(s, s1, o, pn)
    && (Resident(s.objs, o, pn).Some? ==> Resident(s1.objs, o, pn) == Resident(s.objs, o, pn))
  }

  /** o is still there, and a top object is still a top object. */
  ghost predicate KeepsTop(s: Store, s1: Store, o: ObjId) {
    && o in s.objs && o in s1.objs
    && IsShadow(s1.objs, o) == IsShadow(s.objs, o)
    && s1.objs[o].kind.File? == s.objs[o].kind.File?
    && (Above(s.objs, o) == {} ==> Above(s1.objs, o) == {})
  }

  lemma LookupKeepsPage(s: Store, o: ObjId, pn: PageNum, x: ObjId, q: PageNum)
    requires Closed(s.objs) && FramesOk(s) && o in s.objs && x in s.objs
    ensures KeepsPage(s, Lookup(s, o, pn).s, x, q) && KeepsTop(s, Lookup(s, o, pn).s, x)
  {
    LookupCorrect(s, o, pn);
    assert KeepsAt(s, Lookup(s, o, pn).s, x, q);
    var b := Bottom(s.objs, o);
    if b in s.objs { AddPageKinds(s.objs, b, pn, s.nextFrame); }
    hide KeepsAt, Keeps;
  }

  /** A lookup only adds a page that was not resident. */
  lemma LookupResident(s: Store, o: ObjId, pn: PageNum, x: ObjId, q: PageNum)
    requires Resident(s.objs, x, q).Some?
    ensures Resident(Lookup(s, o, pn).s.objs, x, q) == Resident(s.objs, x, q)
  {
  }

  lemma CopyResident(s: Store, o: ObjId, pn: PageNum, x: ObjId, q: PageNum)
    requires IsShadow(s.objs, o) && pn !in s.objs[o].pages && Resident(s.objs, x, q).Some?
    ensures Resident(CopyLookup(s, o, pn).s.objs, x, q) == Resident(s.objs, x, q)
  {
    LookupResident(AllocFrame(s, o, pn, ZERO_PAGE), s.objs[o].kind.shadowed, pn, x, q);
  }

  lemma WriteLookupKeepsPage(s: Store, roots: multiset<ObjId>, o: ObjId, pn: PageNum, x: ObjId, q: PageNum)
    requires Inv(s, roots) && IsShadow(s.objs, o) && Above(s.objs, o) == {} && External(s.objs, roots, o) > 0
    requires x in s.objs && (x != o || q != pn)
    ensures KeepsPage(s, GetForWrite(s, o, pn).s, x, q)
  {
    WriteLookupKeepsAt(s, roots, o, pn, x, q);
    if pn !in s.objs[o].pages {
      if CopyLookup(s, o, pn).frame.None? {
        CopyLookupCorrect(s, o, pn);
        FailRestores(s, o, pn);
      } else if Resident(s.objs, x, q).Some? {
        CopyResident(s, o, pn, x, q);
      }
    }
    hide KeepsAt, Inv, Lookup, AllocFrame;
  }

  lemma CopyKinds(s: Store, o: ObjId, pn: PageNum)
    requires IsShadow(s.objs, o)
    ensures SameKinds(s.objs, CopyLookup(s, o, pn).s.objs)
  {
    var s1 := AllocFrame(s, o, pn, ZERO_PAGE);
    AddPageKinds(s.objs, o, pn, s.nextFrame);
    var b := Bottom(s1.objs, s.objs[o].kind.shadowed);
    if b in s1.objs { AddPageKinds(s1.objs, b, pn, s1.nextFrame); }
    hide AddPage, Bottom, Find, Fill;
  }

  lemma CopyKeepsTop(s: Store, o: ObjId, pn: PageNum, x: ObjId)
    requires IsShadow(s.objs, o) && x in s.objs
    ensures KeepsTop(s, CopyLookup(s, o, pn).s, x)
  {
    CopyKinds(s, o, pn);
    if Above(s.objs, x) == {} { CopyAbove(s, o, pn, x); }
    hide CopyLookup, Above;
  }

  lemma WriteLookupKeepsTop(s: Store, roots: multiset<ObjId>, o: ObjId, pn: PageNum, x: ObjId)
    requires Inv(s, roots) && IsShadow(s.objs, o) && External(s.objs, roots, o) > 0 && x in s.objs
    ensures KeepsTop(s, GetForWrite(s, o, pn).s, x)
  {
    if pn !in s.objs[o].pages {
      CopyKeepsTop(s, o, pn, x);
      if CopyLookup(s, o, pn).frame.None? {
        CopyLookupCorrect(s, o, pn);
        FailRestores(s, o, pn);
        hide *;
      } else {
        assert GetForWrite(s, o, pn).s.objs == CopyLookup(s, o, pn).s.objs;
        hide Inv, GetForWrite, CopyLookup, Above;
      }
    }
  }

  /** What holds of every survivor of a step that only removes objects. */
  lemma SubKeeps(s: Store, s1: Store, x: ObjId, q: PageNum)
    requires SubObjs(s1.objs, s.objs) && SubMem(s1, s) && Closed(s1.objs) && FramesOk(s1) && x in s1.objs
    ensures KeepsPage(s, s1, x, q) && KeepsTop(s, s1, x)
  {
    SubMeaningAt(s, s1, x, q);
    forall y | y in Above(s1.objs, x) ensures y in Above(s.objs, x) { }
  }

  /** What holds of every old object after a step that only adds objects. */
  lemma SuperKeeps(s: Store, s1: Store, x: ObjId, q: PageNum)
    requires SubObjs(s.objs, s1.objs) && SubMem(s, s1) && Closed(s.objs) && FramesOk(s) && x in s.objs
    ensures KeepsPage(s, s1, x, q)
  {
    SubMeaningAt(s1, s, x, q);
  }
}
