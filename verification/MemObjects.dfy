/**
 * Memory objects: anonymous objects, file objects and shadow objects, their
 * resident pages and their reference counts (kernel/proc/vm/shadow.c, anon.c,
 * shadowd.c and the parts of kernel/mm/pframe.c they use).
 *
 * An object is named by its creation stamp.  A stamp is never reused, so an
 * object always shadows an older one and every shadow chain is finite.
 */
module MemObjects {
  import opened Basics

  type ObjId = nat
  type PageNum = nat
  type FrameId = nat

  /** The contents of one page, as a plain token; 0 stands for all zeroes. */
  type Page = int
  const ZERO_PAGE: Page := 0

  datatype Kind =
    | Anon
    | File(backing: map<PageNum, Page>)
    | Shadow(shadowed: ObjId, bottom: ObjId)

  datatype Obj = Obj(kind: Kind, refcount: int, pages: map<PageNum, FrameId>)

  type Objs = map<ObjId, Obj>

  datatype Store = Store(objs: Objs, mem: map<FrameId, Page>, nextObj: nat, nextFrame: nat)

  // ---------------------------------------------------------------- chains

  predicate IsShadow(objs: Objs, o: ObjId) {
    o in objs && objs[o].kind.Shadow?
  }

  /** The object at the end of o's shadow chain. */
  function Bottom(objs: Objs, o: ObjId): ObjId
    decreases o
  {
    if IsShadow(objs, o) && objs[o].kind.shadowed < o then Bottom(objs, objs[o].kind.shadowed) else o
  }

  /** The first frame for page pn found in the shadow objects of o's chain. */
  function Private(objs: Objs, o: ObjId, pn: PageNum): Option<FrameId>
    decreases o
  {
    if !IsShadow(objs, o) then None
    else if pn in objs[o].pages then Some(objs[o].pages[pn])
    else if objs[o].kind.shadowed < o then Private(objs, objs[o].kind.shadowed, pn)
    else None
  }

  function Resident(objs: Objs, o: ObjId, pn: PageNum): Option<FrameId> {
    if o in objs && pn in objs[o].pages then Some(objs[o].pages[pn]) else None
  }

  /** The first frame for page pn found anywhere in o's chain. */
  function Find(objs: Objs, o: ObjId, pn: PageNum): Option<FrameId> {
    var p := Private(objs, o, pn);
    if p.Some? then p else Resident(objs, Bottom(objs, o), pn)
  }

  /** What a page of a bottom object holds before it is first made resident. */
  function Fill(ob: Obj, pn: PageNum): Option<Page> {
    match ob.kind
    case Anon => Some(ZERO_PAGE)
    case File(b) => if pn in b then Some(b[pn]) else None
    case Shadow(_, _) => None
  }

  function Content(s: Store, f: FrameId): Page {
    if f in s.mem then s.mem[f] else ZERO_PAGE
  }

  /** The contents of page pn of a bottom object. */
  function BottomValue(s: Store, b: ObjId, pn: PageNum): Option<Page> {
    if b !in s.objs then None
    else if pn in s.objs[b].pages then Some(Content(s, s.objs[b].pages[pn]))
    else Fill(s.objs[b], pn)
  }


  /** A page seen through o: either a private copy, or the bottom object's page. */
  datatype Cell = Own(data: Page) | Follow(b: ObjId, pn: PageNum)

  function CellOf(s: Store, o: ObjId, pn: PageNum): Cell {
    var p := Private(s.objs, o, pn);
    if p.Some? then Own(Content(s, p.value)) else Follow(Bottom(s.objs, o), pn)
  }

  function CellValue(s: Store, c: Cell): Option<Page> {
    match c
    case Own(d) => Some(d)
    case Follow(b, pn) => BottomValue(s, b, pn)
  }

  /** The contents of page pn as seen through object o. */
  function View(s: Store, o: ObjId, pn: PageNum): Option<Page> {
    CellValue(s, CellOf(s, o, pn))
  }

  // ------------------------------------------------------------- invariant

  /** The shadow objects directly above o. */
  function Above(objs: Objs, o: ObjId): set<ObjId> {
    set x | x in objs && objs[x].kind.Shadow? && objs[x].kind.shadowed == o
  }

  /** References to o other than those of its own resident pages. */
  function External(objs: Objs, roots: multiset<ObjId>, o: ObjId): int {
    |Above(objs, o)| + roots[o]
  }

  /** Every shadow object shadows an existing, older object. */
  ghost predicate Closed(objs: Objs) {
    forall o :: IsShadow(objs, o) ==> objs[o].kind.shadowed < o && objs[o].kind.shadowed in objs
  }

  /** Chains are closed and every cached bottom pointer is the end of its chain. */
  ghost predicate ChainOk(objs: Objs) {
    && Closed(objs)
    && (forall o :: IsShadow(objs, o) ==> objs[o].kind.bottom == Bottom(objs, o))
  }

  predicate HasFrame(objs: Objs, o: ObjId, pn: PageNum, f: FrameId) {
    o in objs && pn in objs[o].pages && objs[o].pages[pn] == f
  }

  ghost predicate FramesOk(s: Store) {
    && (forall o: ObjId, pn: PageNum, f: FrameId :: HasFrame(s.objs, o, pn, f) ==> f in s.mem && f < s.nextFrame)
    && (forall f :: f in s.mem ==> f < s.nextFrame)
    && (forall o1: ObjId, p1: PageNum, o2: ObjId, p2: PageNum, f: FrameId ::
          HasFrame(s.objs, o1, p1, f) && HasFrame(s.objs, o2, p2, f) ==> o1 == o2 && p1 == p2)
  }

  /**
   * Reference conservation at o: the count is resident pages + shadow objects
   * above + roots, and nothing unreferenced is kept except file objects and
   * anonymous objects without pages.
   */
  predicate Counted(objs: Objs, roots: multiset<ObjId>, o: ObjId)
    requires o in objs
  {
    && objs[o].refcount == |objs[o].pages| + External(objs, roots, o)
    && (External(objs, roots, o) > 0 || objs[o].kind.File? || (objs[o].kind.Anon? && |objs[o].pages| == 0))
  }

  ghost predicate RefsOk(objs: Objs, roots: multiset<ObjId>) {
    && (forall o :: o in objs ==> Counted(objs, roots, o))
    && (forall o :: o in roots ==> o in objs)
  }

  ghost predicate Inv(s: Store, roots: multiset<ObjId>) {
    && (forall o :: o in s.objs ==> o < s.nextObj)
    && ChainOk(s.objs)
    && FramesOk(s)
    && RefsOk(s.objs, roots)
  }

  // ------------------------------------------------------------ operations

  /** Add d to the reference count of o. */
  function AddRef(objs: Objs, o: ObjId, d: int): Objs
    requires o in objs
  {
    objs[o := Obj(objs[o].kind, objs[o].refcount + d, objs[o].pages)]
  }

  /** A new object with one reference and no resident page. */
  function AddObj(objs: Objs, o: ObjId, kind: Kind): Objs {
    objs[o := Obj(kind, 1, map[])]
  }

  /** Make frame f resident as page pn of o, with the reference the page holds. */
  function AddPage(objs: Objs, o: ObjId, pn: PageNum, f: FrameId): Objs
    requires o in objs
  {
    objs[o := Obj(objs[o].kind, objs[o].refcount + 1, objs[o].pages[pn := f])]
  }

  /** Page pn of o stops being resident; its reference is not dropped yet. */
  function RemovePage(objs: Objs, o: ObjId, pn: PageNum): Objs
    requires o in objs
  {
    objs[o := Obj(objs[o].kind, objs[o].refcount, objs[o].pages - {pn})]
  }

  /** anon_create and shadow_create: a new object with reference count 1. */
  function NewObj(s: Store, kind: Kind): Store {
    Store(AddObj(s.objs, s.nextObj, kind), s.mem, s.nextObj + 1, s.nextFrame)
  }

  /** A new shadow object on top of o; it takes over one reference to o. */
  function NewShadow(s: Store, o: ObjId): Store {
    NewObj(s, Shadow(o, if IsShadow(s.objs, o) then s.objs[o].kind.bottom else o))
  }

  function Ref(s: Store, o: ObjId): Store
    requires o in s.objs
  {
    s.(objs := AddRef(s.objs, o, 1))
  }

  function Unref(s: Store, o: ObjId): Store
    requires o in s.objs
  {
    s.(objs := AddRef(s.objs, o, -1))
  }

  /** Drop the object and every frame resident in it. */
  function Discard(s: Store, o: ObjId): Store
    requires o in s.objs
  {
    s.(objs := s.objs - {o}, mem := s.mem - s.objs[o].pages.Values)
  }

  /** shadow_put, anon_put and the count part of vput. */
  function Put(s: Store, o: ObjId): Store
    requires o in s.objs
    decreases o
  {
    var ob := s.objs[o];
    match ob.kind
    case Shadow(below, _) =>
      if ob.refcount - 1 == |ob.pages| then
        var s1 := Discard(s, o);
        if below < o && below in s1.objs then Put(s1, below) else s1
      else Unref(s, o)
    case Anon =>
      if ob.refcount - 1 <= |ob.pages| && |ob.pages| > 0 then Discard(s, o) else Unref(s, o)
    case File(_) => Unref(s, o)
  }

  function PutAll(s: Store, os: seq<ObjId>): Store
    decreases |os|
  {
    if os == [] then s
    else if os[0] in s.objs then PutAll(Put(s, os[0]), os[1..])
    else PutAll(s, os[1..])
  }

  /** pframe_alloc followed by filling the new frame with d. */
  function AllocFrame(s: Store, o: ObjId, pn: PageNum, d: Page): Store
    requires o in s.objs
  {
    Store(AddPage(s.objs, o, pn, s.nextFrame), s.mem[s.nextFrame := d], s.nextObj, s.nextFrame + 1)
  }

  /** The page-removal part of pframe_free (the reference is dropped by Put). */
  function DropPage(s: Store, o: ObjId, pn: PageNum): Store
    requires o in s.objs && pn in s.objs[o].pages
  {
    Store(RemovePage(s.objs, o, pn), s.mem - {s.objs[o].pages[pn]}, s.nextObj, s.nextFrame)
  }

  datatype Got = Got(s: Store, frame: Option<FrameId>)

  /** A read lookup: shadow_lookuppage with forwrite == 0, and anon_lookuppage. */
  function Lookup(s: Store, o: ObjId, pn: PageNum): Got {
    var f := Find(s.objs, o, pn);
    var b := Bottom(s.objs, o);
    if f.Some? || b !in s.objs then Got(s, f)
    else
      var d := Fill(s.objs[b], pn);
      if d.None? then Got(s, None) else Got(AllocFrame(s, b, pn, d.value), Some(s.nextFrame))
  }

  /** A write lookup: pframe_get on o, copying the page up when o shadows something. */
  function GetForWrite(s: Store, o: ObjId, pn: PageNum): Got {
    if !IsShadow(s.objs, o) then Lookup(s, o, pn)
    else if pn in s.objs[o].pages then Got(s, Some(s.objs[o].pages[pn]))
    else
      var mine := s.nextFrame;
      var below := Lookup(AllocFrame(s, o, pn, ZERO_PAGE), s.objs[o].kind.shadowed, pn);
      if below.frame.Some? then
        Got(below.s.(mem := below.s.mem[mine := Content(below.s, below.frame.value)]), Some(mine))
      else if o in below.s.objs && pn in below.s.objs[o].pages then
        Got(Put(DropPage(below.s, o, pn), o), None)
      else Got(below.s, None)
  }

  // ------------------------------------------------- stability of the chains

  /** sub is part of sup, with the same links and the same resident pages. */
  ghost predicate SubObjs(sub: Objs, sup: Objs) {
    forall o :: o in sub ==> o in sup && sup[o].kind == sub[o].kind && sup[o].pages == sub[o].pages
  }

  lemma {:induction false} BottomIsEnd(objs: Objs, o: ObjId)
    requires Closed(objs) && o in objs
    ensures Bottom(objs, o) in objs && !IsShadow(objs, Bottom(objs, o))
    decreases o
  {
    if IsShadow(objs, o) {
      BottomIsEnd(objs, objs[o].kind.shadowed);
    }
  }

  lemma {:induction false} SubChain(sub: Objs, sup: Objs, o: ObjId, pn: PageNum)
    requires Closed(sub) && SubObjs(sub, sup) && o in sub
    ensures Bottom(sub, o) == Bottom(sup, o) && Bottom(sub, o) in sub
    ensures Private(sub, o, pn) == Private(sup, o, pn)
    ensures Find(sub, o, pn) == Find(sup, o, pn)
    decreases o
  {
    if IsShadow(sub, o) {
      SubChain(sub, sup, sub[o].kind.shadowed, pn);
    }
  }

  lemma ChainOkSub(sub: Objs, sup: Objs)
    requires Closed(sub) && SubObjs(sub, sup) && ChainOk(sup)
    ensures ChainOk(sub)
  {
    forall o | IsShadow(sub, o) ensures sub[o].kind.bottom == Bottom(sub, o) {
      SubChain(sub, sup, o, 0);
      assert IsShadow(sup, o);
    }
  }

  /** Object o shows the same frame, with the same contents, for page pn in s1 and s2. */
  ghost predicate SameAt(s1: Store, s2: Store, o: ObjId, pn: PageNum) {
    && o in s1.objs
    && Bottom(s2.objs, o) == Bottom(s1.objs, o)
    && Private(s2.objs, o, pn) == Private(s1.objs, o, pn)
    && Find(s2.objs, o, pn) == Find(s1.objs, o, pn)
    && CellOf(s2, o, pn) == CellOf(s1, o, pn)
    && IsShadow(s2.objs, o) == IsShadow(s1.objs, o)
    && (!IsShadow(s1.objs, o) ==> BottomValue(s2, o, pn) == BottomValue(s1, o, pn))
    && View(s2, o, pn) == View(s1, o, pn)
  }

  /** Every object of s2 shows the same pages as in s1. */
  ghost predicate SameMeaning(s1: Store, s2: Store) {
    forall o: ObjId, pn: PageNum :: o in s2.objs ==> SameAt(s1, s2, o, pn)
  }

  // ------------------------------------------------------------------- put

  /** With no object above it, a shadow object can go without breaking a chain. */
  lemma RemoveTopClosed(objs: Objs, o: ObjId)
    requires ChainOk(objs) && Above(objs, o) == {}
    ensures ChainOk(objs - {o}) && SubObjs(objs - {o}, objs)
  {
    var objs1 := objs - {o};
    forall x | IsShadow(objs1, x) ensures objs1[x].kind.shadowed < x && objs1[x].kind.shadowed in objs1 {
      assert IsShadow(objs, x);
      assert x !in Above(objs, o);
    }
    ChainOkSub(objs1, objs);
  }

  /** Removing a shadow object turns its link into a root. */
  lemma RemoveTopExternal(objs: Objs, roots: multiset<ObjId>, o: ObjId, x: ObjId)
    requires IsShadow(objs, o) && o in roots && x != o && objs[o].kind.shadowed != o
    ensures External(objs - {o}, roots - multiset{o} + multiset{objs[o].kind.shadowed}, x) == External(objs, roots, x)
  {
    if x == objs[o].kind.shadowed {
      assert Above(objs, x) == Above(objs - {o}, x) + {o};
    } else {
      assert Above(objs, x) == Above(objs - {o}, x);
    }
  }

  lemma DiscardShadowRefs(objs: Objs, roots: multiset<ObjId>, o: ObjId)
    requires RefsOk(objs, roots) && Closed(objs) && o in roots && IsShadow(objs, o) && External(objs, roots, o) == 1
    ensures RefsOk(objs - {o}, roots - multiset{o} + multiset{objs[o].kind.shadowed})
  {
    var roots1 := roots - multiset{o} + multiset{objs[o].kind.shadowed};
    assert roots[o] == 1;
    forall x | x in objs - {o} ensures Counted(objs - {o}, roots1, x) {
      RemoveTopExternal(objs, roots, o, x);
    }
    hide Counted, External;
  }

  lemma DiscardShadow(s: Store, roots: multiset<ObjId>, o: ObjId)
    requires Inv(s, roots) && o in roots && IsShadow(s.objs, o)
    requires s.objs[o].refcount - 1 == |s.objs[o].pages|
    ensures Inv(Discard(s, o), roots - multiset{o} + multiset{s.objs[o].kind.shadowed})
  {
    LastReference(s.objs, roots, o);
    RemoveTopClosed(s.objs, o);
    DiscardFrames(s, o);
    DiscardShadowRefs(s.objs, roots, o);
    hide RefsOk, FramesOk, ChainOk, External;
  }

  lemma LastReference(objs: Objs, roots: multiset<ObjId>, o: ObjId)
    requires o in objs && o in roots && Counted(objs, roots, o) && objs[o].refcount - 1 <= |objs[o].pages|
    ensures External(objs, roots, o) == 1 && Above(objs, o) == {} && roots[o] == 1
  {
  }

  lemma DiscardFrames(s: Store, o: ObjId)
    requires FramesOk(s) && o in s.objs
    ensures FramesOk(Discard(s, o))
  {
    var s1 := Discard(s, o);
    forall x, pn: PageNum, f | HasFrame(s1.objs, x, pn, f) ensures f in s1.mem {
      assert HasFrame(s.objs, x, pn, f);
      if f in s.objs[o].pages.Values {
        var q :| q in s.objs[o].pages && s.objs[o].pages[q] == f;
        assert HasFrame(s.objs, o, q, f);
        assert false;
      }
    }
    forall o1, p1: PageNum, o2, p2: PageNum, f | HasFrame(s1.objs, o1, p1, f) && HasFrame(s1.objs, o2, p2, f)
      ensures o1 == o2 && p1 == p2
    {
      assert HasFrame(s.objs, o1, p1, f) && HasFrame(s.objs, o2, p2, f);
    }
  }

  /** The frames of s2 are frames of s1 with the same contents. */
  ghost predicate SubMem(s2: Store, s1: Store) {
    forall f :: f in s2.mem ==> f in s1.mem && s2.mem[f] == s1.mem[f]
  }

  lemma {:induction false} PrivateHasFrame(objs: Objs, o: ObjId, pn: PageNum) returns (owner: ObjId)
    requires Private(objs, o, pn).Some?
    ensures HasFrame(objs, owner, pn, Private(objs, o, pn).value) && IsShadow(objs, owner) && owner <= o
    decreases o
  {
    owner := o;
    if pn !in objs[o].pages {
      owner := PrivateHasFrame(objs, objs[o].kind.shadowed, pn);
    }
  }

  lemma SubMeaningAt(s1: Store, s2: Store, o: ObjId, pn: PageNum)
    requires Closed(s2.objs) && FramesOk(s2) && SubObjs(s2.objs, s1.objs) && SubMem(s2, s1)
    requires o in s2.objs
    ensures SameAt(s1, s2, o, pn)
  {
    SubChain(s2.objs, s1.objs, o, pn);
    SubBottomValue(s1, s2, o, pn);
    SubBottomValue(s1, s2, Bottom(s2.objs, o), pn);
    if Private(s2.objs, o, pn).Some? {
      var owner := PrivateHasFrame(s2.objs, o, pn);
      assert Private(s2.objs, o, pn).value in s2.mem;
    }
  }

  lemma SubBottomValue(s1: Store, s2: Store, b: ObjId, pn: PageNum)
    requires FramesOk(s2) && SubObjs(s2.objs, s1.objs) && SubMem(s2, s1) && b in s2.objs
    ensures BottomValue(s2, b, pn) == BottomValue(s1, b, pn)
  {
    if pn in s2.objs[b].pages {
      assert HasFrame(s2.objs, b, pn, s2.objs[b].pages[pn]);
      assert s2.objs[b].pages[pn] in s2.mem;
    }
  }

  lemma SubStoreMeaning(s1: Store, s2: Store)
    requires Closed(s2.objs) && FramesOk(s2) && SubObjs(s2.objs, s1.objs) && SubMem(s2, s1)
    ensures SameMeaning(s1, s2)
  {
    forall o: ObjId, pn: PageNum | o in s2.objs ensures SameAt(s1, s2, o, pn) {
      SubMeaningAt(s1, s2, o, pn);
    }
    hide SameAt;
  }

  /** Changing only reference counts keeps chains and frames. */
  lemma SameShape(s: Store, s1: Store)
    requires ChainOk(s.objs) && FramesOk(s)
    requires s1.objs.Keys == s.objs.Keys && SubObjs(s1.objs, s.objs)
    requires s1.mem == s.mem && s1.nextFrame == s.nextFrame
    ensures ChainOk(s1.objs) && FramesOk(s1)
  {
    forall x | IsShadow(s1.objs, x) ensures s1.objs[x].kind.shadowed < x && s1.objs[x].kind.shadowed in s1.objs {
      assert IsShadow(s.objs, x);
    }
    ChainOkSub(s1.objs, s.objs);
    forall o1, p1: PageNum, f | HasFrame(s1.objs, o1, p1, f) ensures HasFrame(s.objs, o1, p1, f) { }
  }

  /** Changing a count leaves everything but the count as it is. */
  lemma AddRefShape(objs: Objs, o: ObjId, d: int)
    requires o in objs
    ensures AddRef(objs, o, d).Keys == objs.Keys && SubObjs(AddRef(objs, o, d), objs)
    ensures forall x :: Above(AddRef(objs, o, d), x) == Above(objs, x)
  {
  }

  lemma UnrefCounted(objs: Objs, roots: multiset<ObjId>, o: ObjId, x: ObjId)
    requires o in objs && o in roots && x in objs && Counted(objs, roots, x)
    requires x == o ==> External(objs, roots, o) > 1 || objs[o].kind.File? || (objs[o].kind.Anon? && |objs[o].pages| == 0)
    ensures x in AddRef(objs, o, -1) && Counted(AddRef(objs, o, -1), roots - multiset{o}, x)
  {
    AddRefShape(objs, o, -1);
  }

  lemma UnrefRefs(objs: Objs, roots: multiset<ObjId>, o: ObjId)
    requires RefsOk(objs, roots) && o in roots
    requires External(objs, roots, o) > 1 || objs[o].kind.File? || (objs[o].kind.Anon? && |objs[o].pages| == 0)
    ensures RefsOk(AddRef(objs, o, -1), roots - multiset{o})
  {
    hide Counted, External;
    forall x | x in AddRef(objs, o, -1) ensures Counted(AddRef(objs, o, -1), roots - multiset{o}, x) {
      UnrefCounted(objs, roots, o, x);
    }
  }

  lemma UnrefInv(s: Store, roots: multiset<ObjId>, o: ObjId)
    requires Inv(s, roots) && o in roots
    requires External(s.objs, roots, o) > 1 || s.objs[o].kind.File? || (s.objs[o].kind.Anon? && |s.objs[o].pages| == 0)
    ensures Inv(Unref(s, o), roots - multiset{o})
  {
    assert o in s.objs;
    hide RefsOk, FramesOk, ChainOk, External, AddRef, SubObjs;
    AddRefShape(s.objs, o, -1);
    SameShape(s, Unref(s, o));
    UnrefRefs(s.objs, roots, o);
  }

  lemma DiscardAnon(s: Store, roots: multiset<ObjId>, o: ObjId)
    requires Inv(s, roots) && o in roots && s.objs[o].kind.Anon?
    requires s.objs[o].refcount - 1 <= |s.objs[o].pages|
    ensures Inv(Discard(s, o), roots - multiset{o})
  {
    LastReference(s.objs, roots, o);
    RemoveTopClosed(s.objs, o);
    DiscardFrames(s, o);
    DiscardAnonRefs(s.objs, roots, o);
    hide RefsOk, FramesOk, ChainOk, External;
  }

  lemma DiscardAnonRefs(objs: Objs, roots: multiset<ObjId>, o: ObjId)
    requires RefsOk(objs, roots) && o in roots && objs[o].kind.Anon? && roots[o] == 1
    ensures RefsOk(objs - {o}, roots - multiset{o})
  {
    hide Counted, External, Above;
    forall x | x in objs - {o} ensures Counted(objs - {o}, roots - multiset{o}, x) {
      DiscardAnonAt(objs, roots, o, x);
    }
  }

  lemma DiscardAnonAt(objs: Objs, roots: multiset<ObjId>, o: ObjId, x: ObjId)
    requires o in objs && objs[o].kind.Anon? && x in objs && x != o && Counted(objs, roots, x)
    ensures Counted(objs - {o}, roots - multiset{o}, x)
  {
    assert Above(objs - {o}, x) == Above(objs, x);
  }

  lemma DiscardShrinks(s: Store, o: ObjId)
    requires o in s.objs
    ensures SubObjs(Discard(s, o).objs, s.objs) && SubMem(Discard(s, o), s)
    ensures Discard(s, o).nextObj == s.nextObj && Discard(s, o).nextFrame == s.nextFrame
    ensures Discard(s, o).objs.Keys == s.objs.Keys - {o}
  {
  }

  lemma UnrefShrinks(s: Store, o: ObjId)
    requires o in s.objs
    ensures SubObjs(Unref(s, o).objs, s.objs) && SubMem(Unref(s, o), s)
    ensures Unref(s, o).nextObj == s.nextObj && Unref(s, o).nextFrame == s.nextFrame
  {
    AddRefShape(s.objs, o, -1);
  }

  lemma ShrinkTrans(s2: Store, s1: Store, s: Store)
    requires SubObjs(s2.objs, s1.objs) && SubMem(s2, s1)
    requires SubObjs(s1.objs, s.objs) && SubMem(s1, s)
    ensures SubObjs(s2.objs, s.objs) && SubMem(s2, s)
  {
  }

  /** Put only removes objects, with their frames, and lowers counts. */
  lemma {:induction false} PutShrinks(s: Store, o: ObjId)
    requires o in s.objs
    ensures SubObjs(Put(s, o).objs, s.objs) && SubMem(Put(s, o), s)
    ensures Put(s, o).nextObj == s.nextObj && Put(s, o).nextFrame == s.nextFrame
    decreases o
  {
    hide Discard, Unref, SubObjs, SubMem;
    var ob := s.objs[o];
    DiscardShrinks(s, o);
    UnrefShrinks(s, o);
    if ob.kind.Shadow? && ob.refcount - 1 == |ob.pages| {
      var s1 := Discard(s, o);
      if ob.kind.shadowed < o && ob.kind.shadowed in s1.objs {
        PutShrinks(s1, ob.kind.shadowed);
        ShrinkTrans(Put(s1, ob.kind.shadowed), s1, s);
      }
    }
  }

  /**
   * Dropping one of the references counted by roots keeps reference
   * conservation, frees nothing that is still referenced and leaves no
   * unreferenced object behind.
   */
  lemma {:induction false} PutKeepsInv(s: Store, roots: multiset<ObjId>, o: ObjId)
    requires Inv(s, roots) && o in roots
    ensures Inv(Put(s, o), roots - multiset{o})
    decreases o
  {
    var ob := s.objs[o];
    if ob.kind.Shadow? && ob.refcount - 1 == |ob.pages| {
      assert IsShadow(s.objs, o);
      DiscardShadow(s, roots, o);
      PutShadowRest(s, roots, o);
    } else if ob.kind.Anon? && ob.refcount - 1 <= |ob.pages| && |ob.pages| > 0 {
      DiscardAnon(s, roots, o);
    } else {
      UnrefInv(s, roots, o);
    }
  }

  /** The reference the removed shadow object held is dropped in turn. */
  lemma {:induction false} PutShadowRest(s: Store, roots: multiset<ObjId>, o: ObjId)
    requires o in roots && IsShadow(s.objs, o) && s.objs[o].refcount - 1 == |s.objs[o].pages|
    requires s.objs[o].kind.shadowed < o
    requires Inv(Discard(s, o), roots - multiset{o} + multiset{s.objs[o].kind.shadowed})
    ensures Inv(Put(s, o), roots - multiset{o})
    decreases o, 0
  {
    var below := s.objs[o].kind.shadowed;
    var s1 := Discard(s, o);
    var roots1 := roots - multiset{o} + multiset{below};
    assert below in roots1;
    assert Put(s, o) == Put(s1, below);
    assert roots1 - multiset{below} == roots - multiset{o};
    PutKeepsInv(s1, roots1, below);
  }

  /** Every object that survives a put still shows the same pages. */
  lemma PutKeepsMeaning(s: Store, roots: multiset<ObjId>, o: ObjId)
    requires Inv(s, roots) && o in roots
    ensures SameMeaning(s, Put(s, o))
  {
    PutKeepsInv(s, roots, o);
    PutShrinks(s, o);
    SubStoreMeaning(s, Put(s, o));
  }
}
