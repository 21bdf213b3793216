/**
 * The shadow daemon's collapse of one chain as it runs: pages migrated one by
 * one, the link moved, references taken and released on the way
 * (kernel/proc/vm/shadowd.c:66-104, kernel/mm/pframe.c:277-298).
 */
module ShadowDaemon {
  import opened MemObjects
  import opened ObjectTable
  import opened ShadowCollapse

  /** The pages of o already dealt with when left remain. */
  function Done(lower: map<PageNum, FrameId>, left: map<PageNum, FrameId>): map<PageNum, FrameId> {
    map pn | pn in lower && pn !in left :: lower[pn]
  }

  function UpperObj(up: Obj, done: map<PageNum, FrameId>): Obj {
    Obj(up.kind, up.refcount + |done - up.pages.Keys|, Migrated(up.pages, done))
  }

  function LowerObj(lo: Obj, left: map<PageNum, FrameId>): Obj {
    Obj(lo.kind, lo.refcount - |lo.pages| + |left|, left)
  }

  /** The store when the pages left of o remain to be migrated into last. */
  function Migrating(s: Store, last: ObjId, o: ObjId, left: map<PageNum, FrameId>): Store
    requires last in s.objs && o in s.objs
  {
    s.(objs := MigratingObjs(s.objs, last, o, left),
       mem := MigratingMem(s.mem, s.objs[last].pages, s.objs[o].pages, left))
  }

  function MigratingMem(mem: map<FrameId, Page>, upper: map<PageNum, FrameId>, lower: map<PageNum, FrameId>,
                        left: map<PageNum, FrameId>): map<FrameId, Page>
  {
    mem - Superseded(upper, Done(lower, left))
  }

  lemma MigratingStart(s: Store, last: ObjId, o: ObjId)
    requires last in s.objs && o in s.objs && last != o
    ensures Migrating(s, last, o, s.objs[o].pages) == s
  {
    hide Done, Superseded, UpperObj;
    var done := Done(s.objs[o].pages, s.objs[o].pages);
    assert done == map[] by { DoneNone(s.objs[o].pages); }
    NothingDone(s.objs[last]);
    assert s.objs[o := s.objs[o]][last := s.objs[last]] == s.objs;
  }

  lemma DoneNone(lower: map<PageNum, FrameId>)
    ensures Done(lower, lower) == map[]
  {
    assert Done(lower, lower).Keys == {};
  }

  lemma NothingDone(up: Obj)
    ensures UpperObj(up, map[]) == up && Superseded(up.pages, map[]) == {}
  {
    var none: map<PageNum, FrameId> := map[];
    assert none - up.pages.Keys == none;
    assert none + up.pages == up.pages;
  }

  /** One more page is dealt with. */
  lemma DoneStep(lower: map<PageNum, FrameId>, left: map<PageNum, FrameId>, pn: PageNum)
    requires pn in left && pn in lower && left[pn] == lower[pn]
    ensures Done(lower, left - {pn}) == Done(lower, left)[pn := lower[pn]]
    ensures pn !in Done(lower, left) && |left - {pn}| == |left| - 1
  {
  }

  lemma MinusUpdate(m: map<PageNum, FrameId>, pn: PageNum, f: FrameId, keys: set<PageNum>)
    ensures pn !in keys ==> m[pn := f] - keys == (m - keys)[pn := f]
    ensures pn in keys ==> m[pn := f] - keys == m - keys
  {
  }

  lemma PlusUpdate(m: map<PageNum, FrameId>, n: map<PageNum, FrameId>, pn: PageNum, f: FrameId)
    requires pn !in m && pn !in n
    ensures m[pn := f] + n == (m + n)[pn := f] && |m[pn := f]| == |m| + 1
  {
  }

  lemma SupersededUpdate(upper: map<PageNum, FrameId>, done: map<PageNum, FrameId>, pn: PageNum, f: FrameId)
    requires pn !in done
    ensures Superseded(upper, done[pn := f]) == Superseded(upper, done) + (if pn in upper then {f} else {})
  {
    var d := done[pn := f];
    forall x ensures x in Superseded(upper, d) <==> x in Superseded(upper, done) + (if pn in upper then {f} else {}) {
      if x in Superseded(upper, done) {
        var q :| q in done && q in upper && done[q] == x;
        assert d[q] == x;
      }
      if pn in upper && x == f { assert d[pn] == x; }
    }
  }

  /** The upper object when one more page of the lower one has been dealt with. */
  lemma UpperStep(up: Obj, done: map<PageNum, FrameId>, pn: PageNum, f: FrameId)
    requires pn !in done
    ensures UpperObj(up, done).kind == up.kind
    ensures UpperObj(up, done[pn := f]) ==
      if pn in up.pages then UpperObj(up, done)
      else Obj(up.kind, UpperObj(up, done).refcount + 1, UpperObj(up, done).pages[pn := f])
  {
    var kept := done - up.pages.Keys;
    MinusUpdate(done, pn, f, up.pages.Keys);
    if pn !in up.pages { PlusUpdate(kept, up.pages, pn, f); }
  }

  /** A table that differs from objs at two places only. */
  lemma TwoPlaces(objs: Objs, o: ObjId, x: Obj, last: ObjId, y: Obj, m: Objs)
    requires o in objs && last in objs && o != last && m.Keys == objs.Keys && m[o] == x && m[last] == y
    requires forall z :: z in objs && z != o && z != last ==> m[z] == objs[z]
    ensures m == objs[o := x][last := y]
  {
  }

  /** The table while pages migrate. */
  function MigratingObjs(objs: Objs, last: ObjId, o: ObjId, left: map<PageNum, FrameId>): Objs
    requires last in objs && o in objs
  {
    objs[o := LowerObj(objs[o], left)][last := UpperObj(objs[last], Done(objs[o].pages, left))]
  }

  /** Migrating a page the upper object lacks moves the frame. */
  lemma MoveStep(objs: Objs, last: ObjId, o: ObjId, left: map<PageNum, FrameId>, pn: PageNum)
    requires last in objs && o in objs && last != o
    requires pn in left && pn in objs[o].pages && left[pn] == objs[o].pages[pn] && pn !in objs[last].pages
    ensures AddPage(AddRef(RemovePage(MigratingObjs(objs, last, o, left), o, pn), o, -1), last, pn, left[pn])
         == MigratingObjs(objs, last, o, left - {pn})
  {
    hide Done, UpperObj;
    var done := Done(objs[o].pages, left);
    DoneStep(objs[o].pages, left, pn);
    UpperStep(objs[last], done, pn, left[pn]);
    var m := AddPage(AddRef(RemovePage(MigratingObjs(objs, last, o, left), o, pn), o, -1), last, pn, left[pn]);
    TwoPlaces(objs, o, LowerObj(objs[o], left - {pn}), last, UpperObj(objs[last], Done(objs[o].pages, left - {pn})), m);
  }

  /** Migrating a page the upper object has only takes it from the lower one. */
  lemma FreeStep(objs: Objs, last: ObjId, o: ObjId, left: map<PageNum, FrameId>, pn: PageNum)
    requires last in objs && o in objs && last != o
    requires pn in left && pn in objs[o].pages && left[pn] == objs[o].pages[pn] && pn in objs[last].pages
    ensures AddRef(RemovePage(MigratingObjs(objs, last, o, left), o, pn), o, -1)
         == MigratingObjs(objs, last, o, left - {pn})
  {
    var done := Done(objs[o].pages, left);
    DoneStep(objs[o].pages, left, pn);
    UpperStep(objs[last], done, pn, left[pn]);
    var m := AddRef(RemovePage(MigratingObjs(objs, last, o, left), o, pn), o, -1);
    hide Done, UpperObj;
    TwoPlaces(objs, o, LowerObj(objs[o], left - {pn}), last, UpperObj(objs[last], Done(objs[o].pages, left - {pn})), m);
  }

  lemma MinusUnion(m: map<FrameId, Page>, a: set<FrameId>, f: FrameId)
    ensures m - (a + {f}) == m - a - {f}
    ensures m - (a + {}) == m - a
  {
    assert a + {} == a;
  }

  lemma MemStep(mem: map<FrameId, Page>, upper: map<PageNum, FrameId>, lower: map<PageNum, FrameId>, left: map<PageNum, FrameId>, pn: PageNum)
    requires pn in left && pn in lower && left[pn] == lower[pn]
    ensures MigratingMem(mem, upper, lower, left - {pn}) ==
      if pn in upper then MigratingMem(mem, upper, lower, left) - {left[pn]} else MigratingMem(mem, upper, lower, left)
  {
    DoneStep(lower, left, pn);
    SupersededUpdate(upper, Done(lower, left), pn, left[pn]);
    MinusUnion(mem, Superseded(upper, Done(lower, left)), left[pn]);
    hide Done, Superseded;
  }

  /** Releasing an object that has another reference only lowers its count. */
  lemma NotLastPut(s: Store, o: ObjId)
    requires o in s.objs && s.objs[o].refcount - 1 > |s.objs[o].pages|
    ensures Put(s, o) == Unref(s, o)
  {
  }

  // ------------------------------------------------------ the end of a merge

  /** The table once o's pages are gone, last is linked past o and o is freed. */
  function Relinked(objs: Objs, last: ObjId, o: ObjId): Objs
    requires IsShadow(objs, last) && IsShadow(objs, o)
  {
    (objs - {o})[last := Obj(Shadow(objs[o].kind.shadowed, objs[last].kind.bottom), objs[last].refcount, objs[last].pages)]
  }

  /** The table just before the last release of o. */
  function BeforeRelease(objs: Objs, last: ObjId, o: ObjId): Objs
    requires IsShadow(objs, last) && IsShadow(objs, o) && objs[o].kind.shadowed in objs
  {
    var below := objs[o].kind.shadowed;
    AddRef(objs[last := Obj(Shadow(below, objs[last].kind.bottom), objs[last].refcount, objs[last].pages)], below, 1)
  }

  lemma ReleaseTable(objs: Objs, last: ObjId, o: ObjId)
    requires IsShadow(objs, last) && IsShadow(objs, o) && objs[o].kind.shadowed in objs
    requires objs[o].kind.shadowed < o < last
    ensures o in BeforeRelease(objs, last, o) && objs[o].kind.shadowed in BeforeRelease(objs, last, o) - {o}
    ensures AddRef(BeforeRelease(objs, last, o) - {o}, objs[o].kind.shadowed, -1) == Relinked(objs, last, o)
  {
    var below := objs[o].kind.shadowed;
    var a := AddRef(BeforeRelease(objs, last, o) - {o}, below, -1);
    var b := Relinked(objs, last, o);
    assert a.Keys == b.Keys;
    assert forall z :: z in b ==> a[z] == b[z];
  }

  /** The final release of o frees it and leaves the object below with its old count. */
  lemma ReleaseMerged(s: Store, last: ObjId, o: ObjId)
    requires IsShadow(s.objs, last) && IsShadow(s.objs, o) && s.objs[o].kind.shadowed in s.objs
    requires s.objs[o].kind.shadowed < o < last
    requires s.objs[o].refcount == 1 && |s.objs[o].pages| == 0
    requires s.objs[s.objs[o].kind.shadowed].refcount > |s.objs[s.objs[o].kind.shadowed].pages|
    ensures o in BeforeRelease(s.objs, last, o)
    ensures Put(s.(objs := BeforeRelease(s.objs, last, o)), o) == s.(objs := Relinked(s.objs, last, o))
  {
    var below := s.objs[o].kind.shadowed;
    var c := s.(objs := BeforeRelease(s.objs, last, o));
    ReleaseTable(s.objs, last, o);
    assert c.objs[o] == s.objs[o];
    assert c.objs[o].pages.Values == {} by { assert c.objs[o].pages.Keys == {}; }
    var d := Discard(c, o);
    assert d.mem == s.mem;
    assert d.objs[below].refcount - 1 > |d.objs[below].pages|;
    NotLastPut(d, below);
    hide BeforeRelease, Relinked;
  }

  /** Migrating everything and relinking is Merge, seen with the walk's own reference to last. */
  lemma MergeIsMigration(s: Store, last: ObjId, o: ObjId, none: map<PageNum, FrameId>)
    requires IsShadow(s.objs, last) && IsShadow(s.objs, o) && o < last && |none| == 0
    ensures IsShadow(Migrating(Ref(s, last), last, o, none).objs, last) && IsShadow(Migrating(Ref(s, last), last, o, none).objs, o)
    ensures last in Merge(s, last, o).objs
    ensures Relinked(Migrating(Ref(s, last), last, o, none).objs, last, o) == Ref(Merge(s, last, o), last).objs
    ensures Migrating(Ref(s, last), last, o, none).mem == Merge(s, last, o).mem
  {
    var q := Ref(s, last);
    assert none.Keys == {};
    DoneAll(s.objs[o].pages, none);
    assert q.objs[o] == s.objs[o];
    var m := Migrating(q, last, o, none);
    assert m.objs[last] == UpperObj(q.objs[last], s.objs[o].pages);
    hide Done;
    var a := Relinked(m.objs, last, o);
    var b := Ref(Merge(s, last, o), last).objs;
    assert a.Keys == b.Keys;
    assert a[last] == b[last];
    assert forall z :: z in b && z != last ==> a[z] == b[z];
  }

  lemma DoneAll(lower: map<PageNum, FrameId>, none: map<PageNum, FrameId>)
    requires none.Keys == {}
    ensures Done(lower, none) == lower
  {
  }

  // ------------------------------------------------------------- the daemon

  /** pframe_migrate: o's page moves up to last, or is freed when last has one. */
  method Migrate(t: Table, o: ObjId, pn: PageNum, last: ObjId)
    requires ChainLive(t.objs, o) && pn in t.objs[o].pages && last in t.objs && o < last
    modifies t
    ensures pn in old(t.objs)[last].pages ==> t.State() == Unref(DropPage(old(t.State()), o, pn), o)
    ensures pn !in old(t.objs)[last].pages ==>
      t.State() == old(t.State()).(objs :=
        AddPage(AddRef(RemovePage(old(t.objs), o, pn), o, -1), last, pn, old(t.objs)[o].pages[pn]))
  {
    if pn in t.objs[last].pages {
      t.FreeFrame(o, pn);
    } else {
      ghost var s := t.State();
      var f := t.objs[o].pages[pn];
      t.objs := RemovePage(t.objs, o, pn);
      assert |t.objs[o].pages| == |s.objs[o].pages| - 1;
      if s.objs[o].kind.Shadow? { ChainLiveFrame(s.objs, t.objs, s.objs[o].kind.shadowed); }
      NotLastPut(t.State(), o);
      t.Put(o);
      t.objs := AddPage(t.objs, last, pn, f);
    }
  }

  lemma MigratingLive(s: Store, last: ObjId, o: ObjId, left: map<PageNum, FrameId>)
    requires ChainLive(s.objs, o) && last in s.objs && o < last
    ensures ChainLive(Migrating(s, last, o, left).objs, o)
  {
    var m := Migrating(s, last, o, left).objs;
    if s.objs[o].kind.Shadow? { ChainLiveFrame(s.objs, m, s.objs[o].kind.shadowed); }
  }

  /** One page more, whether moved or freed. */
  lemma MigrateStep(s: Store, last: ObjId, o: ObjId, left: map<PageNum, FrameId>, pn: PageNum)
    requires last in s.objs && o in s.objs && last != o
    requires pn in left && pn in s.objs[o].pages && left[pn] == s.objs[o].pages[pn]
    ensures var m := Migrating(s, last, o, left);
      && last in m.objs && o in m.objs && m.objs[o].pages == left
      && (pn in m.objs[last].pages <==> pn in s.objs[last].pages)
      && (if pn in s.objs[last].pages
          then Unref(DropPage(m, o, pn), o) == Migrating(s, last, o, left - {pn})
          else m.(objs := AddPage(AddRef(RemovePage(m.objs, o, pn), o, -1), last, pn, left[pn]))
               == Migrating(s, last, o, left - {pn}))
    ensures |left - {pn}| == |left| - 1
  {
    hide MigratingObjs, MigratingMem, AddRef, AddPage;
    MigratingParts(s.objs, last, o, left, pn);
    MemStep(s.mem, s.objs[last].pages, s.objs[o].pages, left, pn);
    if pn in s.objs[last].pages { FreeStep(s.objs, last, o, left, pn); } else { MoveStep(s.objs, last, o, left, pn); }
  }

  /** What the two objects hold while pages migrate. */
  lemma MigratingParts(objs: Objs, last: ObjId, o: ObjId, left: map<PageNum, FrameId>, pn: PageNum)
    requires last in objs && o in objs && last != o
    requires pn in left && pn in objs[o].pages && left[pn] == objs[o].pages[pn]
    ensures var m := MigratingObjs(objs, last, o, left);
      last in m && o in m && m[o].pages == left && (pn in m[last].pages <==> pn in objs[last].pages)
    ensures |left - {pn}| == |left| - 1
  {
  }

  /** The page loop of the collapse. */
  method MigrateAll(t: Table, o: ObjId, last: ObjId)
    requires ChainLive(t.objs, o) && last in t.objs && o < last
    modifies t
    ensures exists none :: |none| == 0 && t.State() == Migrating(old(t.State()), last, o, none)
  {
    ghost var s := t.State();
    ghost var left := t.objs[o].pages;
    MigratingStart(s, last, o);
    while |t.objs[o].pages| > 0
      invariant o in t.objs && left == t.objs[o].pages
      invariant forall q :: q in left ==> q in s.objs[o].pages && s.objs[o].pages[q] == left[q]
      invariant t.State() == Migrating(s, last, o, left)
      decreases |t.objs[o].pages|
    {
      assert t.objs[o].pages.Keys != {};
      var pn :| pn in t.objs[o].pages;
      MigratingLive(s, last, o, left);
      MigrateStep(s, last, o, left, pn);
      hide Migrating;
      Migrate(t, o, pn, last);
      left := left - {pn};
    }
  }

  /** The link of last moves past the emptied o, and o is released for the last time. */
  method Unlink(t: Table, last: ObjId, o: ObjId)
    requires IsShadow(t.objs, last) && IsShadow(t.objs, o) && o < last && ChainLive(t.objs, o)
    requires t.objs[o].refcount == 1 && |t.objs[o].pages| == 0
    modifies t
    ensures t.State() == old(t.State()).(objs := Relinked(old(t.objs), last, o))
  {
    ghost var m := t.State();
    var below := t.objs[o].kind.shadowed;
    ReleaseMerged(m, last, o);
    AbsorbLive(m, last, o);
    hide Put, Relinked;
    t.objs := t.objs[last := Obj(Shadow(below, t.objs[last].kind.bottom), t.objs[last].refcount, t.objs[last].pages)];
    t.Ref(below);
    t.Put(o);
  }

  /** An object with a single parent is emptied into the one above it, unlinked and freed. */
  method Absorb(t: Table, last: ObjId, o: ObjId, ghost s: Store)
    requires IsShadow(s.objs, last) && IsShadow(s.objs, o) && o < last
    requires ChainLive(s.objs, o) && Parents(s.objs, o) == 1 && t.State() == Ref(s, last)
    modifies t
    ensures t.State() == Ref(Merge(s, last, o), last)
  {
    ChainLiveFrame(s.objs, t.objs, o);
    MigrateAll(t, o, last);
    ghost var none :| |none| == 0 && t.State() == Migrating(Ref(s, last), last, o, none);
    AbsorbReady(s, last, o, none);
    MergeIsMigration(s, last, o, none);
    hide Relinked, ChainLive;
    Unlink(t, last, o);
  }

  lemma AbsorbReady(s: Store, last: ObjId, o: ObjId, none: map<PageNum, FrameId>)
    requires IsShadow(s.objs, last) && IsShadow(s.objs, o) && o < last
    requires ChainLive(s.objs, o) && Parents(s.objs, o) == 1 && |none| == 0
    ensures s.objs[o].kind.shadowed in s.objs
    ensures var m := Migrating(Ref(s, last), last, o, none).objs;
      && m.Keys == s.objs.Keys && m[o] == Obj(s.objs[o].kind, 1, none)
      && m[s.objs[o].kind.shadowed] == s.objs[s.objs[o].kind.shadowed]
      && ChainLive(m, o)
  {
    ChainLiveFrame(s.objs, Ref(s, last).objs, o);
    MigratingLive(Ref(s, last), last, o, none);
  }

  lemma AbsorbLive(s: Store, last: ObjId, o: ObjId)
    requires IsShadow(s.objs, last) && IsShadow(s.objs, o) && o < last && ChainLive(s.objs, o)
    ensures s.objs[o].kind.shadowed in s.objs
    ensures ChainLive(BeforeRelease(s.objs, last, o), o)
  {
    var below := s.objs[o].kind.shadowed;
    var r := BeforeRelease(s.objs, last, o);
    assert r[below].refcount > |r[below].pages|;
    if s.objs[below].kind.Shadow? { ChainLiveFrame(s.objs, r, s.objs[below].kind.shadowed); }
  }

  /** Releasing the reference just taken undoes it. */
  lemma RefPut(s: Store, o: ObjId)
    requires o in s.objs && s.objs[o].refcount > |s.objs[o].pages|
    ensures Put(Ref(s, o), o) == s
  {
    NotLastPut(Ref(s, o), o);
    assert AddRef(AddRef(s.objs, o, 1), o, -1) == s.objs;
  }

  lemma RefRef(s: Store, last: ObjId, o: ObjId)
    requires o in s.objs && last in s.objs && o != last
    ensures Ref(Ref(s, last), o) == Ref(Ref(s, o), last)
  {
    assert AddRef(AddRef(s.objs, last, 1), o, 1) == AddRef(AddRef(s.objs, o, 1), last, 1);
  }

  lemma {:induction false} RefLive(s: Store, x: ObjId, o: ObjId)
    requires ChainLive(s.objs, o) && x in s.objs
    ensures ChainLive(Ref(s, x).objs, o)
    decreases o
  {
    if s.objs[o].kind.Shadow? { RefLive(s, x, s.objs[o].kind.shadowed); }
  }

  /** The walk moves on: o becomes the object held. */
  method Advance(t: Table, last: ObjId, o: ObjId, ghost s: Store)
    requires ChainLive(s.objs, last) && o in s.objs && o != last && t.State() == Ref(s, last)
    modifies t
    ensures t.State() == Ref(s, o)
  {
    RefRef(s, last, o);
    RefPut(Ref(s, o), last);
    RefLive(s, last, last);
    RefLive(Ref(s, last), o, last);
    t.Ref(o);
    t.Put(last);
  }

  /** What the walk's loop keeps: the pure walk from here is the pure walk from the start. */
  ghost predicate Walking(s0: Store, roots: multiset<ObjId>, top: ObjId, s: Store, last: ObjId, o: ObjId) {
    && Inv(s, roots) && IsShadow(s.objs, last) && s.objs[last].kind.shadowed == o
    && External(s.objs, roots, last) > 0
    && Collapse(s0, top) == Walk(s, last, o)
  }

  lemma WalkingLive(s0: Store, roots: multiset<ObjId>, top: ObjId, s: Store, last: ObjId, o: ObjId)
    requires Walking(s0, roots, top, s, last, o)
    ensures o in s.objs && o < last && ChainLive(s.objs, last) && ChainLive(s.objs, o)
    ensures IsShadow(s.objs, o) ==> s.objs[o].kind.shadowed < o
  {
    InvChainLive(s, roots, last);
  }

  lemma WalkingMerge(s0: Store, roots: multiset<ObjId>, top: ObjId, s: Store, last: ObjId, o: ObjId)
    requires Walking(s0, roots, top, s, last, o) && IsShadow(s.objs, o) && Parents(s.objs, o) == 1
    ensures Walking(s0, roots, top, Merge(s, last, o), last, s.objs[o].kind.shadowed)
  {
    WalkSingle(s, roots, last, o);
    SingleParent(s.objs, roots, last, o);
    MergeInv(s, roots, last, o);
    MergedLinks(s.objs, last, o, last);
    MergeAbove(s.objs, last, o, last);
    hide Inv, Single, MergedObjs, Above;
  }

  lemma WalkingOn(s0: Store, roots: multiset<ObjId>, top: ObjId, s: Store, last: ObjId, o: ObjId)
    requires Walking(s0, roots, top, s, last, o) && IsShadow(s.objs, o) && Parents(s.objs, o) != 1
    ensures Walking(s0, roots, top, s, o, s.objs[o].kind.shadowed)
  {
    assert last in Above(s.objs, o);
  }

  /** shadowd on one area: the loop down the chain below its top object. */
  method CollapseChain(t: Table, top: ObjId, ghost roots: multiset<ObjId>)
    requires Inv(t.State(), roots) && top in roots && top in t.objs
    modifies t
    ensures t.State() == Collapse(old(t.State()), top)
    ensures Inv(t.State(), roots) && SameMeaning(old(t.State()), t.State()) && NoSingles(t.objs, top)
  {
    ghost var s0 := t.State();
    InvChainLive(s0, roots, top);
    if !IsShadow(t.objs, top) {
      t.Ref(top);
      RefPut(s0, top);
      RefLive(s0, top, top);
      t.Put(top);
      SameMeaningRefl(s0);
      return;
    }
    ghost var s := s0;
    var last, o := top, t.objs[top].kind.shadowed;
    t.Ref(last);
    while IsShadow(t.objs, o)
      invariant Walking(s0, roots, top, s, last, o) && t.State() == Ref(s, last)
      decreases o
    {
      WalkingLive(s0, roots, top, s, last, o);
      var shadow := t.objs[o].kind.shadowed;
      assert t.objs[o] == s.objs[o];
      if t.objs[o].refcount - |t.objs[o].pages| == 1 {
        WalkingMerge(s0, roots, top, s, last, o);
        Absorb(t, last, o, s);
        s := Merge(s, last, o);
      } else {
        WalkingOn(s0, roots, top, s, last, o);
        Advance(t, last, o, s);
        last := o;
      }
      o := shadow;
    }
    WalkingLive(s0, roots, top, s, last, o);
    RefPut(s, last);
    RefLive(s, last, last);
    t.Put(last);
    WalkCorrect(s0, roots, top, s0.objs[top].kind.shadowed);
    WalkComplete(s0, roots, top, s0.objs[top].kind.shadowed);
  }
}
