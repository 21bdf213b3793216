/**
 * The memory-object operations as the kernel performs them: one table of
 * objects and frames updated in place, with the source's loops and its
 * re-entrant releases (kernel/proc/vm/shadow.c, anon.c, shadowd.c,
 * kernel/mm/pframe.c).  Every method ends in the store that the
 * specification function of the same step gives.
 */
module ObjectTable {
  import opened Basics
  import opened MemObjects

  /** Every object on o's chain has a reference beyond those of its pages. */
  ghost predicate ChainLive(objs: Objs, o: ObjId)
    decreases o
  {
    && o in objs
    && objs[o].refcount > |objs[o].pages|
    && (objs[o].kind.Shadow? ==> objs[o].kind.shadowed < o && ChainLive(objs, objs[o].kind.shadowed))
  }

  /** ChainLive looks only at the chain. */
  lemma {:induction false} ChainLiveFrame(objs: Objs, objs1: Objs, o: ObjId)
    requires ChainLive(objs, o)
    requires forall x :: x <= o && x in objs ==> x in objs1 && objs1[x] == objs[x]
    ensures ChainLive(objs1, o)
    decreases o
  {
    if objs[o].kind.Shadow? { ChainLiveFrame(objs, objs1, objs[o].kind.shadowed); }
  }

  /** The store without object o. */
  function Removed(s: Store, o: ObjId): Store {
    s.(objs := s.objs - {o})
  }

  lemma UnrefWithout(s: Store, x: ObjId, o: ObjId)
    requires x in s.objs && x != o
    ensures Removed(Unref(s, x), o) == Unref(Removed(s, o), x)
  {
    assert AddRef(s.objs, x, -1) - {o} == AddRef(s.objs - {o}, x, -1);
  }

  lemma DiscardWithout(s: Store, x: ObjId, o: ObjId)
    requires x in s.objs && x != o
    ensures Removed(Discard(s, x), o) == Discard(Removed(s, o), x)
  {
    assert s.objs - {x} - {o} == s.objs - {o} - {x};
  }

  lemma WithoutAt(s: Store, x: ObjId, o: ObjId)
    requires x != o
    ensures x in Removed(s, o).objs <==> x in s.objs
    ensures x in s.objs ==> Removed(s, o).objs[x] == s.objs[x]
  {
  }

  /** Releasing an older object does not look at a newer one. */
  lemma {:induction false} PutWithout(s: Store, x: ObjId, o: ObjId)
    requires x in s.objs && x < o
    ensures x in Removed(s, o).objs && Removed(Put(s, x), o) == Put(Removed(s, o), x)
    decreases x
  {
    hide Unref, Discard, Removed;
    var ob := s.objs[x];
    WithoutAt(s, x, o);
    if ob.kind.Shadow? && ob.refcount - 1 == |ob.pages| {
      var s1 := Discard(s, x);
      DiscardWithout(s, x, o);
      if ob.kind.shadowed < x {
        WithoutAt(s1, ob.kind.shadowed, o);
        if ob.kind.shadowed in s1.objs { PutWithout(s1, ob.kind.shadowed, o); }
      }
    } else if ob.kind.Anon? && ob.refcount - 1 <= |ob.pages| && |ob.pages| > 0 {
      DiscardWithout(s, x, o);
    } else {
      UnrefWithout(s, x, o);
    }
  }

  lemma DiscardKeys(s: Store, x: ObjId)
    requires x in s.objs
    ensures Discard(s, x).objs.Keys == s.objs.Keys - {x}
  {
  }

  /** The frames of the pages in all that are no longer in left. */
  function Gone(all: map<PageNum, FrameId>, left: map<PageNum, FrameId>): set<FrameId> {
    set pn | pn in all && pn !in left :: all[pn]
  }

  /** The store after the pages of o not in left have been freed. */
  function Freed(s: Store, o: ObjId, left: map<PageNum, FrameId>): Store
    requires o in s.objs
  {
    var ob := s.objs[o];
    s.(objs := s.objs[o := Obj(ob.kind, ob.refcount - |ob.pages| + |left|, left)], mem := s.mem - Gone(ob.pages, left))
  }

  lemma FreedStart(s: Store, o: ObjId)
    requires o in s.objs
    ensures Freed(s, o, s.objs[o].pages) == s
  {
    assert Gone(s.objs[o].pages, s.objs[o].pages) == {};
    assert s.objs[o := s.objs[o]] == s.objs;
  }

  lemma FreedStep(s: Store, o: ObjId, left: map<PageNum, FrameId>, pn: PageNum)
    requires o in s.objs && pn in left
    requires forall q :: q in left ==> q in s.objs[o].pages && s.objs[o].pages[q] == left[q]
    ensures Unref(DropPage(Freed(s, o, left), o, pn), o) == Freed(s, o, left - {pn})
  {
    var all := s.objs[o].pages;
    assert |left - {pn}| == |left| - 1;
    assert Gone(all, left - {pn}) == Gone(all, left) + {left[pn]};
    var a := Unref(DropPage(Freed(s, o, left), o, pn), o);
    assert a.objs == Freed(s, o, left - {pn}).objs;
    assert a.mem == s.mem - Gone(all, left) - {left[pn]};
    assert s.mem - Gone(all, left) - {left[pn]} == s.mem - (Gone(all, left) + {left[pn]});
  }

  /** With every page freed, removing o is Discard. */
  lemma FreedEnd(s: Store, o: ObjId, left: map<PageNum, FrameId>)
    requires o in s.objs && |left| == 0
    ensures Removed(Freed(s, o, left), o) == Discard(s, o)
  {
    assert left.Keys == {};
    assert Gone(s.objs[o].pages, left) == s.objs[o].pages.Values;
    assert Freed(s, o, left).objs - {o} == s.objs - {o};
  }

  class Table {
    var objs: Objs
    var mem: map<FrameId, Page>
    var nextObj: nat
    var nextFrame: nat

    ghost function State(): Store
      reads this
    {
      Store(objs, mem, nextObj, nextFrame)
    }

    /** anon_create. */
    method AnonCreate() returns (o: ObjId)
      modifies this
      ensures State() == NewObj(old(State()), Anon) && o == old(nextObj)
    {
      o := nextObj;
      objs := AddObj(objs, o, Anon);
      nextObj := nextObj + 1;
    }

    /** shadow_create, with the caller's setting of the two links. */
    method ShadowCreate(below: ObjId) returns (o: ObjId)
      modifies this
      ensures State() == NewShadow(old(State()), below) && o == old(nextObj)
    {
      o := nextObj;
      var bottom := if IsShadow(objs, below) then objs[below].kind.bottom else below;
      objs := AddObj(objs, o, Shadow(below, bottom));
      nextObj := nextObj + 1;
    }

    /** The ref operation. */
    method Ref(o: ObjId)
      requires o in objs
      modifies this
      ensures State() == MemObjects.Ref(old(State()), o)
    {
      objs := AddRef(objs, o, 1);
    }

    /** pframe_free: the page goes, then its reference is released. */
    method FreeFrame(o: ObjId, pn: PageNum)
      requires ChainLive(objs, o) && pn in objs[o].pages
      modifies this
      ensures State() == Unref(DropPage(old(State()), o, pn), o)
      decreases o, |objs[o].pages|, 0
    {
      ghost var s := State();
      mem := mem - {objs[o].pages[pn]};
      objs := RemovePage(objs, o, pn);
      assert State() == DropPage(s, o, pn);
      assert |objs[o].pages| == |s.objs[o].pages| - 1;
      if objs[o].kind.Shadow? { ChainLiveFrame(s.objs, objs, objs[o].kind.shadowed); }
      Put(o);
    }

    /** The page loops of shadow_put and anon_put. */
    method FreeAllFrames(o: ObjId)
      requires ChainLive(objs, o)
      modifies this
      ensures exists none :: |none| == 0 && State() == Freed(old(State()), o, none)
      decreases o, |objs[o].pages|, 1
    {
      ghost var s := State();
      ghost var left := objs[o].pages;
      FreedStart(s, o);
      while |objs[o].pages| > 0
        invariant o in objs && left == objs[o].pages && |left| <= |s.objs[o].pages|
        invariant forall q :: q in left ==> q in s.objs[o].pages && s.objs[o].pages[q] == left[q]
        invariant State() == Freed(s, o, left)
        decreases |objs[o].pages|
      {
        assert objs[o].pages.Keys != {};
        var pn :| pn in objs[o].pages;
        FreedStep(s, o, left, pn);
        FreedLive(s, o, left);
        FreeFrame(o, pn);
        left := left - {pn};
      }
    }

    /** shadow_put, anon_put and the count part of vput. */
    method Put(o: ObjId)
      requires ChainLive(objs, o)
      modifies this
      ensures State() == MemObjects.Put(old(State()), o)
      decreases o, |objs[o].pages|, 2
    {
      ghost var s := State();
      var ob := objs[o];
      if ob.kind.Shadow? && ob.refcount - 1 == |ob.pages| {
        FreeAllFrames(o);
        ghost var none :| |none| == 0 && State() == Freed(s, o, none);
        PutByParts(s, o, none);
        Put(ob.kind.shadowed);
        objs := objs - {o};
      } else if ob.kind.Anon? && ob.refcount - 1 <= |ob.pages| && |ob.pages| > 0 {
        FreeAllFrames(o);
        ghost var none :| |none| == 0 && State() == Freed(s, o, none);
        FreedEnd(s, o, none);
        objs := objs - {o};
      } else {
        objs := AddRef(objs, o, -1);
      }
    }

    /** pframe_alloc; the frame's contents are set when it is filled. */
    method AllocPage(o: ObjId, pn: PageNum) returns (f: FrameId)
      requires o in objs
      modifies this
      ensures State() == AllocFrame(old(State()), o, pn, ZERO_PAGE) && f == old(nextFrame)
    {
      f := nextFrame;
      nextFrame := nextFrame + 1;
      mem := mem[f := ZERO_PAGE];
      objs := AddPage(objs, o, pn, f);
    }

    /** pframe_get on a bottom object: anon_lookuppage, or vlookuppage with its length check. */
    method GetBottom(b: ObjId, pn: PageNum) returns (frame: Option<FrameId>)
      requires b in objs && !IsShadow(objs, b)
      modifies this
      ensures Got(State(), frame) == Lookup(old(State()), b, pn)
      ensures pn !in old(objs[b].pages) && old(objs[b].kind).Anon? ==>
        frame.Some? && frame.value in mem && mem[frame.value] == ZERO_PAGE
      ensures pn !in old(objs[b].pages) && old(objs[b].kind).File? ==>
        && (frame.Some? <==> pn in old(objs[b].kind).backing)
        && (frame.Some? ==> frame.value in mem && mem[frame.value] == old(objs[b].kind).backing[pn])
      ensures pn in old(objs[b].pages) ==> frame == Some(old(objs[b].pages[pn])) && State() == old(State())
    {
      if objs[b].kind.File? && pn !in objs[b].pages && pn !in objs[b].kind.backing { return None; }
      if pn in objs[b].pages { return Some(objs[b].pages[pn]); }
      ghost var s := State();
      var d := if objs[b].kind.File? then objs[b].kind.backing[pn] else ZERO_PAGE;
      var f := AllocPage(b, pn);
      mem := mem[f := d];
      assert mem == s.mem[f := d];
      frame := Some(f);
    }

    /** shadow_lookuppage for reading: walk down the chain to the first object that has the page. */
    method LookupPage(o: ObjId, pn: PageNum) returns (frame: Option<FrameId>)
      requires Closed(objs) && o in objs
      modifies this
      ensures Got(State(), frame) == Lookup(old(State()), o, pn)
    {
      var temp := o;
      frame := None;
      while IsShadow(objs, temp)
        invariant temp in objs && State() == old(State()) && frame.None?
        invariant Private(objs, o, pn) == Private(objs, temp, pn) && Bottom(objs, o) == Bottom(objs, temp)
        decreases temp
      {
        frame := Resident(objs, temp, pn);
        if frame.Some? { return; }
        temp := objs[temp].kind.shadowed;
      }
      frame := GetBottom(temp, pn);
    }

    /** pframe_get for writing: shadow_fillpage copies the page up from the chain below. */
    method GetPageForWrite(o: ObjId, pn: PageNum) returns (frame: Option<FrameId>)
      requires Closed(objs) && ChainLive(objs, o)
      modifies this
      ensures Got(State(), frame) == GetForWrite(old(State()), o, pn)
    {
      if !IsShadow(objs, o) {
        frame := LookupPage(o, pn);
        return;
      }
      if pn in objs[o].pages { return Some(objs[o].pages[pn]); }
      ghost var s := State();
      var mine := AllocPage(o, pn);
      ghost var s1 := State();
      AllocClosed(s, o, pn);
      var from := LookupPage(objs[o].kind.shadowed, pn);
      if from.Some? {
        mem := mem[mine := if from.value in mem then mem[from.value] else ZERO_PAGE];
        frame := Some(mine);
      } else {
        LookupFails(s1, s1.objs[o].kind.shadowed, pn);
        AllocLive(s, o, pn);
        FreeFrame(o, pn);
        frame := None;
        FailPut(s, o, pn);
      }
    }
  }

  lemma AllocClosed(s: Store, o: ObjId, pn: PageNum)
    requires Closed(s.objs) && IsShadow(s.objs, o)
    ensures Closed(AllocFrame(s, o, pn, ZERO_PAGE).objs)
    ensures s.objs[o].kind.shadowed in AllocFrame(s, o, pn, ZERO_PAGE).objs
  {
    var objs1 := AllocFrame(s, o, pn, ZERO_PAGE).objs;
    forall x | IsShadow(objs1, x) ensures objs1[x].kind.shadowed < x && objs1[x].kind.shadowed in objs1 {
      assert IsShadow(s.objs, x);
    }
  }

  lemma LookupFails(s: Store, o: ObjId, pn: PageNum)
    requires Lookup(s, o, pn).frame.None?
    ensures Lookup(s, o, pn).s == s
  {
  }

  lemma AllocLive(s: Store, o: ObjId, pn: PageNum)
    requires ChainLive(s.objs, o) && pn !in s.objs[o].pages
    ensures ChainLive(AllocFrame(s, o, pn, ZERO_PAGE).objs, o)
  {
    var objs1 := AllocFrame(s, o, pn, ZERO_PAGE).objs;
    if s.objs[o].kind.Shadow? { ChainLiveFrame(s.objs, objs1, s.objs[o].kind.shadowed); }
  }

  /** Releasing the page just allocated only lowers the count again. */
  lemma FailPut(s: Store, o: ObjId, pn: PageNum)
    requires IsShadow(s.objs, o) && pn !in s.objs[o].pages && s.objs[o].refcount > |s.objs[o].pages|
    ensures var s2 := DropPage(AllocFrame(s, o, pn, ZERO_PAGE), o, pn);
      Put(s2, o) == Unref(s2, o)
  {
    var s2 := DropPage(AllocFrame(s, o, pn, ZERO_PAGE), o, pn);
    assert s2.objs[o].pages == s.objs[o].pages;
  }

  /** Releasing the last reference to a shadow object: free its pages, release the object below, drop it. */
  lemma PutByParts(s: Store, o: ObjId, none: map<PageNum, FrameId>)
    requires ChainLive(s.objs, o) && s.objs[o].kind.Shadow? && s.objs[o].refcount - 1 == |s.objs[o].pages| && |none| == 0
    ensures ChainLive(Freed(s, o, none).objs, s.objs[o].kind.shadowed)
    ensures Put(s, o) == Removed(Put(Freed(s, o, none), s.objs[o].kind.shadowed), o)
  {
    var below := s.objs[o].kind.shadowed;
    ChainLiveFrame(s.objs, Freed(s, o, none).objs, below);
    FreedEnd(s, o, none);
    PutWithout(Freed(s, o, none), below, o);
    DiscardKeys(s, o);
    hide Freed, Discard, Removed;
  }

  lemma FreedLive(s: Store, o: ObjId, left: map<PageNum, FrameId>)
    requires ChainLive(s.objs, o)
    ensures ChainLive(Freed(s, o, left).objs, o)
  {
    if s.objs[o].kind.Shadow? { ChainLiveFrame(s.objs, Freed(s, o, left).objs, s.objs[o].kind.shadowed); }
  }

  /** Under the invariant, every object that can be released is live. */
  lemma {:induction false} InvChainLive(s: Store, roots: multiset<ObjId>, o: ObjId)
    requires Inv(s, roots) && o in s.objs && External(s.objs, roots, o) > 0
    ensures ChainLive(s.objs, o)
    decreases o
  {
    assert Counted(s.objs, roots, o);
    if IsShadow(s.objs, o) {
      var below := s.objs[o].kind.shadowed;
      assert o in Above(s.objs, below);
      InvChainLive(s, roots, below);
    }
  }
}
