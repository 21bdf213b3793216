/**
 * Slab allocators at work on the page allocator: growing by a block, handing
 * out and taking back objects, and giving empty slabs back
 * (kernel/mm/slab.c:191-368).
 */
module SlabCache {
  import opened Basics
  import opened BuddyBlocks
  import opened FreeLists
  import opened PageGroup
  import opened PageAllocator
  import opened SlabSizes
  import opened SlabChains
  import opened SlabState

  /** The page blocks of the slabs: for each, its group and the block. */
  type Blocks = map<nat, (nat, Block)>

  /** Slab s at addr is the allocated block bl of the page allocator. */
  ghost predicate BlockOk(order: nat, vs: seq<View>, addr: nat, bl: (nat, Block)) {
    && bl.0 < |vs| && bl.1 in vs[bl.0].live && bl.1.o == order
    && addr == AddrOf(vs[bl.0].base, order, bl.1.q)
  }

  /** Every slab has an allocated block of its own. */
  ghost predicate BlocksOk(order: nat, vs: seq<View>, hdr: map<nat, Header>, blocks: Blocks) {
    && blocks.Keys == hdr.Keys
    && (forall s :: s in hdr ==> BlockOk(order, vs, hdr[s].addr, blocks[s]))
    && (forall s, t :: s in hdr && t in hdr && s != t ==> blocks[s] != blocks[t])
  }

  // -------------------------------------------------------- blocks are apart

  /** Groups do not share addresses. */
  ghost predicate ViewsApart(vs: seq<View>) {
    forall i: nat, j: nat :: i < |vs| && j < |vs| && i != j ==> vs[i].End() <= vs[j].base || vs[j].End() <= vs[i].base
  }

  /** A block lies inside its group. */
  ghost predicate BlockIn(v: View, b: Block) {
    AddrOf(v.base, b.o, b.q) + BlockSize(b.o) <= v.End()
  }

  lemma WholeInside(n: nat, base: nat, npages: nat, b: Block)
    requires n > 0 && InRegion(n, Up(npages, n - 1), b)
    ensures AddrOf(base, b.o, b.q) + BlockSize(b.o) <= base + npages * PAGE_SIZE
  {
    if b.q >= Up(npages, b.o) {
      UpMonotone(Up(npages, b.o), b.q, n - 1 - b.o);
      UpUp(npages, b.o, n - 1 - b.o);
      assert false;
    }
    UpTimes(npages, b.o);
    MulLess(b.q, Up(npages, b.o), Pow2(b.o));
    PageTimes(b.q, Pow2(b.o));
    hide Pow2, Up;
  }

  lemma PagesApart(p: Pages)
    requires p.Valid()
    ensures ViewsApart(p.views)
  {
    forall i: nat, j: nat | i < |p.views| && j < |p.views| && i != j
      ensures p.views[i].End() <= p.views[j].base || p.views[j].End() <= p.views[i].base
    {
      GroupsApart(p, i, j);
    }
  }

  lemma GroupsApart(p: Pages, i: nat, j: nat)
    requires p.Valid() && i < |p.groups| && j < |p.groups| && i != j
    ensures |p.groups| == |p.views| && (p.views[i].End() <= p.views[j].base || p.views[j].End() <= p.views[i].base)
  {
    hide Pages.Valid, Matches, Group.Valid, Group.PagesFree, Sum, Dropped, Up;
    ValidParts(p, i);
    ValidParts(p, j);
    assert End(p.groups[i]) == p.views[i].End() && End(p.groups[j]) == p.views[j].End();
  }

  lemma LiveIn(p: Pages, at: nat, b: Block)
    requires p.Valid() && at < |p.views| && b in p.views[at].live
    ensures BlockIn(p.views[at], b)
  {
    ValidParts(p, at);
    LiveInRegion(p.groups[at], b);
    WholeInside(p.n, p.views[at].base, p.views[at].npages, b);
    hide AddrOf, BlockSize, Up;
  }

  /** Any two allocated blocks, whatever their sizes and groups, share no address. */
  lemma LiveApart(p: Pages, i: nat, b: Block, j: nat, c: Block)
    requires p.Valid() && i < |p.views| && j < |p.views| && b in p.views[i].live && c in p.views[j].live && (i, b) != (j, c)
    ensures var x, y := AddrOf(p.views[i].base, b.o, b.q), AddrOf(p.views[j].base, c.o, c.q);
      x + BlockSize(b.o) <= y || y + BlockSize(c.o) <= x
  {
    hide Pages.Valid, Pow2, AddrOf;
    if i == j {
      NoOverlap(p, i, b, c);
      OverlapIsSharing(p.views[i].base, b, c);
    } else {
      PagesApart(p);
      assert p.views[i].End() <= p.views[j].base || p.views[j].End() <= p.views[i].base;
      LiveIn(p, i, b);
      LiveIn(p, j, c);
      AboveBase(p.views[i].base, b.o, b.q);
      AboveBase(p.views[j].base, c.o, c.q);
    }
  }

  lemma NoOverlap(p: Pages, i: nat, b: Block, c: Block)
    requires p.Valid() && i < |p.views| && b in p.views[i].live && c in p.views[i].live && b != c
    ensures !Overlap(b, c)
  {
    ValidParts(p, i);
    hide Pages.Valid;
    var g := p.groups[i];
    assert b in g.blocks + g.live && c in g.blocks + g.live;
  }

  /** Two blocks of one order in one group, or two blocks of two groups, share no address. */
  lemma TwoBlocks(vs: seq<View>, order: nat, i: nat, b: Block, j: nat, c: Block)
    requires ViewsApart(vs) && i < |vs| && j < |vs| && b.o == c.o == order && BlockIn(vs[i], b) && BlockIn(vs[j], c)
    requires i == j ==> b.q != c.q
    ensures Separate(BlockSize(order), AddrOf(vs[i].base, order, b.q), AddrOf(vs[j].base, order, c.q))
  {
    if i == j {
      var u := BlockSize(order);
      if b.q < c.q { MulLess(b.q, c.q, u); } else { MulLess(c.q, b.q, u); }
      hide Pow2;
    } else {
      assert vs[i].End() <= vs[j].base || vs[j].End() <= vs[i].base;
      AboveBase(vs[i].base, order, b.q);
      AboveBase(vs[j].base, order, c.q);
      hide AddrOf, BlockSize;
    }
  }

  lemma AboveBase(base: nat, o: nat, q: nat)
    ensures AddrOf(base, o, q) >= base
  {
  }

  /** A block handed out is apart from those of every slab. */
  lemma NewIsFresh(p: Pages, order: nat, vs: seq<View>, hdr: map<nat, Header>, blocks: Blocks, at: nat, b: Block, addr: nat)
    requires p.Valid() && BlocksOk(order, vs, hdr, blocks) && Handed(p.n, vs, p.views, at, b, addr) && b.o == order
    ensures Fresh(BlockSize(order), hdr, addr)
  {
    PagesApart(p);
    assert b in p.views[at].live;
    LiveIn(p, at, b);
    forall s | s in hdr ensures Separate(BlockSize(order), hdr[s].addr, addr) {
      assert BlockOk(order, vs, hdr[s].addr, blocks[s]);
      var (i, c) := blocks[s];
      LiveIn(p, i, c);
      if i == at && c.q == b.q { assert false; }
      TwoBlocks(p.views, order, i, c, at, b);
      hide *;
    }
  }

  /** Other blocks stay allocated when one more is handed out. */
  lemma HandedKeeps(n: nat, order: nat, vs: seq<View>, vs': seq<View>, at: nat, b: Block, addr: nat, a: nat, bl: (nat, Block))
    requires Handed(n, vs, vs', at, b, addr) && BlockOk(order, vs, a, bl)
    ensures BlockOk(order, vs', a, bl) && bl != (at, b)
  {
    if bl == (at, b) { assert Overlap(b, b); assert false; }
  }

  /** The page blocks outside gone stay allocated, where they were. */
  ghost predicate Keeps(vs: seq<View>, vs': seq<View>, gone: set<(nat, Block)>) {
    && |vs| == |vs'|
    && (forall i: nat :: i < |vs| ==> vs'[i].base == vs[i].base)
    && (forall i: nat, b: Block :: i < |vs| && b in vs[i].live && (i, b) !in gone ==> b in vs'[i].live)
  }

  lemma KeepsStep(vs: seq<View>, vs1: seq<View>, vs2: seq<View>, gone: set<(nat, Block)>, blocks: Blocks, s: nat)
    requires Keeps(vs, vs1, gone) && s in blocks && blocks.Values <= gone && Keeps(vs1, vs2, {blocks[s]})
    ensures Keeps(vs, vs2, gone) && (blocks - {s}).Values <= gone
  {
    assert blocks[s] in gone;
    var left := blocks - {s};
    forall v | v in left.Values ensures v in gone {
      var k :| k in left && left[k] == v;
      assert blocks[k] == v;
    }
  }

  lemma HandedKeepsAll(n: nat, vs: seq<View>, vs': seq<View>, at: nat, b: Block, addr: nat)
    requires Handed(n, vs, vs', at, b, addr)
    ensures Keeps(vs, vs', {})
  {
  }

  lemma ReturnedKeepsAll(vs: seq<View>, vs': seq<View>, at: nat, b: Block, addr: nat)
    requires Returned(vs, vs', at, b, addr)
    ensures Keeps(vs, vs', {(at, b)})
  {
  }

  lemma KeepsSelf(vs: seq<View>)
    ensures Keeps(vs, vs, {})
  {
  }

  lemma KeepsMore(vs: seq<View>, vs': seq<View>, gone: set<(nat, Block)>, more: set<(nat, Block)>)
    requires Keeps(vs, vs', gone) && gone <= more
    ensures Keeps(vs, vs', more)
  {
  }

  lemma KeepsBlocks(order: nat, vs: seq<View>, vs': seq<View>, gone: set<(nat, Block)>, hdr: map<nat, Header>, blocks: Blocks)
    requires BlocksOk(order, vs, hdr, blocks) && Keeps(vs, vs', gone) && forall s :: s in blocks ==> blocks[s] !in gone
    ensures BlocksOk(order, vs', hdr, blocks)
  {
    forall s | s in hdr ensures BlockOk(order, vs', hdr[s].addr, blocks[s]) {
      assert BlockOk(order, vs, hdr[s].addr, blocks[s]);
    }
  }

  /** The new slab's block joins those of the others. */
  lemma GrownBlocks(n: nat, order: nat, vs: seq<View>, vs': seq<View>, hdr: map<nat, Header>, blocks: Blocks, s: nat, addr: nat, at: nat, b: Block)
    requires BlocksOk(order, vs, hdr, blocks) && Handed(n, vs, vs', at, b, addr) && b.o == order && s !in hdr
    ensures BlocksOk(order, vs', hdr[s := Header(addr, 0, Some(addr))], blocks[s := (at, b)])
  {
    var hdr', blocks' := hdr[s := Header(addr, 0, Some(addr))], blocks[s := (at, b)];
    forall t | t in hdr ensures BlockOk(order, vs', hdr[t].addr, blocks[t]) && blocks[t] != (at, b) {
      assert BlockOk(order, vs, hdr[t].addr, blocks[t]);
      HandedKeeps(n, order, vs, vs', at, b, addr, hdr[t].addr, blocks[t]);
    }
    assert BlockOk(order, vs', addr, (at, b));
    hide BlockOk;
  }

  ghost predicate LiveAt(vs: seq<View>, bl: (nat, Block)) { bl.0 < |vs| && bl.1 in vs[bl.0].live }

  /** Every block in after is one of before, or was not allocated then. */
  ghost predicate NewBlocks(before: Blocks, after: Blocks, vs: seq<View>) {
    forall s :: s in after ==> (s in before && after[s] == before[s]) || !LiveAt(vs, after[s])
  }

  lemma HandedNew(n: nat, vs: seq<View>, vs': seq<View>, at: nat, b: Block, addr: nat, blocks: Blocks, s: nat)
    requires Handed(n, vs, vs', at, b, addr)
    ensures NewBlocks(blocks, blocks[s := (at, b)], vs)
  {
    if LiveAt(vs, (at, b)) {
      assert Overlap(b, b);
      assert false;
    }
  }

  lemma SameNew(blocks: Blocks, vs: seq<View>)
    ensures NewBlocks(blocks, blocks, vs)
  {
  }

  lemma {:induction false} Pow2Less(i: nat, j: nat)
    requires i < j
    ensures Pow2(i) < Pow2(j)
  {
    if i < j - 1 { Pow2Less(i, j - 1); }
  }

  /** page_alloc_n of 2^order pages is an allocation of that order. */
  lemma OrderOfPow(n: nat, order: nat)
    requires order < n && Pow2(order) < WORD / 2
    ensures SmallestOrder(n, Signed(Pow2(order))) == Some(order)
  {
    OrderIs(n, Pow2(order), 0);
    var r := SmallestOrder(n, Pow2(order));
    if r.Some? && r.value < order { Pow2Less(r.value, order); }
    hide FirstOrder;
  }

  // --------------------------------------------------------------- allocator

  class Cache {
    const z: Sizes
    const order: nat
    const nobjs: nat
    var slabs: seq<nat>
    var hdr: map<nat, Header>
    var ctl: Ctls
    ghost var chains: Chains
    ghost var blocks: Blocks

    function Now(): State
      reads this
    {
      State(slabs, hdr, ctl)
    }

    /** The slabs are in order and each has an allocated block of its own. */
    ghost predicate Ok(vs: seq<View>)
      reads this
    {
      CacheOk(z, nobjs, BlockSize(order), Now(), chains) && BlocksOk(order, vs, hdr, blocks)
    }

    /** The objects handed out and not yet taken back. */
    ghost function Objects(): set<nat>
      reads this
    {
      Live(ctl)
    }

    /** slab_allocator_create, after its size calculation. */
    constructor (z: Sizes, order: nat, nobjs: nat)
      requires Geometry(z, nobjs, BlockSize(order))
      ensures slabs == [] && Objects() == {} && forall vs :: Ok(vs)
      ensures this.z == z && this.order == order && this.nobjs == nobjs
    {
      this.z, this.order, this.nobjs := z, order, nobjs;
      slabs, hdr, ctl, chains, blocks := [], map[], map[], map[], map[];
    }

    /** The first loop of _slab_allocator_grow: each object's control word links to the next object. */
    method Thread(addr: nat)
      requires nobjs > 0 && z.Stride() > 0
      modifies this`ctl
      ensures Threaded(z, nobjs, addr, ctl) && Extends(z, nobjs, addr, old(ctl), ctl)
    {
      var obj := addr;
      assert ObjAt(z, addr, 0) == addr;
      for i := 0 to nobjs - 1
        invariant obj == ObjAt(z, addr, i)
        invariant forall k: nat :: k < i ==> Link(z, nobjs, addr, ctl, k)
        invariant Extends(z, nobjs, addr, old(ctl), ctl)
      {
        NextObj(z, addr, i);
        ThreadStep(z, nobjs, addr, old(ctl), ctl, i);
        hide *;
        ctl := ctl[obj := Next(Some(obj + z.Stride()))];
        obj := obj + z.Stride();
      }
      ThreadStep(z, nobjs, addr, old(ctl), ctl, nobjs - 1);
      ctl := ctl[obj := Next(None)];
    }

    /** _slab_allocator_grow: a block of pages becomes a slab of free objects at the head of the list. */
    method Grow(p: Pages) returns (grown: bool)
      requires p.Valid() && Ok(p.views) && order < p.n && Pow2(order) < WORD / 2
      modifies this, p`freecount, p`views, p`pages, p.groups
      ensures p.Valid() && Ok(p.views) && Objects() == old(Objects()) && Keeps(old(p.views), p.views, {})
      ensures grown ==> slabs != [] && slabs[0] in hdr && hdr[slabs[0]].inuse == 0 && slabs[1..] == old(slabs)
      ensures grown ==> p.freecount == old(p.freecount) - Pow2(order)
      ensures !grown ==> Exhausted(p.n, old(p.views), order) && p.views == old(p.views) && p.freecount == old(p.freecount)
      ensures !grown ==> slabs == old(slabs) && hdr == old(hdr) && ctl == old(ctl)
      ensures NewBlocks(old(blocks), blocks, old(p.views))
    {
      hide NewBlocks, CacheOk, BlocksOk, Keeps, Handed, Exhausted, Threaded, Extends, Fresh, ObjAt, ObjsFrom, Live, BlockSize, Pow2, Pages.Valid, SmallestOrder, Signed;
      OrderOfPow(p.n, order);
      KeepsSelf(p.views);
      SameNew(blocks, p.views);
      ghost var vs, st := p.views, Now();
      var r, at, b := p.AllocPages(Pow2(order));
      if !r.At? { return false; }
      HandedNew(p.n, vs, p.views, at, b, r.addr, blocks, ObjAt(z, r.addr, nobjs));
      HandedKeepsAll(p.n, vs, p.views, at, b, r.addr);
      GrowAll(p, z, order, nobjs, vs, st, chains, blocks, at, b, r.addr);
      AddSlab(r.addr, p.views, (at, b));
      grown := true;
    }

    /** The block at addr becomes a slab. */
    method AddSlab(addr: nat, ghost vs: seq<View>, ghost bl: (nat, Block))
      requires CacheOk(z, nobjs, BlockSize(order), Now(), chains) && Fresh(BlockSize(order), hdr, addr)
      requires ObjAt(z, addr, nobjs) !in hdr
      requires BlocksOk(order, vs, hdr[ObjAt(z, addr, nobjs) := Header(addr, 0, Some(addr))], blocks[ObjAt(z, addr, nobjs) := bl])
      modifies this
      ensures Ok(vs) && Objects() == old(Objects()) && blocks == old(blocks)[ObjAt(z, addr, nobjs) := bl]
      ensures slabs != [] && slabs[0] in hdr && hdr[slabs[0]].inuse == 0 && slabs[1..] == old(slabs)
    {
      hide CacheOk, BlocksOk, Keeps, Handed, Exhausted, Threaded, Extends, Fresh, ObjAt, ObjsFrom, Live, BlockSize, Pow2, Pages.Valid, SmallestOrder, Signed;
      ghost var st := Now();
      HasRoom(z, nobjs, BlockSize(order), st, chains);
      Thread(addr);
      GrowOk(z, nobjs, BlockSize(order), st, chains, addr, ctl);
      var s := ObjAt(z, addr, nobjs);
      hdr := hdr[s := Header(addr, 0, Some(addr))];
      slabs := [s] + slabs;
      chains := chains[s := ObjsFrom(z, nobjs, addr, 0)];
      blocks := blocks[s := bl];
    }

    /** The search of slab_obj_alloc: the first slab with an object to spare. */
    method FindSlab() returns (r: Option<nat>)
      requires CacheOk(z, nobjs, BlockSize(order), Now(), chains)
      ensures r.Some? ==> r.value in slabs && r.value in hdr && hdr[r.value].inuse < nobjs
      ensures r.None? ==> forall s :: s in slabs ==> s in hdr && hdr[s].inuse == nobjs
    {
      hide CacheOk, BlocksOk, Keeps, Handed, Exhausted, Threaded, Extends, Fresh, ObjAt, ObjsFrom, Live, BlockSize, Pow2, Pages.Valid, SmallestOrder, Signed;
      Known(z, nobjs, BlockSize(order), Now(), chains);
      for i := 0 to |slabs|
        invariant forall k :: 0 <= k < i ==> hdr[slabs[k]].inuse == nobjs
      {
        if hdr[slabs[i]].inuse < nobjs { return Some(slabs[i]); }
      }
      r := None;
    }

    /** The end of slab_obj_alloc: the first object of the slab's chain is handed out. */
    method TakeFrom(s: nat, ghost vs: seq<View>) returns (obj: nat)
      requires Ok(vs) && s in hdr && hdr[s].inuse < nobjs
      modifies this
      ensures Ok(vs) && obj !in old(Objects()) && Objects() == old(Objects()) + {obj} && blocks == old(blocks)
      ensures slabs == old(slabs)
    {
      hide CacheOk, BlocksOk, Keeps, Handed, Exhausted, Threaded, Extends, Fresh, ObjAt, ObjsFrom, Live, BlockSize, Pow2, Pages.Valid, SmallestOrder, Signed;
      TakeOk(z, nobjs, BlockSize(order), Now(), chains, s);
      SameBlocks(order, vs, hdr, blocks, s, Header(hdr[s].addr, hdr[s].inuse + 1, ctl[hdr[s].free.value].next));
      obj := hdr[s].free.value;
      hdr := hdr[s := Header(hdr[s].addr, hdr[s].inuse + 1, ctl[obj].next)];
      ctl := ctl[obj := Owner(s)];
      chains := chains[s := chains[s][1..]];
    }

    /**
     * slab_obj_alloc: an object that was not allocated, from a slab with one
     * to spare, and only without such a slab from a new one; it fails only when
     * every slab is full and no block of pages can be had.
     */
    method Alloc(p: Pages) returns (r: Option<nat>)
      requires p.Valid() && Ok(p.views) && order < p.n && Pow2(order) < WORD / 2
      modifies this, p`freecount, p`views, p`pages, p.groups
      ensures p.Valid() && Ok(p.views) && Keeps(old(p.views), p.views, {})
      ensures r.Some? ==> r.value !in old(Objects()) && Objects() == old(Objects()) + {r.value}
      ensures r.None? ==> Objects() == old(Objects()) && p.freecount == old(p.freecount)
      ensures r.None? ==>
        (forall s :: s in old(slabs) ==> s in old(hdr) && old(hdr)[s].inuse == nobjs) && Exhausted(p.n, old(p.views), order)
      ensures Room(old(slabs), old(hdr), nobjs) ==> p.views == old(p.views) && p.freecount == old(p.freecount) && slabs == old(slabs)
      ensures r.Some? && !Room(old(slabs), old(hdr), nobjs) ==>
        p.freecount == old(p.freecount) - Pow2(order) && slabs != [] && slabs[1..] == old(slabs)
      ensures NewBlocks(old(blocks), blocks, old(p.views))
    {
      hide NewBlocks, CacheOk, BlocksOk, Keeps, Handed, Exhausted, Threaded, Extends, Fresh, ObjAt, ObjsFrom, Live, BlockSize, Pow2, Pages.Valid, SmallestOrder, Signed;
      KeepsSelf(p.views);
      SameNew(blocks, p.views);
      OkCache(this, p.views);
      var s := FindSlab();
      if s.None? {
        var grown := Grow(p);
        if !grown { return None; }
        SlabRoom(this, p.views, slabs[0]);
        s := Some(slabs[0]);
      }
      var obj := TakeFrom(s.value, p.views);
      r := Some(obj);
    }

    /** slab_obj_free: the object goes back to the slab that its control word names. */
    method Free(obj: nat, ghost vs: seq<View>)
      requires Ok(vs) && obj in Objects()
      modifies this
      ensures Ok(vs) && Objects() == old(Objects()) - {obj} && blocks == old(blocks)
    {
      hide CacheOk, BlocksOk, Keeps, Handed, Exhausted, Threaded, Extends, Fresh, ObjAt, ObjsFrom, Live, BlockSize, Pow2, Pages.Valid, SmallestOrder, Signed;
      GiveOk(z, nobjs, BlockSize(order), Now(), chains, obj);
      var s := ctl[obj].slab;
      SameBlocks(order, vs, hdr, blocks, s, Header(hdr[s].addr, hdr[s].inuse - 1, Some(obj)));
      ctl := ctl[obj := Next(hdr[s].free)];
      hdr := hdr[s := Header(hdr[s].addr, hdr[s].inuse - 1, Some(obj))];
      chains := chains[s := [obj] + chains[s]];
    }

    /** The slab at position k, none of whose objects is in use, is unlinked and its block given back. */
    method Discard(p: Pages, k: nat)
      requires p.Valid() && Ok(p.views) && order < p.n && Pow2(order) < WORD / 2
      requires k < |slabs| && slabs[k] in hdr && hdr[slabs[k]].inuse == 0
      modifies this, p`freecount, p`views, p`pages, p.groups
      ensures p.Valid() && Ok(p.views) && Objects() == old(Objects())
      ensures slabs == old(slabs)[..k] + old(slabs)[k + 1..] && hdr == old(hdr) - {old(slabs)[k]}
      ensures blocks == old(blocks) - {old(slabs)[k]}
      ensures old(slabs)[k] in old(blocks) && Keeps(old(p.views), p.views, {old(blocks)[old(slabs)[k]]})
      ensures p.freecount == old(p.freecount) + Pow2(order)
    {
      hide CacheOk, BlocksOk, Keeps, Returned, Shrinks, ObjAt, Live, BlockSize, Pow2, Pages.Valid, SmallestOrder, Signed;
      ghost var st := Now();
      var s := slabs[k];
      ghost var ctl' := Forget(z, nobjs, hdr[s].addr, ctl);
      DiscardReady(this, p.views, s);
      OrderOfPow(p.n, order);
      ForgetShrinks(z, nobjs, hdr[s].addr, ctl);
      DropOk(z, nobjs, BlockSize(order), st, chains, k, ctl');
      ghost var vs, bl := p.views, blocks[s];
      slabs := slabs[..k] + slabs[k + 1..];
      p.FreePages(hdr[s].addr, Pow2(order), bl.0, bl.1);
      ReturnedKeepsAll(vs, p.views, bl.0, bl.1, hdr[s].addr);
      DiscardBlocks(order, vs, p.views, hdr, blocks, s);
      ctl := Forget(z, nobjs, hdr[s].addr, ctl);
      hdr := hdr - {s};
      chains, blocks := chains - {s}, blocks - {s};
    }

    /** The slabs with an object in use, with their headers. */
    ghost predicate KeptBusy(slabs0: seq<nat>, hdr0: map<nat, Header>)
      reads this
    {
      forall s :: s in slabs0 && s in hdr0 && hdr0[s].inuse != 0 ==> s in slabs && s in hdr && hdr[s] == hdr0[s]
    }

    /** slab_allocators_reclaim on one allocator, freed pages having been freed before. */
    method Reclaim(p: Pages, target: int, freed0: nat) returns (freed: nat, met: bool)
      requires p.Valid() && Ok(p.views) && order < p.n && Pow2(order) < WORD / 2
      modifies this, p`freecount, p`views, p`pages, p.groups
      ensures p.Valid() && Ok(p.views) && Objects() == old(Objects()) && KeptBusy(old(slabs), old(hdr))
      ensures freed - freed0 == p.freecount - old(p.freecount)
      ensures Keeps(old(p.views), p.views, old(blocks).Values) && blocks.Values <= old(blocks).Values
      ensures !met ==> NoneEmpty(this)
      ensures met ==> target > 0 && freed >= target
      ensures target > 0 && freed0 < target ==> freed < target + Pow2(order) && (met <==> freed >= target)
    {
      hide CacheOk, BlocksOk, Keeps, Live, BlockSize, Pow2, Pages.Valid;
      freed, met := freed0, false;
      KeepsSelf(p.views);
      KeepsMore(p.views, p.views, {}, old(blocks).Values);
      ghost var vs0 := p.views;
      var i := 0;
      while i < |slabs|
        invariant 0 <= i <= |slabs|
        invariant p.Valid() && Ok(p.views) && Objects() == old(Objects()) && KeptBusy(old(slabs), old(hdr))
        invariant freed - freed0 == p.freecount - old(p.freecount)
        invariant Keeps(vs0, p.views, old(blocks).Values) && blocks.Values <= old(blocks).Values
        invariant forall k :: 0 <= k < i ==> slabs[k] in hdr && hdr[slabs[k]].inuse != 0
        invariant target > 0 && freed0 < target ==> freed < target
        decreases |slabs| - i
      {
        OkCache(this, p.views);
        Known(z, nobjs, BlockSize(order), Now(), chains);
        if hdr[slabs[i]].inuse == 0 {
          ghost var vs, bl, s := p.views, blocks, slabs[i];
          Discard(p, i);
          KeepsStep(vs0, vs, p.views, old(blocks).Values, bl, s);
          freed := freed + Pow2(order);
        } else {
          i := i + 1;
        }
        if target > 0 && freed >= target { return freed, true; }
      }
    }
  }

  /** The control words that are left when the block at addr is given back. */
  function Forget(z: Sizes, nobjs: nat, addr: nat, ctl: Ctls): Ctls {
    if nobjs == 0 then ctl else Forget(z, nobjs - 1, addr, ctl) - {ObjAt(z, addr, nobjs - 1)}
  }

  lemma {:induction false} ForgetShrinks(z: Sizes, nobjs: nat, addr: nat, ctl: Ctls)
    ensures Shrinks(z, nobjs, addr, ctl, Forget(z, nobjs, addr, ctl))
  {
    if nobjs == 0 {
      assert forall x :: !IsObj(z, 0, addr, x);
    } else {
      ForgetShrinks(z, nobjs - 1, addr, ctl);
      forall x ensures IsObj(z, nobjs, addr, x) <==> IsObj(z, nobjs - 1, addr, x) || x == ObjAt(z, addr, nobjs - 1) {
        if IsObj(z, nobjs, addr, x) {
          var i: nat :| i < nobjs && x == ObjAt(z, addr, i);
          if i < nobjs - 1 { assert IsObj(z, nobjs - 1, addr, x); }
        }
      }
      hide ObjAt, IsObj;
    }
  }

  lemma DiscardReady(c: Cache, vs: seq<View>, s: nat)
    requires c.Ok(vs) && s in c.hdr
    ensures s in c.blocks && BlockOk(c.order, vs, c.hdr[s].addr, c.blocks[s])
  {
  }

  /** The other slabs keep their blocks when one gives its block back. */
  lemma DiscardBlocks(order: nat, vs: seq<View>, vs': seq<View>, hdr: map<nat, Header>, blocks: Blocks, s: nat)
    requires BlocksOk(order, vs, hdr, blocks) && s in hdr && s in blocks && Keeps(vs, vs', {blocks[s]})
    ensures BlocksOk(order, vs', hdr - {s}, blocks - {s})
  {
    var hdr', blocks' := hdr - {s}, blocks - {s};
    forall t | t in hdr' ensures BlockOk(order, vs', hdr'[t].addr, blocks'[t]) {
      assert BlockOk(order, vs, hdr[t].addr, blocks[t]);
    }
  }

  lemma HasRoom(z: Sizes, nobjs: nat, size: nat, st: State, ch: Chains)
    requires CacheOk(z, nobjs, size, st, ch)
    ensures nobjs > 0 && z.Stride() > 0
  {
  }

  lemma OkCache(c: Cache, vs: seq<View>)
    requires c.Ok(vs)
    ensures CacheOk(c.z, c.nobjs, BlockSize(c.order), c.Now(), c.chains)
  {
  }

  lemma SlabRoom(c: Cache, vs: seq<View>, s: nat)
    requires c.Ok(vs) && s in c.hdr && c.hdr[s].inuse == 0
    ensures c.hdr[s].inuse < c.nobjs
  {
  }

  /** Every slab on the list has a header. */
  lemma Known(z: Sizes, nobjs: nat, size: nat, st: State, ch: Chains)
    requires CacheOk(z, nobjs, size, st, ch)
    ensures forall s :: s in st.slabs ==> s in st.hdr && st.hdr[s].inuse <= nobjs
  {
    forall s | s in st.slabs ensures s in st.hdr && st.hdr[s].inuse <= nobjs {
      SlabAt(z, nobjs, size, st, ch, s);
      ChainEmpty(z, nobjs, s, st.hdr[s], st.ctl, ch[s]);
    }
  }

  /** A header that stays where it is keeps its block. */
  lemma SameBlocks(order: nat, vs: seq<View>, hdr: map<nat, Header>, blocks: Blocks, s: nat, h: Header)
    requires BlocksOk(order, vs, hdr, blocks) && s in hdr && h.addr == hdr[s].addr
    ensures BlocksOk(order, vs, hdr[s := h], blocks)
  {
    hide BlockOk;
  }

  /** A grown cache is in order again. */
  lemma GrowAll(p: Pages, z: Sizes, order: nat, nobjs: nat, vs: seq<View>, st: State, chains: Chains, blocks: Blocks, at: nat, b: Block, addr: nat)
    requires CacheOk(z, nobjs, BlockSize(order), st, chains) && BlocksOk(order, vs, st.hdr, blocks)
    requires p.Valid() && Handed(p.n, vs, p.views, at, b, addr) && b.o == order
    ensures Fresh(BlockSize(order), st.hdr, addr)
    ensures var s := ObjAt(z, addr, nobjs);
      && s !in st.hdr
      && BlocksOk(order, p.views, st.hdr[s := Header(addr, 0, Some(addr))], blocks[s := (at, b)])
  {
    hide *;
    NewIsFresh(p, order, vs, st.hdr, blocks, at, b, addr);
    FreshHeader(z, nobjs, BlockSize(order), st, chains, addr);
    GrownBlocks(p.n, order, vs, p.views, st.hdr, blocks, ObjAt(z, addr, nobjs), addr, at, b);
  }

  lemma NextObj(z: Sizes, addr: nat, i: nat)
    ensures ObjAt(z, addr, i + 1) == ObjAt(z, addr, i) + z.Stride()
  {
  }

  /** Linking the i-th object keeps the links before it. */
  lemma ThreadStep(z: Sizes, nobjs: nat, addr: nat, ctl0: Ctls, ctl: Ctls, i: nat)
    requires i < nobjs && z.Stride() > 0 && Extends(z, nobjs, addr, ctl0, ctl)
    requires forall k: nat :: k < i ==> Link(z, nobjs, addr, ctl, k)
    ensures var ctl' := ctl[ObjAt(z, addr, i) := Next(if i + 1 < nobjs then Some(ObjAt(z, addr, i + 1)) else None)];
      && (forall k: nat :: k <= i ==> Link(z, nobjs, addr, ctl', k))
      && Extends(z, nobjs, addr, ctl0, ctl')
  {
    var ctl' := ctl[ObjAt(z, addr, i) := Next(if i + 1 < nobjs then Some(ObjAt(z, addr, i + 1)) else None)];
    assert IsObj(z, nobjs, addr, ObjAt(z, addr, i));
    forall k: nat | k <= i ensures Link(z, nobjs, addr, ctl', k) {
      if k < i { ObjOrder(z, addr, k, i); assert Link(z, nobjs, addr, ctl, k); }
    }
    hide ObjAt, IsObj;
  }

  // -------------------------------------------------------------- all caches

  /** Some slab has an object to spare. */
  ghost predicate Room(slabs: seq<nat>, hdr: map<nat, Header>, nobjs: nat) {
    exists s :: s in slabs && s in hdr && hdr[s].inuse < nobjs
  }

  /** A cache that the page allocator can serve. */
  ghost predicate Served(c: Cache, n: nat, vs: seq<View>)
    reads c
  {
    c.Ok(vs) && c.order < n && Pow2(c.order) < WORD / 2
  }

  /** Blocks of different caches are different. */
  ghost predicate Unshared(c: Cache, d: Cache)
    reads c, d
  {
    c.blocks.Values !! d.blocks.Values
  }

  lemma StillServed(c: Cache, n: nat, vs: seq<View>, vs': seq<View>, gone: set<(nat, Block)>)
    requires Served(c, n, vs) && Keeps(vs, vs', gone) && gone !! c.blocks.Values
    ensures Served(c, n, vs')
  {
    forall s | s in c.blocks ensures c.blocks[s] !in gone { assert c.blocks[s] in c.blocks.Values; }
    hide CacheOk, BlockSize, Keeps, Pow2;
    KeepsBlocks(c.order, vs, vs', gone, c.hdr, c.blocks);
  }

  /** An allocation by one cache leaves the other one served and the two unshared. */
  lemma AllocApart(c: Cache, d: Cache, before: Blocks, n: nat, vs: seq<View>, vs': seq<View>)
    requires NewBlocks(before, c.blocks, vs) && before.Values !! d.blocks.Values && Served(d, n, vs) && Keeps(vs, vs', {})
    ensures Unshared(c, d) && Served(d, n, vs')
  {
    hide CacheOk, BlockSize, Keeps, Pow2;
    StillServed(d, n, vs, vs', {});
    forall bl | bl in d.blocks.Values ensures LiveAt(vs, bl) {
      var u :| u in d.blocks && d.blocks[u] == bl;
      assert BlockOk(d.order, vs, d.hdr[u].addr, d.blocks[u]);
    }
    forall bl | bl in c.blocks.Values ensures bl in before.Values || !LiveAt(vs, bl) {
      var s :| s in c.blocks && c.blocks[s] == bl;
      assert s in before && before[s] == bl ==> bl in before.Values;
    }
  }

  /** Where an object of a cache lies: inside an allocated block of that cache. */
  lemma ObjectIn(c: Cache, vs: seq<View>, x: nat) returns (s: nat)
    requires c.Ok(vs) && x in c.ctl
    ensures s in c.hdr && s in c.blocks && BlockOk(c.order, vs, c.hdr[s].addr, c.blocks[s])
    ensures c.hdr[s].addr <= x && x + c.z.obj <= c.hdr[s].addr + BlockSize(c.order)
  {
    hide BlockSize, AllSlabs, AllApart, Registered;
    assert Owned(c.z, c.nobjs, c.hdr, x);
    s :| s in c.hdr && IsObj(c.z, c.nobjs, c.hdr[s].addr, x);
    ObjInside(c.z, c.nobjs, BlockSize(c.order), c.hdr[s].addr, x);
  }

  /** Objects of two caches share no address. */
  lemma CachesApart(p: Pages, c: Cache, d: Cache, x: nat, y: nat)
    requires p.Valid() && c.Ok(p.views) && d.Ok(p.views) && Unshared(c, d) && x in c.ctl && y in d.ctl
    ensures x + c.z.obj <= y || y + d.z.obj <= x
  {
    hide Cache.Ok, Pages.Valid, BlockSize, AddrOf;
    var s := ObjectIn(c, p.views, x);
    var u := ObjectIn(d, p.views, y);
    assert c.blocks[s] in c.blocks.Values && d.blocks[u] in d.blocks.Values;
    LiveApart(p, c.blocks[s].0, c.blocks[s].1, d.blocks[u].0, d.blocks[u].1);
  }

  lemma KeptSelf(c: Cache)
    ensures c.KeptBusy(c.slabs, c.hdr)
  {
  }

  /** No slab of c is empty. */
  ghost predicate NoneEmpty(c: Cache)
    reads c
  {
    forall s :: s in c.slabs ==> s in c.hdr && c.hdr[s].inuse != 0
  }

  /**
   * slab_allocators_reclaim: it returns exactly the rise in the number of
   * free pages, no cache loses an allocated object or a slab that holds one,
   * it stops with the slab that meets the target, and unless the target is met
   * no empty slab is left anywhere.
   */
  method ReclaimAll(p: Pages, caches: seq<Cache>, target: int) returns (freed: nat)
    requires p.Valid() && forall i: nat :: i < |caches| ==> Served(caches[i], p.n, p.views)
    requires forall i: nat, j: nat :: i < j < |caches| ==> caches[i] != caches[j] && Unshared(caches[i], caches[j])
    modifies caches, p`freecount, p`views, p`pages, p.groups
    ensures p.Valid() && forall i: nat :: i < |caches| ==> Served(caches[i], p.n, p.views)
    ensures freed == p.freecount - old(p.freecount)
    ensures forall i: nat :: i < |caches| ==>
      caches[i].Objects() == old(caches[i].Objects()) && caches[i].KeptBusy(old(caches[i].slabs), old(caches[i].hdr))
    ensures target <= 0 || freed < target ==> forall i: nat :: i < |caches| ==> NoneEmpty(caches[i])
    ensures forall i: nat, j: nat :: i < j < |caches| ==> Unshared(caches[i], caches[j])
    ensures target > 0 && freed >= target ==> exists i: nat :: i < |caches| && freed < target + Pow2(caches[i].order)
  {
    hide Cache.Ok, Keeps, Live, Pow2, Pages.Valid, Cache.KeptBusy, Cache.Objects, NoneEmpty;
    freed := 0;
    forall i: nat | i < |caches| ensures caches[i].KeptBusy(caches[i].slabs, caches[i].hdr) { KeptSelf(caches[i]); }
    for k := 0 to |caches|
      invariant p.Valid() && forall i: nat :: i < |caches| ==> Served(caches[i], p.n, p.views)
      invariant forall i: nat, j: nat :: i < j < |caches| ==> Unshared(caches[i], caches[j])
      invariant forall i: nat :: k <= i < |caches| ==> unchanged(caches[i])
      invariant freed == p.freecount - old(p.freecount) && (target > 0 ==> freed < target)
      invariant forall i: nat :: i < |caches| ==>
        caches[i].Objects() == old(caches[i].Objects()) && caches[i].KeptBusy(old(caches[i].slabs), old(caches[i].hdr))
      invariant forall i: nat :: i < k ==> NoneEmpty(caches[i])
    {
      ghost var vs, gone := p.views, caches[k].blocks.Values;
      var met;
      freed, met := caches[k].Reclaim(p, target, freed);
      forall i: nat | i < |caches| && i != k ensures Served(caches[i], p.n, p.views) {
        assert Served(caches[i], p.n, vs);
        StillServed(caches[i], p.n, vs, p.views, gone);
      }
      if met {
        return;
      }
    }
  }
}
