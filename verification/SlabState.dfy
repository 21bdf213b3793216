/**
 * All the slabs of one allocator: they lie in different blocks, every object
 * belongs to exactly one of them, and the steps of the allocator keep it so
 * (kernel/mm/slab.c:191-368).
 */
module SlabState {
  import opened Basics
  import opened SlabSizes
  import opened SlabChains

  /** sa_slabs with the slab headers and control words in memory; chains is what the free chains hold. */
  datatype State = State(slabs: seq<nat>, hdr: map<nat, Header>, ctl: Ctls)

  type Chains = map<nat, seq<nat>>

  /** The allocated objects. */
  function Live(ctl: Ctls): set<nat> { set x | x in ctl && ctl[x].Owner? }

  /** Two blocks of the given size do not share an address. */
  predicate Separate(size: nat, a: nat, b: nat) { a + size <= b || b + size <= a }

  ghost predicate Geometry(z: Sizes, nobjs: nat, size: nat) {
    z.Stride() > 0 && nobjs > 0 && SlabSize(z, nobjs) <= size
  }

  ghost predicate Owned(z: Sizes, nobjs: nat, hdr: map<nat, Header>, x: nat) {
    exists s :: s in hdr && IsObj(z, nobjs, hdr[s].addr, x)
  }

  ghost predicate Registered(st: State, ch: Chains) {
    NoDup(st.slabs) && st.hdr.Keys == ch.Keys && (forall s :: s in st.slabs <==> s in st.hdr)
  }

  ghost predicate AllApart(size: nat, hdr: map<nat, Header>) {
    forall s, t :: s in hdr && t in hdr && s != t ==> Separate(size, hdr[s].addr, hdr[t].addr)
  }

  ghost predicate AllSlabs(z: Sizes, nobjs: nat, st: State, ch: Chains)
    requires st.hdr.Keys == ch.Keys
  {
    forall s :: s in st.hdr ==> SlabOk(z, nobjs, s, st.hdr[s], st.ctl, ch[s])
  }

  ghost predicate AllOwned(z: Sizes, nobjs: nat, st: State) {
    forall x :: x in st.ctl ==> Owned(z, nobjs, st.hdr, x)
  }

  ghost predicate CacheOk(z: Sizes, nobjs: nat, size: nat, st: State, ch: Chains) {
    && Geometry(z, nobjs, size) && Registered(st, ch) && AllApart(size, st.hdr)
    && AllSlabs(z, nobjs, st, ch) && AllOwned(z, nobjs, st)
  }

  // ---------------------------------------------------------------- geometry

  /** An object with its control word lies in its block, below the header. */
  lemma ObjInside(z: Sizes, nobjs: nat, size: nat, addr: nat, x: nat)
    requires Geometry(z, nobjs, size) && IsObj(z, nobjs, addr, x)
    ensures addr <= x && x + z.Stride() <= ObjAt(z, addr, nobjs) && ObjAt(z, addr, nobjs) + z.hdr <= addr + size
  {
    var i: nat :| i < nobjs && x == ObjAt(z, addr, i);
    ObjOrder(z, addr, i, nobjs);
    assert i * z.Stride() >= 0;
  }

  /** Two objects of one slab do not overlap. */
  lemma ObjsApart(z: Sizes, nobjs: nat, addr: nat, x: nat, y: nat)
    requires IsObj(z, nobjs, addr, x) && IsObj(z, nobjs, addr, y) && x != y
    ensures x + z.Stride() <= y || y + z.Stride() <= x
  {
    var i: nat :| i < nobjs && x == ObjAt(z, addr, i);
    var j: nat :| j < nobjs && y == ObjAt(z, addr, j);
    if i < j { ObjOrder(z, addr, i, j); } else if j < i { ObjOrder(z, addr, j, i); }
  }

  /** An object belongs to one slab only. */
  lemma OneSlab(z: Sizes, nobjs: nat, size: nat, hdr: map<nat, Header>, s: nat, t: nat, x: nat)
    requires Geometry(z, nobjs, size) && AllApart(size, hdr) && s in hdr && t in hdr
    requires IsObj(z, nobjs, hdr[s].addr, x) && IsObj(z, nobjs, hdr[t].addr, x)
    ensures s == t
  {
    if s != t {
      ApartAt(size, hdr, s, t);
      ObjInside(z, nobjs, size, hdr[s].addr, x);
      ObjInside(z, nobjs, size, hdr[t].addr, x);
    }
  }

  lemma ApartAt(size: nat, hdr: map<nat, Header>, s: nat, t: nat)
    requires AllApart(size, hdr) && s in hdr && t in hdr && s != t
    ensures Separate(size, hdr[s].addr, hdr[t].addr)
  {
  }

  lemma SlabAt(z: Sizes, nobjs: nat, size: nat, st: State, ch: Chains, s: nat)
    requires CacheOk(z, nobjs, size, st, ch) && s in st.hdr
    ensures s in ch && SlabOk(z, nobjs, s, st.hdr[s], st.ctl, ch[s])
  {
  }

  /**
   * Any two objects, and so any two allocated ones, are disjoint, and each
   * lies inside its slab's block below the slab's header.
   */
  lemma ObjectsDisjoint(z: Sizes, nobjs: nat, size: nat, st: State, ch: Chains, x: nat, y: nat)
    requires CacheOk(z, nobjs, size, st, ch) && x in st.ctl && y in st.ctl && x != y
    ensures x + z.obj <= y || y + z.obj <= x
    ensures exists s :: s in st.hdr && st.hdr[s].addr <= x && x + z.obj <= s && s + z.hdr <= st.hdr[s].addr + size
  {
    hide IsObj, ObjAt, SlabOk, AllSlabs, AllApart, Registered, Geometry;
    assert Owned(z, nobjs, st.hdr, x) && Owned(z, nobjs, st.hdr, y);
    var s :| s in st.hdr && IsObj(z, nobjs, st.hdr[s].addr, x);
    var t :| t in st.hdr && IsObj(z, nobjs, st.hdr[t].addr, y);
    ObjInside(z, nobjs, size, st.hdr[s].addr, x);
    ObjInside(z, nobjs, size, st.hdr[t].addr, y);
    SlabHere(z, nobjs, size, st, ch, s);
    if s == t { ObjsApart(z, nobjs, st.hdr[s].addr, x, y); } else { ApartAt(size, st.hdr, s, t); }
  }

  /** The header of a slab follows its objects. */
  lemma SlabHere(z: Sizes, nobjs: nat, size: nat, st: State, ch: Chains, s: nat)
    requires CacheOk(z, nobjs, size, st, ch) && s in st.hdr
    ensures s == ObjAt(z, st.hdr[s].addr, nobjs)
  {
    SlabAt(z, nobjs, size, st, ch, s);
    hide CacheOk, Linked;
  }

  /** Changing one object's control word leaves the slabs it is not in alone. */
  lemma OtherSlabs(z: Sizes, nobjs: nat, size: nat, st: State, ch: Chains, s: nat, x: nat, c: Ctl, t: nat)
    requires CacheOk(z, nobjs, size, st, ch) && s in st.hdr && IsObj(z, nobjs, st.hdr[s].addr, x) && t in st.hdr && t != s
    ensures SlabOk(z, nobjs, t, st.hdr[t], st.ctl[x := c], ch[t])
  {
    SlabAt(z, nobjs, size, st, ch, t);
    hide SlabOk, IsObj, AllSlabs, AllOwned, AllApart, Geometry, Registered;
    forall y | IsObj(z, nobjs, st.hdr[t].addr, y) ensures y in st.ctl[x := c] && (y in st.ctl ==> st.ctl[x := c][y] == st.ctl[y]) {
      HasCtl(z, nobjs, size, st, ch, t, y);
      if y == x { OneSlab(z, nobjs, size, st.hdr, s, t, x); }
    }
    SlabSame(z, nobjs, t, st.hdr[t], st.ctl, st.ctl[x := c], ch[t]);
  }

  /** Slab s is replaced by one at the same place; the control word of one of its objects changes. */
  function Changed(st: State, s: nat, h: Header, x: nat, c: Ctl): State {
    State(st.slabs, st.hdr[s := h], st.ctl[x := c])
  }

  lemma ChangedSlabs(z: Sizes, nobjs: nat, size: nat, st: State, ch: Chains, s: nat, h: Header, x: nat, c: Ctl, chain: seq<nat>)
    requires CacheOk(z, nobjs, size, st, ch) && s in st.hdr && h.addr == st.hdr[s].addr && IsObj(z, nobjs, h.addr, x)
    requires SlabOk(z, nobjs, s, h, st.ctl[x := c], chain)
    ensures Changed(st, s, h, x, c).hdr.Keys == ch[s := chain].Keys
    ensures AllSlabs(z, nobjs, Changed(st, s, h, x, c), ch[s := chain])
  {
    assert st.hdr.Keys == ch.Keys;
    hide SlabOk, IsObj, CacheOk;
    var st' := Changed(st, s, h, x, c);
    var ch' := ch[s := chain];
    forall t | t in st'.hdr ensures SlabOk(z, nobjs, t, st'.hdr[t], st'.ctl, ch'[t]) {
      if t != s { OtherSlabs(z, nobjs, size, st, ch, s, x, c, t); }
    }
  }

  /** Headers at the same places own the same objects. */
  lemma SameOwned(z: Sizes, nobjs: nat, hdr: map<nat, Header>, hdr': map<nat, Header>, x: nat)
    requires Owned(z, nobjs, hdr, x) && hdr.Keys <= hdr'.Keys && forall s :: s in hdr ==> hdr'[s].addr == hdr[s].addr
    ensures Owned(z, nobjs, hdr', x)
  {
    var t :| t in hdr && IsObj(z, nobjs, hdr[t].addr, x);
    assert t in hdr' && IsObj(z, nobjs, hdr'[t].addr, x);
  }

  lemma SameApart(size: nat, hdr: map<nat, Header>, hdr': map<nat, Header>)
    requires AllApart(size, hdr) && hdr.Keys >= hdr'.Keys && forall s :: s in hdr' ==> hdr'[s].addr == hdr[s].addr
    ensures AllApart(size, hdr')
  {
    forall t, u | t in hdr' && u in hdr' && t != u ensures Separate(size, hdr'[t].addr, hdr'[u].addr) {
      assert Separate(size, hdr[t].addr, hdr[u].addr);
    }
  }

  lemma HasCtl(z: Sizes, nobjs: nat, size: nat, st: State, ch: Chains, s: nat, x: nat)
    requires CacheOk(z, nobjs, size, st, ch) && s in st.hdr && IsObj(z, nobjs, st.hdr[s].addr, x)
    ensures x in st.ctl
  {
    SlabAt(z, nobjs, size, st, ch, s);
    hide CacheOk, IsObj;
  }

  lemma ChangedListed(st: State, ch: Chains, s: nat, h: Header, x: nat, c: Ctl, chain: seq<nat>)
    requires Registered(st, ch) && s in st.hdr
    ensures Registered(Changed(st, s, h, x, c), ch[s := chain])
  {
  }

  lemma ChangedOwned(z: Sizes, nobjs: nat, st: State, s: nat, h: Header, x: nat, c: Ctl)
    requires AllOwned(z, nobjs, st) && s in st.hdr && h.addr == st.hdr[s].addr && x in st.ctl
    ensures AllOwned(z, nobjs, Changed(st, s, h, x, c))
  {
    var ctl', hdr' := st.ctl[x := c], st.hdr[s := h];
    forall y | y in ctl' ensures Owned(z, nobjs, hdr', y) {
      SameOwned(z, nobjs, st.hdr, hdr', y);
    }
  }

  lemma ChangedOk(z: Sizes, nobjs: nat, size: nat, st: State, ch: Chains, s: nat, h: Header, x: nat, c: Ctl, chain: seq<nat>)
    requires CacheOk(z, nobjs, size, st, ch) && s in st.hdr && h.addr == st.hdr[s].addr && IsObj(z, nobjs, h.addr, x)
    requires SlabOk(z, nobjs, s, h, st.ctl[x := c], chain)
    ensures CacheOk(z, nobjs, size, Changed(st, s, h, x, c), ch[s := chain])
  {
    hide SlabOk, IsObj, Registered, AllSlabs, AllApart, AllOwned, Geometry;
    HasCtl(z, nobjs, size, st, ch, s, x);
    ChangedSlabs(z, nobjs, size, st, ch, s, h, x, c, chain);
    SameApart(size, st.hdr, st.hdr[s := h]);
    ChangedListed(st, ch, s, h, x, c, chain);
    ChangedOwned(z, nobjs, st, s, h, x, c);
  }

  // -------------------------------------------------------------------- steps

  /** The object whose slab is s is taken off s's chain. */
  function Taken(st: State, s: nat): State
    requires s in st.hdr && st.hdr[s].free.Some? && st.hdr[s].free.value in st.ctl && st.ctl[st.hdr[s].free.value].Next?
  {
    var h := st.hdr[s];
    var x := h.free.value;
    Changed(st, s, Header(h.addr, h.inuse + 1, st.ctl[x].next), x, Owner(s))
  }

  lemma LiveAdd(ctl: Ctls, x: nat, s: nat)
    requires x in ctl
    ensures Live(ctl[x := Owner(s)]) == Live(ctl) + {x}
  {
  }

  lemma LiveRemove(ctl: Ctls, x: nat, c: Option<nat>)
    ensures Live(ctl[x := Next(c)]) == Live(ctl) - {x}
  {
  }

  /** A slab with an object to spare has it at the head of its chain. */
  lemma HeadFree(z: Sizes, nobjs: nat, size: nat, st: State, ch: Chains, s: nat)
    requires CacheOk(z, nobjs, size, st, ch) && s in st.hdr && st.hdr[s].inuse < nobjs
    ensures var h := st.hdr[s];
      && s in ch && ch[s] != [] && h.free == Some(ch[s][0]) && ch[s][0] in st.ctl && st.ctl[ch[s][0]].Next?
      && IsObj(z, nobjs, h.addr, ch[s][0])
      && SlabOk(z, nobjs, s, Header(h.addr, h.inuse + 1, st.ctl[ch[s][0]].next), st.ctl[ch[s][0] := Owner(s)], ch[s][1..])
  {
    hide CacheOk, SlabOk;
    var h := st.hdr[s];
    SlabAt(z, nobjs, size, st, ch, s);
    ChainEmpty(z, nobjs, s, h, st.ctl, ch[s]);
    TakeSlab(z, nobjs, s, h, st.ctl, ch[s]);
  }

  /** Allocation hands out an object that was not allocated, and allocates nothing else. */
  lemma TakeOk(z: Sizes, nobjs: nat, size: nat, st: State, ch: Chains, s: nat)
    requires CacheOk(z, nobjs, size, st, ch) && s in st.hdr && st.hdr[s].inuse < nobjs
    ensures var h := st.hdr[s];
      && h.free.Some? && h.free.value in st.ctl && st.ctl[h.free.value].Next?
      && s in ch && ch[s] != [] && CacheOk(z, nobjs, size, Taken(st, s), ch[s := ch[s][1..]])
      && h.free.value !in Live(st.ctl) && Live(Taken(st, s).ctl) == Live(st.ctl) + {h.free.value}
  {
    hide CacheOk, SlabOk, IsObj;
    var h := st.hdr[s];
    HeadFree(z, nobjs, size, st, ch, s);
    var x := ch[s][0];
    ChangedOk(z, nobjs, size, st, ch, s, Header(h.addr, h.inuse + 1, st.ctl[x].next), x, Owner(s), ch[s][1..]);
    LiveAdd(st.ctl, x, s);
  }

  /** The object x, allocated from slab s, goes to the front of s's chain. */
  function Given(st: State, x: nat): State
    requires x in st.ctl && st.ctl[x].Owner? && st.ctl[x].slab in st.hdr
  {
    var s := st.ctl[x].slab;
    var h := st.hdr[s];
    Changed(st, s, Header(h.addr, h.inuse - 1, Some(x)), x, Next(h.free))
  }

  /** The slab an allocated object names is the one it lies in. */
  lemma OwnerOf(z: Sizes, nobjs: nat, size: nat, st: State, ch: Chains, x: nat)
    requires CacheOk(z, nobjs, size, st, ch) && x in Live(st.ctl)
    ensures var s := st.ctl[x].slab;
      s in st.hdr && s in ch && IsObj(z, nobjs, st.hdr[s].addr, x) && x !in ch[s]
  {
    assert Owned(z, nobjs, st.hdr, x);
    var s :| s in st.hdr && IsObj(z, nobjs, st.hdr[s].addr, x);
    assert SlabOk(z, nobjs, s, st.hdr[s], st.ctl, ch[s]);
    ChainIsFree(z, nobjs, s, st.hdr[s], st.ctl, ch[s], x);
  }

  lemma GiveOk(z: Sizes, nobjs: nat, size: nat, st: State, ch: Chains, x: nat)
    requires CacheOk(z, nobjs, size, st, ch) && x in Live(st.ctl)
    ensures x in st.ctl && st.ctl[x].Owner?
    ensures var s := st.ctl[x].slab;
      && s in st.hdr && s in ch
      && CacheOk(z, nobjs, size, Given(st, x), ch[s := [x] + ch[s]])
      && Live(Given(st, x).ctl) == Live(st.ctl) - {x}
  {
    hide CacheOk, SlabOk, IsObj;
    OwnerOf(z, nobjs, size, st, ch, x);
    var s := st.ctl[x].slab;
    var h := st.hdr[s];
    SlabAt(z, nobjs, size, st, ch, s);
    GiveSlab(z, nobjs, s, h, st.ctl, ch[s], x);
    ChangedOk(z, nobjs, size, st, ch, s, Header(h.addr, h.inuse - 1, Some(x)), x, Next(h.free), [x] + ch[s]);
    LiveRemove(st.ctl, x, h.free);
  }

  // ---------------------------------------------------------------- a new slab

  /** addr is a block of its own. */
  ghost predicate Fresh(size: nat, hdr: map<nat, Header>, addr: nat) {
    forall s :: s in hdr ==> Separate(size, hdr[s].addr, addr)
  }

  /** ctl' is ctl with the control words of a new slab at addr. */
  ghost predicate Extends(z: Sizes, nobjs: nat, addr: nat, ctl: Ctls, ctl': Ctls) {
    && (forall x :: x in ctl && !IsObj(z, nobjs, addr, x) ==> x in ctl' && ctl'[x] == ctl[x])
    && (forall x :: x in ctl' ==> x in ctl || IsObj(z, nobjs, addr, x))
  }

  lemma FreshObj(z: Sizes, nobjs: nat, size: nat, hdr: map<nat, Header>, addr: nat, s: nat, x: nat)
    requires Geometry(z, nobjs, size) && Fresh(size, hdr, addr) && s in hdr && IsObj(z, nobjs, hdr[s].addr, x)
    ensures !IsObj(z, nobjs, addr, x)
  {
    assert Separate(size, hdr[s].addr, addr);
    ObjInside(z, nobjs, size, hdr[s].addr, x);
    if IsObj(z, nobjs, addr, x) { ObjInside(z, nobjs, size, addr, x); }
  }

  lemma HeaderAbove(z: Sizes, nobjs: nat, size: nat, addr: nat)
    requires Geometry(z, nobjs, size)
    ensures addr < ObjAt(z, addr, nobjs) <= addr + size
  {
    ObjOrder(z, addr, 0, nobjs);
  }

  lemma FreshHeader(z: Sizes, nobjs: nat, size: nat, st: State, ch: Chains, addr: nat)
    requires CacheOk(z, nobjs, size, st, ch) && Fresh(size, st.hdr, addr)
    ensures ObjAt(z, addr, nobjs) !in st.hdr
  {
    var s := ObjAt(z, addr, nobjs);
    HeaderAbove(z, nobjs, size, addr);
    if s in st.hdr {
      SlabAt(z, nobjs, size, st, ch, s);
      HeaderAbove(z, nobjs, size, st.hdr[s].addr);
    }
    hide CacheOk, ObjAt, Linked, IsObj;
  }

  function Grown(z: Sizes, nobjs: nat, st: State, addr: nat, ctl': Ctls): State {
    var s := ObjAt(z, addr, nobjs);
    State([s] + st.slabs, st.hdr[s := Header(addr, 0, Some(addr))], ctl')
  }

  lemma GrownListed(z: Sizes, nobjs: nat, st: State, ch: Chains, addr: nat, ctl': Ctls)
    requires Registered(st, ch) && ObjAt(z, addr, nobjs) !in st.hdr
    ensures Registered(Grown(z, nobjs, st, addr, ctl'), ch[ObjAt(z, addr, nobjs) := ObjsFrom(z, nobjs, addr, 0)])
  {
    hide ObjAt, ObjsFrom;
    var s := ObjAt(z, addr, nobjs);
    assert s !in st.slabs;
  }

  lemma GrownSlabs(z: Sizes, nobjs: nat, size: nat, st: State, ch: Chains, addr: nat, ctl': Ctls)
    requires CacheOk(z, nobjs, size, st, ch) && Fresh(size, st.hdr, addr)
    requires Threaded(z, nobjs, addr, ctl') && Extends(z, nobjs, addr, st.ctl, ctl')
    ensures var ch' := ch[ObjAt(z, addr, nobjs) := ObjsFrom(z, nobjs, addr, 0)];
      Grown(z, nobjs, st, addr, ctl').hdr.Keys == ch'.Keys && AllSlabs(z, nobjs, Grown(z, nobjs, st, addr, ctl'), ch')
  {
    var s := ObjAt(z, addr, nobjs);
    NewSlab(z, nobjs, addr, ctl');
    assert st.hdr.Keys == ch.Keys;
    hide SlabOk, Threaded, ObjAt, ObjsFrom, CacheOk, Fresh, Extends;
    var st' := Grown(z, nobjs, st, addr, ctl');
    var ch' := ch[s := ObjsFrom(z, nobjs, addr, 0)];
    forall t | t in st'.hdr ensures SlabOk(z, nobjs, t, st'.hdr[t], st'.ctl, ch'[t]) {
      if t != s { KeptSlab(z, nobjs, size, st, ch, addr, ctl', t); }
    }
  }

  lemma KeptSlab(z: Sizes, nobjs: nat, size: nat, st: State, ch: Chains, addr: nat, ctl': Ctls, t: nat)
    requires CacheOk(z, nobjs, size, st, ch) && Fresh(size, st.hdr, addr) && t in st.hdr
    requires Extends(z, nobjs, addr, st.ctl, ctl')
    ensures t in ch && SlabOk(z, nobjs, t, st.hdr[t], ctl', ch[t])
  {
    SlabAt(z, nobjs, size, st, ch, t);
    forall x | IsObj(z, nobjs, st.hdr[t].addr, x) ensures x in ctl' && (x in st.ctl ==> ctl'[x] == st.ctl[x]) {
      FreshObj(z, nobjs, size, st.hdr, addr, t, x);
    }
    SlabSame(z, nobjs, t, st.hdr[t], st.ctl, ctl', ch[t]);
  }

  /** _slab_allocator_grow: one more slab, all of its objects free. */
  lemma GrowOk(z: Sizes, nobjs: nat, size: nat, st: State, ch: Chains, addr: nat, ctl': Ctls)
    requires CacheOk(z, nobjs, size, st, ch) && Fresh(size, st.hdr, addr)
    requires Threaded(z, nobjs, addr, ctl') && Extends(z, nobjs, addr, st.ctl, ctl')
    ensures CacheOk(z, nobjs, size, Grown(z, nobjs, st, addr, ctl'), ch[ObjAt(z, addr, nobjs) := ObjsFrom(z, nobjs, addr, 0)])
    ensures Live(ctl') == Live(st.ctl)
  {
    var s := ObjAt(z, addr, nobjs);
    var hdr' := st.hdr[s := Header(addr, 0, Some(addr))];
    FreshHeader(z, nobjs, size, st, ch, addr);
    GrownListed(z, nobjs, st, ch, addr, ctl');
    GrownSlabs(z, nobjs, size, st, ch, addr, ctl');
    GrownLive(z, nobjs, size, st, ch, addr, ctl');
    GrownApart(size, st.hdr, s, addr);
    hide SlabOk, Threaded, ObjAt, ObjsFrom, AllSlabs, Registered, AllApart, IsObj, Geometry, Live;
    forall x | x in ctl' ensures Owned(z, nobjs, hdr', x) {
      if x in st.ctl {
        SameOwned(z, nobjs, st.hdr, hdr', x);
      } else {
        assert s in hdr' && IsObj(z, nobjs, hdr'[s].addr, x);
      }
    }
  }

  lemma GrownApart(size: nat, hdr: map<nat, Header>, s: nat, addr: nat)
    requires AllApart(size, hdr) && Fresh(size, hdr, addr) && s !in hdr
    ensures AllApart(size, hdr[s := Header(addr, 0, Some(addr))])
  {
    var hdr' := hdr[s := Header(addr, 0, Some(addr))];
    forall t, u | t in hdr' && u in hdr' && t != u ensures Separate(size, hdr'[t].addr, hdr'[u].addr) {
      if t != s && u != s { ApartAt(size, hdr, t, u); }
    }
  }

  lemma GrownLive(z: Sizes, nobjs: nat, size: nat, st: State, ch: Chains, addr: nat, ctl': Ctls)
    requires CacheOk(z, nobjs, size, st, ch) && Fresh(size, st.hdr, addr)
    requires Threaded(z, nobjs, addr, ctl') && Extends(z, nobjs, addr, st.ctl, ctl')
    ensures Live(ctl') == Live(st.ctl)
  {
    forall x ensures x in Live(ctl') <==> x in Live(st.ctl) {
      if IsObj(z, nobjs, addr, x) {
        var i: nat :| i < nobjs && x == ObjAt(z, addr, i);
        assert Link(z, nobjs, addr, ctl', i);
      }
      if x in st.ctl {
        assert Owned(z, nobjs, st.hdr, x);
        var s :| s in st.hdr && IsObj(z, nobjs, st.hdr[s].addr, x);
        FreshObj(z, nobjs, size, st.hdr, addr, s, x);
      }
    }
  }

  // ------------------------------------------------------------ an empty slab

  ghost function Elems(s: seq<nat>): set<nat> { set x | x in s }

  lemma {:induction false} ElemsSize(s: seq<nat>)
    requires NoDup(s)
    ensures |Elems(s)| == |s|
  {
    if s != [] {
      ElemsSize(s[1..]);
      assert Elems(s) == Elems(s[1..]) + {s[0]} && s[0] !in Elems(s[1..]);
    }
  }

  lemma SameSize(a: set<nat>, b: set<nat>)
    requires a <= b && |a| == |b|
    ensures a == b
  {
    assert |b - a| == 0;
  }

  /** With no object in use the chain holds every object of the slab. */
  lemma AllOnChain(z: Sizes, nobjs: nat, s: nat, h: Header, ctl: Ctls, chain: seq<nat>, x: nat)
    requires SlabOk(z, nobjs, s, h, ctl, chain) && h.inuse == 0 && z.Stride() > 0 && IsObj(z, nobjs, h.addr, x)
    ensures x in chain
  {
    var all := ObjsFrom(z, nobjs, h.addr, 0);
    forall i, j | 0 <= i < j < |all| ensures all[i] != all[j] { ObjOrder(z, h.addr, i, j); }
    forall y | y in chain ensures y in all {
      var i: nat :| i < nobjs && y == ObjAt(z, h.addr, i);
      assert all[i] == y;
    }
    var i: nat :| i < nobjs && x == ObjAt(z, h.addr, i);
    assert all[i] == x;
    hide SlabOk, ObjsFrom, ObjAt, IsObj;
    ElemsSize(chain);
    ElemsSize(all);
    SameSize(Elems(chain), Elems(all));
    assert x in Elems(all);
  }

  /** The control words of the other slabs. */
  ghost predicate Shrinks(z: Sizes, nobjs: nat, addr: nat, ctl: Ctls, ctl': Ctls) {
    && (forall x :: x in ctl' <==> x in ctl && !IsObj(z, nobjs, addr, x))
    && (forall x :: x in ctl' ==> ctl'[x] == ctl[x])
  }

  function Unlinked(s: seq<nat>, k: nat): seq<nat>
    requires k < |s|
  {
    s[..k] + s[k + 1..]
  }

  function Reclaimed(st: State, k: nat, ctl': Ctls): State
    requires k < |st.slabs|
  {
    State(Unlinked(st.slabs, k), st.hdr - {st.slabs[k]}, ctl')
  }

  lemma UnlinkedList(s: seq<nat>, k: nat)
    requires k < |s| && NoDup(s)
    ensures NoDup(Unlinked(s, k)) && forall x :: x in Unlinked(s, k) <==> x in s && x != s[k]
  {
    var r := Unlinked(s, k);
    forall x | x in s && x != s[k] ensures x in r {
      var i :| 0 <= i < |s| && s[i] == x;
      assert if i < k then r[i] == x else r[i - 1] == x;
    }
    assert forall i :: 0 <= i < |r| ==> r[i] == if i < k then s[i] else s[i + 1];
  }

  /** Another slab's objects keep their control words. */
  lemma UndroppedSlab(z: Sizes, nobjs: nat, size: nat, st: State, ch: Chains, s: nat, ctl': Ctls, t: nat)
    requires CacheOk(z, nobjs, size, st, ch) && s in st.hdr && t in st.hdr && s != t
    requires Shrinks(z, nobjs, st.hdr[s].addr, st.ctl, ctl')
    ensures t in ch && SlabOk(z, nobjs, t, st.hdr[t], ctl', ch[t])
  {
    SlabAt(z, nobjs, size, st, ch, t);
    forall x | IsObj(z, nobjs, st.hdr[t].addr, x) ensures x in ctl' && (x in st.ctl ==> ctl'[x] == st.ctl[x]) {
      if IsObj(z, nobjs, st.hdr[s].addr, x) { OneSlab(z, nobjs, size, st.hdr, s, t, x); }
      ChainIsFree(z, nobjs, t, st.hdr[t], st.ctl, ch[t], x);
    }
    SlabSame(z, nobjs, t, st.hdr[t], st.ctl, ctl', ch[t]);
  }

  lemma DroppedSlabs(z: Sizes, nobjs: nat, size: nat, st: State, ch: Chains, k: nat, ctl': Ctls)
    requires CacheOk(z, nobjs, size, st, ch) && k < |st.slabs| && st.slabs[k] in st.hdr
    requires Shrinks(z, nobjs, st.hdr[st.slabs[k]].addr, st.ctl, ctl')
    ensures Reclaimed(st, k, ctl').hdr.Keys == (ch - {st.slabs[k]}).Keys
    ensures AllSlabs(z, nobjs, Reclaimed(st, k, ctl'), ch - {st.slabs[k]})
  {
    assert st.hdr.Keys == ch.Keys;
    hide SlabOk, CacheOk, Shrinks, IsObj;
    var st', ch' := Reclaimed(st, k, ctl'), ch - {st.slabs[k]};
    forall t | t in st'.hdr ensures SlabOk(z, nobjs, t, st'.hdr[t], st'.ctl, ch'[t]) {
      UndroppedSlab(z, nobjs, size, st, ch, st.slabs[k], ctl', t);
    }
  }

  /** The objects that remain are those of the slabs that remain. */
  lemma DroppedOwned(z: Sizes, nobjs: nat, size: nat, st: State, ch: Chains, k: nat, ctl': Ctls)
    requires CacheOk(z, nobjs, size, st, ch) && k < |st.slabs| && st.slabs[k] in st.hdr
    requires Shrinks(z, nobjs, st.hdr[st.slabs[k]].addr, st.ctl, ctl')
    ensures AllOwned(z, nobjs, Reclaimed(st, k, ctl'))
  {
    hide SlabOk, IsObj, AllSlabs, AllApart, Registered;
    var st' := Reclaimed(st, k, ctl');
    forall x | x in st'.ctl ensures Owned(z, nobjs, st'.hdr, x) {
      assert Owned(z, nobjs, st.hdr, x);
      var t :| t in st.hdr && IsObj(z, nobjs, st.hdr[t].addr, x);
      assert t in st'.hdr && IsObj(z, nobjs, st'.hdr[t].addr, x);
    }
  }

  lemma DroppedListed(st: State, ch: Chains, k: nat, ctl': Ctls)
    requires Registered(st, ch) && k < |st.slabs|
    ensures Registered(Reclaimed(st, k, ctl'), ch - {st.slabs[k]})
  {
    UnlinkedList(st.slabs, k);
    hide Unlinked;
  }

  lemma DroppedLive(z: Sizes, nobjs: nat, s: nat, h: Header, ctl: Ctls, chain: seq<nat>, ctl': Ctls)
    requires SlabOk(z, nobjs, s, h, ctl, chain) && h.inuse == 0 && z.Stride() > 0 && Shrinks(z, nobjs, h.addr, ctl, ctl')
    ensures Live(ctl') == Live(ctl)
  {
    hide SlabOk, IsObj;
    forall x ensures x in Live(ctl') <==> x in Live(ctl) {
      if x in ctl && IsObj(z, nobjs, h.addr, x) {
        AllOnChain(z, nobjs, s, h, ctl, chain, x);
        ChainIsFree(z, nobjs, s, h, ctl, chain, x);
      }
    }
  }

  /** Reclaiming a slab with no object in use takes no allocated object away. */
  lemma DropOk(z: Sizes, nobjs: nat, size: nat, st: State, ch: Chains, k: nat, ctl': Ctls)
    requires CacheOk(z, nobjs, size, st, ch) && k < |st.slabs| && st.slabs[k] in st.hdr && st.hdr[st.slabs[k]].inuse == 0
    requires Shrinks(z, nobjs, st.hdr[st.slabs[k]].addr, st.ctl, ctl')
    ensures CacheOk(z, nobjs, size, Reclaimed(st, k, ctl'), ch - {st.slabs[k]})
    ensures Live(ctl') == Live(st.ctl)
  {
    hide SlabOk, IsObj, AllSlabs, AllApart, AllOwned, Registered, Unlinked, Live, Shrinks;
    var s := st.slabs[k];
    DroppedListed(st, ch, k, ctl');
    DroppedSlabs(z, nobjs, size, st, ch, k, ctl');
    DroppedOwned(z, nobjs, size, st, ch, k, ctl');
    SameApart(size, st.hdr, st.hdr - {s});
    SlabAt(z, nobjs, size, st, ch, s);
    DroppedLive(z, nobjs, s, st.hdr[s], st.ctl, ch[s], ctl');
  }
}
