/**
 * The page allocator over all groups: allocation by order or by page count,
 * release, and the global count of free pages
 * (kernel/mm/page.c:101-136, 188-405).
 */
module PageAllocator {
  import opened Basics
  import opened BuddyBlocks
  import opened Buddy
  import opened FreeLists
  import opened PageGroup

  /** The end of a group's address range, the dropped remainder included. */
  function End(g: Group): nat { g.base + g.npages * PAGE_SIZE }

  predicate Contains(g: Group, addr: nat) { g.base <= addr < End(g) }

  function Sum(s: seq<int>): int { if s == [] then 0 else s[0] + Sum(s[1..]) }

  lemma {:induction false} SumUpdate(s: seq<int>, i: nat, x: int)
    requires i < |s|
    ensures Sum(s[i := x]) == Sum(s) - s[i] + x
  {
    if i > 0 {
      assert s[i := x][1..] == s[1..][i - 1 := x];
      SumUpdate(s[1..], i - 1, x);
    }
  }

  lemma {:induction false} SumAppend(s: seq<int>, x: int)
    ensures Sum(s + [x]) == Sum(s) + x
  {
    if s != [] {
      assert (s + [x])[1..] == s[1..] + [x];
      SumAppend(s[1..], x);
    }
  }

  /** Different groups at different addresses, all with n orders. */
  ghost predicate Placed(n: nat, gs: seq<Group>) {
    && n > 0
    && (forall g :: g in gs ==> g.n == n && g.tops == Up(g.npages, n - 1))
    && (forall i, j :: 0 <= i < j < |gs| ==> gs[i] != gs[j])
    && (forall i, j :: 0 <= i < j < |gs| ==> End(gs[i]) <= gs[j].base || End(gs[j]) <= gs[i].base)
  }

  lemma PlacedAt(n: nat, gs: seq<Group>, i: nat)
    requires Placed(n, gs) && i < |gs|
    ensures gs[i].n == n > 0 && gs[i].tops == Up(gs[i].npages, n - 1)
    ensures forall j :: 0 <= j < |gs| && j != i ==> gs[j] != gs[i]
    ensures forall g :: g in gs ==> g.n > 0
  {
  }

  /** What a caller can tell of a group: where it is and what is allocated in it. */
  datatype View = View(base: nat, npages: nat, tops: nat, live: set<Block>) {
    function End(): nat { base + npages * PAGE_SIZE }

    predicate Contains(addr: nat) { base <= addr < End() }
  }

  /** No group has an aligned run of 2^order unallocated pages. */
  ghost predicate Exhausted(n: nat, vs: seq<View>, order: nat) {
    forall i, b: Block :: 0 <= i < |vs| && b.o == order && InRegion(n, vs[i].tops, b) ==> !Unused(vs[i].live, b)
  }

  /** Block b of group at, whose pages were all unallocated, is allocated at address addr. */
  ghost predicate Handed(n: nat, vs: seq<View>, vs': seq<View>, at: nat, b: Block, addr: nat) {
    && at < |vs| && InRegion(n, vs[at].tops, b) && Unused(vs[at].live, b)
    && addr == AddrOf(vs[at].base, b.o, b.q) && vs[at].Contains(addr)
    && vs' == vs[at := vs[at].(live := vs[at].live + {b})]
  }

  /** c is a maximal run of unallocated pages of the group. */
  ghost predicate FreeBlock(n: nat, v: View, c: Block) { Canonical(n, v.tops, v.live, c) }

  /** Every free block of any group that could hold a block of the given order has order least at least. */
  ghost predicate NoneBelow(n: nat, vs: seq<View>, order: nat, least: nat) {
    forall i: nat, d: Block :: i < |vs| && FreeBlock(n, vs[i], d) && order <= d.o ==> least <= d.o
  }

  /** Block b is cut out of a free block of its group, and no smaller free block of any group would have done. */
  ghost predicate BestFit(n: nat, vs: seq<View>, at: nat, b: Block) {
    at < |vs| && exists c: Block :: FreeBlock(n, vs[at], c) && Within(b, c) && NoneBelow(n, vs, b.o, c.o)
  }

  lemma Fitted(n: nat, vs: seq<View>, at: nat, b: Block, c: Block)
    requires at < |vs| && FreeBlock(n, vs[at], c) && Within(b, c) && NoneBelow(n, vs, b.o, c.o)
    ensures BestFit(n, vs, at, b)
  {
  }

  lemma IsFreeBlock(n: nat, v: View, c: Block)
    requires Canonical(n, v.tops, v.live, c)
    ensures FreeBlock(n, v, c)
  {
  }

  /** Block b of group at, at address addr, is allocated no more. */
  ghost predicate Returned(vs: seq<View>, vs': seq<View>, at: nat, b: Block, addr: nat) {
    && at < |vs| && b in vs[at].live && addr == AddrOf(vs[at].base, b.o, b.q)
    && vs' == vs[at := vs[at].(live := vs[at].live - {b})]
  }

  /** A block of the group starts inside the group's addresses. */
  lemma InsideGroup(n: nat, base: nat, npages: nat, b: Block)
    requires n > 0 && InRegion(n, Up(npages, n - 1), b)
    ensures base <= AddrOf(base, b.o, b.q) < base + npages * PAGE_SIZE
  {
    if b.q >= Up(npages, b.o) {
      UpMonotone(Up(npages, b.o), b.q, n - 1 - b.o);
      UpUp(npages, b.o, n - 1 - b.o);
      assert false;
    }
    UpTimes(npages, b.o);
    MulLess(b.q, Up(npages, b.o), Pow2(b.o));
    PageTimes(b.q, Pow2(b.o));
    hide Pow2, Up;
  }

  lemma WholePages(from: nat, to: nat, used: nat)
    requires from / PAGE_SIZE <= to / PAGE_SIZE && used <= Whole(from, to) * PAGE_SIZE
    ensures var start, end := from / PAGE_SIZE * PAGE_SIZE, to / PAGE_SIZE * PAGE_SIZE;
      && end - start == Whole(from, to) * PAGE_SIZE && (end - start) / PAGE_SIZE == Whole(from, to)
      && var left := (end - used - start) / PAGE_SIZE;
      && 0 <= left <= Whole(from, to) && start + left * PAGE_SIZE <= end
  {
  }

  lemma PageTimes(q: nat, p: nat)
    ensures q * (p * PAGE_SIZE) == (q * p) * PAGE_SIZE
  {
  }

  lemma {:induction false} UpTimes(x: nat, o: nat)
    ensures Up(x, o) * Pow2(o) <= x
  {
    if o > 0 {
      UpLast(x, o);
      UpTimes(x, o - 1);
      Drop(Up(x, o - 1), o - 1);
    }
  }

  /** Group by group, the pages dropped at creation. */
  function Dropped(n: nat, vs: seq<View>): int
    requires n > 0
  {
    if vs == [] then 0 else vs[0].npages - vs[0].tops * Pow2(n - 1) + Dropped(n, vs[1..])
  }

  lemma {:induction false} DroppedUpdate(n: nat, vs: seq<View>, i: nat, live: set<Block>)
    requires n > 0 && i < |vs|
    ensures Dropped(n, vs[i := vs[i].(live := live)]) == Dropped(n, vs)
  {
    if i > 0 {
      assert vs[i := vs[i].(live := live)][1..] == vs[1..][i - 1 := vs[1..][i - 1].(live := live)];
      DroppedUpdate(n, vs[1..], i - 1, live);
    } else {
      assert vs[i := vs[i].(live := live)][1..] == vs[1..];
    }
  }

  lemma {:induction false} DroppedAppend(n: nat, vs: seq<View>, v: View)
    requires n > 0
    ensures Dropped(n, vs + [v]) == Dropped(n, vs) + v.npages - v.tops * Pow2(n - 1)
  {
    if vs != [] {
      assert (vs + [v])[1..] == vs[1..] + [v];
      DroppedAppend(n, vs[1..], v);
    }
  }

  /** No group has an address in the range. */
  ghost predicate Vacant(vs: seq<View>, lo: nat, hi: nat) {
    forall i: nat :: i < |vs| ==> vs[i].End() <= lo || hi <= vs[i].base
  }

  /** The whole pages between two addresses, both rounded down. */
  function Whole(from: nat, to: nat): int { to / PAGE_SIZE - from / PAGE_SIZE }

  /** The bytes of the bitmaps of orders 1 to k - 1 for npages pages: one bit for each block, in whole bytes. */
  function MapBytes(npages: nat, k: nat): nat {
    if k <= 1 then 0 else MapBytes(npages, k - 1) + (Up(npages, k - 1) + 7) / 8
  }

  /** The group is as the view says, and has the given number of pages on its lists. */
  ghost predicate Matches(g: Group, v: View, pages: int)
    reads g
  {
    g.Valid() && g.PagesFree() == pages && v == View(g.base, g.npages, g.tops, g.live)
  }

  lemma OwnView(g: Group)
    requires g.Valid()
    ensures Matches(g, View(g.base, g.npages, g.tops, g.live), g.PagesFree())
  {
  }

  class Pages {
    const n: nat
    var groups: seq<Group>
    var freecount: int
    ghost var views: seq<View>
    ghost var pages: seq<int>

    /** page_freecount is the number of pages on the lists and of those dropped at creation. */
    ghost predicate Valid()
      reads this, groups
    {
      && Placed(n, groups) && |groups| == |views| == |pages|
      && (forall i: nat :: i < |groups| ==> Matches(groups[i], views[i], pages[i]))
      && freecount == Sum(pages) + Dropped(n, views)
    }

    /** page_init. */
    constructor (n: nat)
      requires n > 0
      ensures Valid() && this.n == n && groups == [] && freecount == 0 && views == []
    {
      this.n := n;
      groups, freecount, views, pages := [], 0, [], [];
    }

    /**
     * page_add_range with the first half of _pagegroup_create: the group's
     * own record and its bitmaps are cut from the end of the range, and the
     * whole pages before them are added.
     */
    method AddRange(from: nat, to: nat, record: nat)
      requires Valid() && from / PAGE_SIZE <= to / PAGE_SIZE
      requires record + MapBytes(Whole(from, to), n) <= Whole(from, to) * PAGE_SIZE
      requires Vacant(views, from / PAGE_SIZE * PAGE_SIZE, to / PAGE_SIZE * PAGE_SIZE)
      modifies this
      ensures Valid()
      ensures var npages := (Whole(from, to) * PAGE_SIZE - record - MapBytes(Whole(from, to), n)) / PAGE_SIZE;
        && freecount == old(freecount) + npages
        && (npages == 0 ==> views == old(views))
        && (npages > 0 ==> views == old(views) + [View(from / PAGE_SIZE * PAGE_SIZE, npages, Up(npages, n - 1), {})])
    {
      hide Valid, Up, MapBytes, Sum, Dropped, Placed, Matches, Pow2;
      SomeOrder(this);
      var start, end := from / PAGE_SIZE * PAGE_SIZE, to / PAGE_SIZE * PAGE_SIZE;
      var npages := (end - start) / PAGE_SIZE;
      var bytes, sizes := Maps(npages);
      WholePages(from, to, record + bytes);
      end := end - record - bytes;
      var left := (end - start) / PAGE_SIZE;
      if left > 0 { AddGroup(start, left, npages, sizes); }
    }

    /** The bitmaps: their bits, order by order, and their bytes in all. */
    method Maps(npages: nat) returns (used: nat, sizes: seq<nat>)
      requires n > 0
      ensures used == MapBytes(npages, n)
      ensures |sizes| == n && forall k: nat :: 0 < k < n ==> sizes[k] >= Up(npages, k)
    {
      used, sizes := 0, [0];
      for order := 1 to n
        invariant |sizes| == order && used == MapBytes(npages, order)
        invariant forall k: nat :: 0 < k < order ==> sizes[k] >= Up(npages, k)
      {
        var bytes := (Up(npages, order) + 7) / 8;
        used := used + bytes;
        sizes := sizes + [8 * bytes];
      }
    }

    /** A new group at the end of the list. */
    method AddGroup(start: nat, npages: nat, all: nat, sizes: seq<nat>)
      requires Valid() && npages <= all && |sizes| == n && forall k: nat :: 0 < k < n ==> sizes[k] >= Up(all, k)
      requires forall i: nat :: i < |views| ==> views[i].End() <= start || start + npages * PAGE_SIZE <= views[i].base
      modifies this
      ensures Valid() && freecount == old(freecount) + npages
      ensures views == old(views) + [View(start, npages, Up(npages, n - 1), {})]
    {
      forall k: nat | 0 < k < n ensures sizes[k] >= Up(npages, k) { UpMonotone(npages, all, k); }
      assert n > 0;
      hide *;
      var g := new Group(n, start, npages, sizes);
      Append(g);
    }

    method Append(g: Group)
      requires Valid() && g !in groups && g.Valid() && g.n == n && g.tops == Up(g.npages, n - 1)
      requires g.live == {} && g.PagesFree() == g.tops * Pow2(n - 1)
      requires forall i: nat :: i < |views| ==> views[i].End() <= g.base || End(g) <= views[i].base
      modifies this
      ensures Valid() && freecount == old(freecount) + g.npages
      ensures views == old(views) + [View(g.base, g.npages, g.tops, {})]
    {
      hide Matches, Group.Valid, Group.PagesFree, Sum, Dropped, Up, Pow2, Placed;
      ghost var v := View(g.base, g.npages, g.tops, {});
      PlacedAppend(this, g, v);
      SumAppend(pages, g.PagesFree());
      DroppedAppend(n, views, v);
      OwnView(g);
      groups := groups + [g];
      freecount := freecount + g.npages;
      views, pages := views + [v], pages + [g.PagesFree()];
    }

    /** The first group with a block on the list of the given order. */
    method FirstWith(order: nat) returns (r: Option<nat>)
      requires Valid() && order < n
      ensures r.None? ==> forall i: nat :: i < |groups| ==> ListEmpty(groups[i], order)
      ensures r.Some? ==> r.value < |groups| && !ListEmpty(groups[r.value], order)
    {
      for i := 0 to |groups|
        invariant forall k: nat :: k < i ==> ListEmpty(groups[k], order)
      {
        assert Matches(groups[i], views[i], pages[i]);
        GroupSize(n, groups, i);
        if groups[i].free[order] != [] { return Some(i); }
      }
      r := None;
    }

    /** The search of _page_alloc_order and _page_split: the smallest order that has a block, and a group that has it. */
    method Search(order: nat) returns (r: Option<(nat, nat)>)
      requires Valid() && order < n
      ensures r.None? ==> forall i: nat, k: nat :: i < |groups| && order <= k < n ==> ListEmpty(groups[i], k)
      ensures r.Some? ==> r.value.0 < |groups| && order <= r.value.1 < n && !ListEmpty(groups[r.value.0], r.value.1)
      ensures r.Some? ==> forall i: nat, k: nat :: i < |groups| && order <= k < r.value.1 ==> ListEmpty(groups[i], k)
    {
      hide *;
      for norder := order to n
        invariant forall i: nat, k: nat :: i < |groups| && order <= k < norder ==> ListEmpty(groups[i], k)
      {
        var i := FirstWith(norder);
        if i.Some? { return Some((i.value, norder)); }
      }
      r := None;
    }

    /** Bring the ghost fields up to date with group i, whose lists have d pages more than noted. */
    ghost method Note(i: nat, d: int)
      requires Placed(n, groups) && i < |groups| == |views| == |pages|
      requires forall j: nat :: j < |groups| && j != i ==> Matches(groups[j], views[j], pages[j])
      requires groups[i].Valid() && groups[i].PagesFree() == pages[i] + d
      requires views[i] == View(groups[i].base, groups[i].npages, groups[i].tops, views[i].live)
      requires freecount == Sum(pages) + d + Dropped(n, views)
      modifies this`views, this`pages
      ensures Valid() && views == old(views)[i := old(views)[i].(live := groups[i].live)]
    {
      SumUpdate(pages, i, groups[i].PagesFree());
      DroppedUpdate(n, views, i, groups[i].live);
      assert Matches(groups[i], views[i].(live := groups[i].live), groups[i].PagesFree());
      hide Matches, Sum, Dropped, Placed;
      pages := pages[i := groups[i].PagesFree()];
      views := views[i := views[i].(live := groups[i].live)];
    }

    /** The allocation once a list with a block has been found. */
    method AllocFrom(i: nat, from: nat, order: nat) returns (addr: nat, ghost b: Block, ghost c: Block)
      requires Valid() && i < |groups| && order <= from < n && !ListEmpty(groups[i], from)
      modifies this`freecount, this`views, this`pages, groups[i]
      ensures Valid() && b.o == order && Handed(n, old(views), views, i, b, addr)
      ensures freecount == old(freecount) - Pow2(order)
      ensures i < |old(views)| && FreeBlock(n, old(views)[i], c) && c.o == from && Within(b, c)
    {
      hide Pages.Valid, Group.Valid, Group.PagesFree, Matches, Placed, Sum, Dropped, Up, Pow2, Canonical, Within, FreeBlock, Handed,
        InRegion, Unused, AddrOf;
      ValidParts(this, i);
      ghost var v := views[i];
      addr, b, c := groups[i].Alloc(from, order);
      IsFreeBlock(n, v, c);
      freecount := freecount - Pow2(order);
      NowHanded(n, views, i, b, addr);
      Note(i, 0 - Pow2(order));
    }

    /**
     * _page_alloc_order without the attempts to make memory free: it fails
     * exactly when no group has an aligned run of 2^order unallocated pages,
     * and otherwise cuts the block out of a smallest free one that holds it.
     */
    method AllocOrder(order: nat) returns (r: Option<nat>, ghost at: nat, ghost b: Block)
      requires Valid() && order < n
      modifies this`freecount, this`views, this`pages, groups
      ensures Valid()
      ensures r.None? <==> Exhausted(n, old(views), order)
      ensures r.None? ==> views == old(views) && freecount == old(freecount)
      ensures r.Some? ==>
        && b.o == order && Handed(n, old(views), views, at, b, r.value)
        && freecount == old(freecount) - Pow2(order) && BestFit(n, old(views), at, b)
    {
      hide *;
      var found := Search(order);
      at, b := 0, Block(0, 0);
      if found.None? {
        NoneFreeAnywhere(this, order);
        return None, at, b;
      }
      at := found.value.0;
      NoneSmaller(this, order, found.value.1);
      var addr;
      ghost var c;
      addr, b, c := AllocFrom(found.value.0, found.value.1, order);
      Fitted(n, old(views), at, b, c);
      HandedOut(n, old(views), views, at, b, addr);
      r := Some(addr);
    }

    /** _pagegroup_from_address. */
    method GroupOf(addr: nat) returns (r: Option<nat>)
      requires Valid()
      ensures r.None? ==> forall i: nat :: i < |views| ==> !views[i].Contains(addr)
      ensures r.Some? ==> r.value < |views| && views[r.value].Contains(addr)
    {
      hide ShapeOf, NoPairs, Sum, Dropped, AddrOf, Up, Pow2, PagesOn, Placed;
      for i := 0 to |groups|
        invariant forall k: nat :: k < i ==> !views[k].Contains(addr)
      {
        assert Matches(groups[i], views[i], pages[i]);
        if Contains(groups[i], addr) { return Some(i); }
      }
      r := None;
    }

    /** _page_free_order: the block goes back to its group; an address of no group is ignored. */
    method FreeOrder(addr: nat, order: nat, ghost at: nat, ghost b: Block)
      requires Valid() && order < n && b.o == order
      requires at < |views| ==> b in views[at].live && addr == AddrOf(views[at].base, order, b.q)
      requires at >= |views| ==> forall i: nat :: i < |views| ==> !views[i].Contains(addr)
      modifies this`freecount, this`views, this`pages, groups
      ensures Valid()
      ensures if at < |old(views)|
        then Returned(old(views), views, at, b, addr) && freecount == old(freecount) + Pow2(order)
        else views == old(views) && freecount == old(freecount)
    {
      hide *;
      if at < |views| { LiveInside(this, at, b); }
      var g := GroupOf(addr);
      if g.None? { return; }
      SameGroup(this, at, b, g.value);
      ValidParts(this, at);
      groups[g.value].Release(order, addr, b);
      freecount := freecount + Pow2(order);
      NowReturned(views, at, b, addr);
      Note(at, Pow2(order));
    }

    /** The order that page_alloc_n and page_free_n compute from a page count, as a signed comparison. */
    method OrderFor(npages: nat) returns (r: Option<nat>)
      requires npages < WORD
      ensures r == SmallestOrder(n, Signed(npages))
    {
      for order := 0 to n
        invariant SmallestOrder(n, Signed(npages)) == FirstOrder(n, Signed(npages), order)
      {
        if Pow2(order) >= Signed(npages) { return Some(order); }
      }
      r := None;
    }

    /** page_alloc_n: a panic when no order is large enough, else an allocation of that order. */
    method AllocPages(npages: nat) returns (r: Allocation, ghost at: nat, ghost b: Block)
      requires Valid() && npages < WORD
      modifies this`freecount, this`views, this`pages, groups
      ensures Valid()
      ensures r.Panic? <==> SmallestOrder(n, Signed(npages)).None?
      ensures r.NoMemory? ==> Exhausted(n, old(views), SmallestOrder(n, Signed(npages)).value)
      ensures !r.At? ==> views == old(views) && freecount == old(freecount)
      ensures r.At? ==>
        && Some(b.o) == SmallestOrder(n, Signed(npages)) && Handed(n, old(views), views, at, b, r.addr)
        && BestFit(n, old(views), at, b)
        && freecount == old(freecount) - Pow2(b.o)
    {
      at, b := 0, Block(0, 0);
      var order := OrderFor(npages);
      if order.None? { return Panic, at, b; }
      OrderBound(n, Signed(npages));
      hide *;
      var addr;
      addr, at, b := AllocOrder(order.value);
      r := if addr.None? then NoMemory else At(addr.value);
    }

    /** page_free_n of a block that page_alloc_n returned for the same count. */
    method FreePages(addr: nat, npages: nat, ghost at: nat, ghost b: Block)
      requires Valid() && npages < WORD && at < |views| && b in views[at].live && addr == AddrOf(views[at].base, b.o, b.q)
      requires SmallestOrder(n, Signed(npages)) == Some(b.o)
      modifies this`freecount, this`views, this`pages, groups
      ensures Valid() && Returned(old(views), views, at, b, addr) && freecount == old(freecount) + Pow2(b.o)
    {
      var order := OrderFor(npages);
      OrderBound(n, Signed(npages));
      hide *;
      FreeOrder(addr, order.value, at, b);
    }
  }

  datatype Allocation = Panic | NoMemory | At(addr: nat)

  /** A 32-bit count read as a signed int. */
  function Signed(npages: nat): int { if npages < WORD / 2 then npages else npages - WORD }

  function FirstOrder(n: nat, npages: int, from: nat): Option<nat>
    requires from <= n
    decreases n - from
  {
    if from == n then None else if Pow2(from) >= npages then Some(from) else FirstOrder(n, npages, from + 1)
  }

  /** The least order whose blocks have at least npages pages. */
  function SmallestOrder(n: nat, npages: int): Option<nat> { FirstOrder(n, npages, 0) }

  lemma OrderBound(n: nat, npages: int)
    ensures SmallestOrder(n, npages).Some? ==> SmallestOrder(n, npages).value < n
  {
    OrderIs(n, npages, 0);
  }

  lemma {:induction false} OrderIs(n: nat, npages: int, from: nat)
    requires from <= n
    ensures var r := FirstOrder(n, npages, from);
      && (r.Some? ==> from <= r.value < n && Pow2(r.value) >= npages && forall o: nat :: from <= o < r.value ==> Pow2(o) < npages)
      && (r.None? ==> forall o: nat :: from <= o < n ==> Pow2(o) < npages)
    decreases n - from
  {
    if from < n && Pow2(from) < npages { OrderIs(n, npages, from + 1); }
  }

  /**
   * The block handed out has at least the pages asked for, and is the
   * smallest such block, exactly when the count is below 2^31; a larger
   * count is read as negative and yields a single page.
   */
  lemma OrderSuffices(n: nat, npages: nat)
    requires n > 0 && npages < WORD && SmallestOrder(n, Signed(npages)).Some?
    ensures var o := SmallestOrder(n, Signed(npages)).value;
      && (Pow2(o) >= npages <==> npages < WORD / 2)
      && (npages < WORD / 2 ==> forall k: nat :: k < o ==> Pow2(k) < npages)
      && (npages >= WORD / 2 ==> o == 0)
  {
    OrderIs(n, Signed(npages), 0);
    if npages >= WORD / 2 { assert Pow2(0) == 1 >= Signed(npages); }
  }

  /** A count of 2^32 - 1 pages is served by a single page. */
  lemma HugeCount(n: nat)
    requires n > 0
    ensures SmallestOrder(n, Signed(WORD - 1)) == Some(0)
  {
  }

  /** Allocating and then freeing leaves every group with the blocks it had. */
  lemma AllocFree(n: nat, vs: seq<View>, vs1: seq<View>, vs2: seq<View>, at: nat, b: Block, addr: nat)
    requires Handed(n, vs, vs1, at, b, addr) && Returned(vs1, vs2, at, b, addr)
    ensures vs2 == vs
  {
    assert b !in vs[at].live by {
      if b in vs[at].live { assert Overlap(b, b); }
    }
    assert vs[at].live + {b} - {b} == vs[at].live;
    assert vs2[at] == vs[at];
  }

  /** A group at fresh addresses can join the list. */
  lemma PlacedAppend(p: Pages, g: Group, v: View)
    requires p.Valid() && g !in p.groups && g.n == p.n && g.tops == Up(g.npages, p.n - 1)
    requires v.base == g.base && v.npages == g.npages
    requires forall i: nat :: i < |p.views| ==> p.views[i].End() <= g.base || End(g) <= p.views[i].base
    ensures p.n > 0 && Placed(p.n, p.groups + [g])
  {
    var gs := p.groups + [g];
    forall i, j | 0 <= i < j < |gs| ensures gs[i] != gs[j] && (End(gs[i]) <= gs[j].base || End(gs[j]) <= gs[i].base) {
      if j == |p.groups| { assert Matches(p.groups[i], p.views[i], p.pages[i]); }
    }
  }

  /** An allocated block lies inside its group. */
  lemma LiveInside(p: Pages, at: nat, b: Block)
    requires p.Valid() && at < |p.views| && b in p.views[at].live
    ensures p.views[at].Contains(AddrOf(p.views[at].base, b.o, b.q))
  {
    var g := p.groups[at];
    assert Matches(g, p.views[at], p.pages[at]);
    PlacedAt(p.n, p.groups, at);
    LiveInRegion(g, b);
    InsideGroup(p.n, g.base, g.npages, b);
  }

  lemma LiveInRegion(g: Group, b: Block)
    requires g.Valid() && b in g.live
    ensures InRegion(g.n, g.tops, b)
  {
    assert b in g.blocks + g.live;
  }

  /** Groups do not share addresses, so the group found is the block's own. */
  lemma SameGroup(p: Pages, at: nat, b: Block, found: nat)
    requires p.Valid() && at < |p.views| && b in p.views[at].live && found < |p.views|
    requires p.views[found].Contains(AddrOf(p.views[at].base, b.o, b.q))
    ensures found == at && at < |p.groups|
  {
    LiveInside(p, at, b);
    assert Matches(p.groups[at], p.views[at], p.pages[at]);
    assert Matches(p.groups[found], p.views[found], p.pages[found]);
    var x := AddrOf(p.views[at].base, b.o, b.q);
    assert Contains(p.groups[at], x) && Contains(p.groups[found], x);
  }

  lemma NoneFreeAnywhere(p: Pages, order: nat)
    requires p.Valid() && order < p.n
    requires forall i: nat, k: nat :: i < |p.groups| && order <= k < p.n ==> ListEmpty(p.groups[i], k)
    ensures Exhausted(p.n, p.views, order)
  {
    hide ShapeOf, NoPairs, Sum, Dropped, AddrOf, Up, Pow2, PagesOn, InRegion, Unused;
    forall i, b: Block | 0 <= i < |p.views| && b.o == order && InRegion(p.n, p.views[i].tops, b)
      ensures !Unused(p.views[i].live, b)
    {
      assert Matches(p.groups[i], p.views[i], p.pages[i]);
      PlacedAt(p.n, p.groups, i);
      NoneFree(p.groups[i], order, b);
    }
  }

  lemma NoneSmaller(p: Pages, order: nat, from: nat)
    requires p.Valid() && order <= from < p.n
    requires forall i: nat, k: nat :: i < |p.groups| && order <= k < from ==> ListEmpty(p.groups[i], k)
    ensures NoneBelow(p.n, p.views, order, from)
  {
    hide Pages.Valid, Matches, Group.Valid, Sum, Dropped, Up, FreeBlock, Group.PagesFree;
    Counts(p);
    forall i: nat, d: Block | i < |p.views| && FreeBlock(p.n, p.views[i], d) && order <= d.o ensures from <= d.o {
      ValidParts(p, i);
      OnItsList(p.groups[i], p.views[i], d);
    }
  }

  lemma Counts(p: Pages)
    requires p.Valid()
    ensures |p.groups| == |p.views|
  {
  }

  /** A free block is on the list of its order. */
  lemma OnItsList(g: Group, v: View, d: Block)
    requires g.Valid() && v.tops == g.tops && v.live == g.live && FreeBlock(g.n, v, d)
    ensures !ListEmpty(g, d.o)
  {
    FreeIsCanonical(g.n, g.tops, g.blocks, g.live, g.bits, d);
    Listed(g, d);
    hide *;
  }

  predicate ListEmpty(g: Group, k: nat)
    reads g
  {
    k >= |g.free| || g.free[k] == []
  }

  lemma GroupSize(n: nat, gs: seq<Group>, i: nat)
    requires Placed(n, gs) && i < |gs| && gs[i].Valid()
    ensures |gs[i].free| == n
  {
  }

  /** What Valid says about the groups, and about group i. */
  lemma ValidParts(p: Pages, i: nat)
    requires p.Valid() && i < |p.groups|
    ensures Placed(p.n, p.groups) && |p.groups| == |p.views| == |p.pages|
    ensures p.freecount == Sum(p.pages) + Dropped(p.n, p.views)
    ensures forall j: nat :: j < |p.groups| ==> Matches(p.groups[j], p.views[j], p.pages[j])
    ensures forall j: nat :: j < |p.groups| && j != i ==> p.groups[j] != p.groups[i]
    ensures var g := p.groups[i];
      && g.Valid() && g.n == p.n > 0 && g.tops == Up(g.npages, p.n - 1)
      && g.PagesFree() == p.pages[i] && p.views[i] == View(g.base, g.npages, g.tops, g.live)
  {
    assert Matches(p.groups[i], p.views[i], p.pages[i]);
    PlacedAt(p.n, p.groups, i);
    hide Placed, Sum, Dropped, Up, ShapeOf, PagesOn, NoPairs;
  }

  lemma NowHanded(n: nat, vs: seq<View>, at: nat, b: Block, addr: nat)
    requires n > 0 && at < |vs| && vs[at].tops == Up(vs[at].npages, n - 1)
    requires InRegion(n, vs[at].tops, b) && Unused(vs[at].live, b) && addr == AddrOf(vs[at].base, b.o, b.q)
    ensures Handed(n, vs, vs[at := vs[at].(live := vs[at].live + {b})], at, b, addr)
  {
    InsideGroup(n, vs[at].base, vs[at].npages, b);
  }

  lemma NowReturned(vs: seq<View>, at: nat, b: Block, addr: nat)
    requires at < |vs| && b in vs[at].live && addr == AddrOf(vs[at].base, b.o, b.q)
    ensures Returned(vs, vs[at := vs[at].(live := vs[at].live - {b})], at, b, addr)
  {
  }

  lemma HandedOut(n: nat, vs: seq<View>, vs': seq<View>, at: nat, b: Block, addr: nat)
    requires Handed(n, vs, vs', at, b, addr)
    ensures !Exhausted(n, vs, b.o)
  {
  }

  /** With no block on the lists from order up, no run of that order is unused. */
  lemma NoneFree(g: Group, order: nat, b: Block)
    requires g.Valid() && (forall k: nat :: order <= k < g.n ==> ListEmpty(g, k)) && b.o == order && InRegion(g.n, g.tops, b)
    ensures !Unused(g.live, b)
  {
    if Unused(g.live, b) {
      var c := UnusedIsFree(g.n, g.tops, g.blocks, g.live, g.bits, b);
      Listed(g, c);
    }
  }

  lemma Listed(g: Group, c: Block)
    requires g.Valid() && c in g.blocks
    ensures c.o < g.n && !ListEmpty(g, c.o)
  {
    assert AddrOf(g.base, c.o, c.q) in g.free[c.o];
  }

  // --------------------------------------------------------- what is counted

  /** The pages managed, allocated or not, over all groups. */
  ghost function Managed(vs: seq<View>): int { if vs == [] then 0 else vs[0].npages + Managed(vs[1..]) }

  /** The pages of the blocks allocated, over all groups. */
  ghost function InUse(vs: seq<View>): int { if vs == [] then 0 else Weight(vs[0].live) + InUse(vs[1..]) }

  lemma SomeOrder(p: Pages)
    requires p.Valid()
    ensures p.n > 0
  {
  }

  lemma {:induction false} CountPages(n: nat, vs: seq<View>, pages: seq<int>)
    requires n > 0 && |vs| == |pages|
    requires forall i: nat :: i < |vs| ==> pages[i] + Weight(vs[i].live) == vs[i].tops * Pow2(n - 1)
    ensures Sum(pages) + Dropped(n, vs) == Managed(vs) - InUse(vs)
  {
    if vs != [] {
      CountPages(n, vs[1..], pages[1..]);
    }
  }

  /**
   * page_freecount is always the number of pages managed less those of the
   * blocks allocated; it exceeds the pages on the lists by the remainders
   * dropped at creation, which do not change.
   */
  lemma FreeCount(p: Pages)
    requires p.Valid()
    ensures p.freecount == Managed(p.views) - InUse(p.views)
    ensures |p.pages| == |p.groups| && (forall i: nat :: i < |p.groups| ==> p.pages[i] == p.groups[i].PagesFree())
    ensures p.freecount - Sum(p.pages) == Dropped(p.n, p.views)
  {
    forall i: nat | i < |p.views| ensures p.pages[i] + Weight(p.views[i].live) == p.views[i].tops * Pow2(p.n - 1) {
      ValidParts(p, i);
    }
    hide Weight, Pow2, Placed, Sum, Dropped;
    CountPages(p.n, p.views, p.pages);
  }

  /** A group in which nothing is allocated is as it was created: only blocks of the largest order, on the last list. */
  lemma AllReturned(p: Pages, i: nat, b: Block)
    requires p.Valid() && i < |p.views| && p.views[i].live == {}
    ensures b in p.groups[i].blocks <==> b in Tops(p.n, p.views[i].tops)
    ensures b.o + 1 < p.n ==> ListEmpty(p.groups[i], b.o)
  {
    var g := p.groups[i];
    assert Matches(g, p.views[i], p.pages[i]);
    PlacedAt(p.n, p.groups, i);
    AllFree(g.n, g.tops, g.blocks, g.bits, b);
    if b.o + 1 < p.n && !ListEmpty(g, b.o) {
      var c := HeadBlock(g.n, g.base, g.tops, g.free, g.bits, g.blocks, g.live, b.o);
      AllFree(g.n, g.tops, g.blocks, g.bits, c);
      assert false;
    }
  }
}
