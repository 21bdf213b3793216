/**
 * One group of pages of the page allocator: free lists and bitmaps updated in
 * place by the split and join loops (kernel/mm/page.c:24-340).
 */
module PageGroup {
  import opened Basics
  import opened BuddyBlocks
  import opened Buddy
  import opened FreeLists

  /** The free lists after the head of one list has been split into two cells of the list below. */
  function SplitLists(free: seq<seq<nat>>, order: nat, target: nat, buddy: nat): seq<seq<nat>>
    requires 0 < order < |free| && free[order] != []
  {
    free[order := free[order][1..]][order - 1 := [buddy] + ([target] + free[order - 1])]
  }

  lemma SplitListsOk(base: nat, free: seq<seq<nat>>, blocks: set<Block>, order: nat, target: nat, buddy: nat)
    requires AllLists(base, free, blocks) && 0 < order < |free| && free[order] != [] && target == free[order][0]
    requires buddy == target + Pow2(order - 1) * PAGE_SIZE
    ensures Names(base, order, blocks, target)
    ensures var b := Block(order, IndexOf(base, order, target));
      && (Left(b) !in blocks && Right(b) !in blocks ==> AllLists(base, SplitLists(free, order, target, buddy), Cut(blocks, b)))
      && Names(base, order - 1, {Right(b)}, buddy)
  {
    HeadLists(base, order, free[order], blocks);
    var q := IndexOf(base, order, target);
    var b := Block(order, q);
    HalfAddrs(base, order, q);
    IndexOfAddr(base, order - 1, 2 * q + 1);
    hide AddrOf, IndexOf;
    if Left(b) !in blocks && Right(b) !in blocks {
      var b1 := blocks - {b};
      var free1 := free[order := free[order][1..]];
      SetList(base, free, blocks, order, free[order][1..], b1);
      PushLists(base, order - 1, free1[order - 1], b1, 2 * q);
      PushLists(base, order - 1, [target] + free1[order - 1], b1 + {Left(b)}, 2 * q + 1);
      assert b1 + {Left(b)} + {Right(b)} == Cut(blocks, b);
      SetList(base, free1, b1, order - 1, [buddy] + ([target] + free1[order - 1]), Cut(blocks, b));
    }
  }

  lemma SplitUpdates(free: seq<seq<nat>>, order: nat, target: nat, buddy: nat)
    requires 0 < order < |free| && free[order] != []
    ensures var free1 := free[order := free[order][1..]];
      var free2 := free1[order - 1 := [target] + free1[order - 1]];
      free2[order - 1 := [buddy] + free2[order - 1]] == SplitLists(free, order, target, buddy)
  {
  }

  lemma SplitHead(free: seq<seq<nat>>, order: nat, target: nat, buddy: nat)
    requires 0 < order < |free| && free[order] != []
    ensures var r := SplitLists(free, order, target, buddy);
      |r| == |free| && r[order - 1] != [] && r[order - 1][0] == buddy
  {
  }

  lemma SplitPages(free: seq<seq<nat>>, order: nat, target: nat, buddy: nat)
    requires 0 < order < |free| && free[order] != []
    ensures PagesOn(SplitLists(free, order, target, buddy), |free|) == PagesOn(free, |free|)
  {
    var free1 := free[order := free[order][1..]];
    PagesUpdate(free, order, free[order][1..], -1, |free|);
    PagesUpdate(free1, order - 1, [buddy] + ([target] + free1[order - 1]), 2, |free|);
    assert Pow2(order) == 2 * Pow2(order - 1);
    hide Pow2, PagesOn;
  }

  /** The lists hold exactly the free blocks, the bits are right and the blocks tile the group. */
  ghost predicate ShapeOf(n: nat, base: nat, tops: nat, free: seq<seq<nat>>, bits: Bits, blocks: set<Block>, live: set<Block>) {
    n > 0 && |free| == n && AllLists(base, free, blocks) && Tiled(n, tops, blocks, live, bits)
  }

  /** b is the block at the head of the free list of order o. */
  ghost predicate AtHead(base: nat, free: seq<seq<nat>>, o: nat, b: Block) {
    b.o == o < |free| && free[o] != [] && free[o][0] == AddrOf(base, o, b.q)
  }

  lemma HeadBlock(n: nat, base: nat, tops: nat, free: seq<seq<nat>>, bits: Bits, blocks: set<Block>, live: set<Block>, o: nat)
    returns (b: Block)
    requires ShapeOf(n, base, tops, free, bits, blocks, live) && o < n && free[o] != []
    ensures AtHead(base, free, o, b) && b in blocks
  {
    HeadLists(base, o, free[o], blocks);
    b := Block(o, IndexOf(base, o, free[o][0]));
  }

  lemma HeadIs(n: nat, base: nat, tops: nat, free: seq<seq<nat>>, bits: Bits, blocks: set<Block>, live: set<Block>, b: Block)
    requires ShapeOf(n, base, tops, free, bits, blocks, live) && AtHead(base, free, b.o, b)
    ensures b in blocks && IndexOf(base, b.o, free[b.o][0]) == b.q
  {
    HeadLists(base, b.o, free[b.o], blocks);
    IndexOfAddr(base, b.o, b.q);
  }

  lemma TopMark(n: nat, bits: Bits, b: Block)
    requires |bits| == n && (b.o + 1 < n ==> b.q / 2 < |bits[b.o + 1]|)
    ensures b.o + 1 >= n ==> Marked(n, bits, b) == bits
  {
  }

  lemma SplitStep(n: nat, base: nat, tops: nat, free: seq<seq<nat>>, bits: Bits, blocks: set<Block>, live: set<Block>, b: Block)
    requires ShapeOf(n, base, tops, free, bits, blocks, live) && AtHead(base, free, b.o, b) && 0 < b.o < n
    ensures |bits| == n && (b.o + 1 < n ==> b.q / 2 < |bits[b.o + 1]|) && b.q < |bits[b.o]| && !bits[b.o][b.q]
    ensures var target := free[b.o][0];
      var buddy := target + Pow2(b.o - 1) * PAGE_SIZE;
      var free' := SplitLists(free, b.o, target, buddy);
      && ShapeOf(n, base, tops, free', Marked(n, bits, b), Cut(blocks, b), live)
      && AtHead(base, free', b.o - 1, Right(b))
      && |free'| == |free| == n && PagesOn(free', n) == PagesOn(free, n)
  {
    hide Tiled, AllLists, Marked, PagesOn, IndexOf, AddrOf, Pow2, SplitLists, Cut;
    var target := free[b.o][0];
    var buddy := target + Pow2(b.o - 1) * PAGE_SIZE;
    HeadIs(n, base, tops, free, bits, blocks, live, b);
    SplitInv(n, tops, blocks, live, bits, b);
    SplitListsOk(base, free, blocks, b.o, target, buddy);
    SplitPages(free, b.o, target, buddy);
    SplitHead(free, b.o, target, buddy);
  }

  // --------------------------------------------------- allocation and release

  /** The head of a list is taken and becomes allocated. */
  lemma TakeStep(n: nat, base: nat, tops: nat, free: seq<seq<nat>>, bits: Bits, blocks: set<Block>, live: set<Block>, b: Block)
    requires ShapeOf(n, base, tops, free, bits, blocks, live) && AtHead(base, free, b.o, b) && NoPairsBut(n, blocks, b)
    ensures |bits| == n && (b.o + 1 < n ==> b.q / 2 < |bits[b.o + 1]|) && b in blocks && b !in live
    ensures var free' := free[b.o := free[b.o][1..]];
      && ShapeOf(n, base, tops, free', Marked(n, bits, b), blocks - {b}, live + {b}) && NoPairs(n, blocks - {b})
      && |free| == n && PagesOn(free', n) == PagesOn(free, n) - Pow2(b.o)
  {
    HeadIs(n, base, tops, free, bits, blocks, live, b);
    TakeInv(n, tops, blocks, live, bits, b);
    HeadLists(base, b.o, free[b.o], blocks);
    SetList(base, free, blocks, b.o, free[b.o][1..], blocks - {b});
    PagesUpdate(free, b.o, free[b.o][1..], -1, n);
    assert b !in live;
    hide Lists, AllLists, Tiled, NoPairs, NoPairsBut, Marked, PagesOn, IndexOf, AddrOf, Pow2;
  }

  /** An allocated block goes to the head of its list. */
  lemma GiveStep(n: nat, base: nat, tops: nat, free: seq<seq<nat>>, bits: Bits, blocks: set<Block>, live: set<Block>, b: Block)
    requires ShapeOf(n, base, tops, free, bits, blocks, live) && NoPairs(n, blocks) && b in live
    ensures |bits| == n && (b.o + 1 < n ==> b.q / 2 < |bits[b.o + 1]|) && b.o < n
    ensures var free' := free[b.o := [AddrOf(base, b.o, b.q)] + free[b.o]];
      && ShapeOf(n, base, tops, free', Marked(n, bits, b), blocks + {b}, live - {b}) && NoPairsBut(n, blocks + {b}, b)
      && PagesOn(free', n) == PagesOn(free, n) + Pow2(b.o)
  {
    GiveInv(n, tops, blocks, live, bits, b);
    PushLists(base, b.o, free[b.o], blocks, b.q);
    SetList(base, free, blocks, b.o, [AddrOf(base, b.o, b.q)] + free[b.o], blocks + {b});
    PagesUpdate(free, b.o, [AddrOf(base, b.o, b.q)] + free[b.o], 1, n);
    hide Lists, AllLists, Tiled, NoPairs, NoPairsBut, Marked, PagesOn, IndexOf, AddrOf, Pow2;
  }

  // ---------------------------------------------------------------- joining

  /** The free lists after two cells of one list have been joined into one of the list above. */
  function JoinLists(free: seq<seq<nat>>, order: nat, addr: nat, buddy: nat, joined: nat): seq<seq<nat>>
    requires order + 1 < |free|
  {
    free[order := Without(Without(free[order], addr), buddy)][order + 1 := [joined] + free[order + 1]]
  }

  lemma JoinListsOk(base: nat, free: seq<seq<nat>>, blocks: set<Block>, b: Block)
    requires AllLists(base, free, blocks) && b.o + 1 < |free| && b in blocks && Sibling(b) in blocks && Parent(b) !in blocks
    ensures var addr, buddy, joined := AddrOf(base, b.o, b.q), AddrOf(base, b.o, Sibling(b).q), AddrOf(base, b.o + 1, b.q / 2);
      && addr in free[b.o] && buddy in Without(free[b.o], addr)
      && |Without(Without(free[b.o], addr), buddy)| == |free[b.o]| - 2
      && AllLists(base, JoinLists(free, b.o, addr, buddy, joined), Glue(blocks, Parent(b)))
  {
    var o, q, s, p := b.o, b.q, Sibling(b), Parent(b);
    InParent(b);
    hide AddrOf, IndexOf, Without;
    var addr, buddy := AddrOf(base, o, q), AddrOf(base, o, s.q);
    RemoveLists(base, o, free[o], blocks, q);
    RemoveLists(base, o, Without(free[o], addr), blocks - {b}, s.q);
    var list := Without(Without(free[o], addr), buddy);
    var b1 := blocks - {b} - {s};
    SetList(base, free, blocks, o, list, b1);
    var free1 := free[o := list];
    PushLists(base, o + 1, free1[o + 1], b1, p.q);
    assert b1 + {p} == Glue(blocks, p);
    SetList(base, free1, b1, o + 1, [AddrOf(base, o + 1, p.q)] + free1[o + 1], Glue(blocks, p));
  }

  lemma JoinPages(free: seq<seq<nat>>, order: nat, addr: nat, buddy: nat, joined: nat)
    requires order + 1 < |free| && |Without(Without(free[order], addr), buddy)| == |free[order]| - 2
    ensures PagesOn(JoinLists(free, order, addr, buddy, joined), |free|) == PagesOn(free, |free|)
  {
    var list := Without(Without(free[order], addr), buddy);
    var free1 := free[order := list];
    PagesUpdate(free, order, list, -2, |free|);
    PagesUpdate(free1, order + 1, [joined] + free1[order + 1], 1, |free|);
    assert Pow2(order + 1) == 2 * Pow2(order);
    hide Pow2, PagesOn, Without;
  }

  lemma JoinStep(n: nat, base: nat, tops: nat, free: seq<seq<nat>>, bits: Bits, blocks: set<Block>, live: set<Block>, b: Block)
    requires ShapeOf(n, base, tops, free, bits, blocks, live) && NoPairsBut(n, blocks, b)
    requires b in blocks && Sibling(b) in blocks && b.o + 1 < n
    ensures var addr, buddy, joined := AddrOf(base, b.o, b.q), AddrOf(base, b.o, Sibling(b).q), AddrOf(base, b.o + 1, b.q / 2);
      var free' := JoinLists(free, b.o, addr, buddy, joined);
      var p := Parent(b);
      && |bits| == n && (p.o + 1 < n ==> p.q / 2 < |bits[p.o + 1]|)
      && addr in free[b.o] && buddy in Without(free[b.o], addr)
      && ShapeOf(n, base, tops, free', Marked(n, bits, p), Glue(blocks, p), live) && NoPairsBut(n, Glue(blocks, p), p)
      && PagesOn(free', n) == PagesOn(free, n)
  {
    hide Lists, AllLists, Tiled, NoPairs, NoPairsBut, Marked, PagesOn, IndexOf, AddrOf, Pow2, Without, JoinLists, Glue;
    JoinInv(n, tops, blocks, live, bits, b);
    JoinListsOk(base, free, blocks, b);
    JoinPages(free, b.o, AddrOf(base, b.o, b.q), AddrOf(base, b.o, Sibling(b).q), AddrOf(base, b.o + 1, b.q / 2));
    JoinSize(free, b.o, AddrOf(base, b.o, b.q), AddrOf(base, b.o, Sibling(b).q), AddrOf(base, b.o + 1, b.q / 2));
  }

  lemma JoinSize(free: seq<seq<nat>>, order: nat, addr: nat, buddy: nat, joined: nat)
    requires order + 1 < |free|
    ensures |JoinLists(free, order, addr, buddy, joined)| == |free|
  {
  }

  /** A join in terms of the addresses that __page_join computes. */
  lemma JoinFacts(n: nat, base: nat, tops: nat, free: seq<seq<nat>>, bits: Bits, blocks: set<Block>, live: set<Block>, b: Block)
    requires ShapeOf(n, base, tops, free, bits, blocks, live) && NoPairsBut(n, blocks, b)
    requires b in blocks && Sibling(b) in blocks && b.o + 1 < n
    ensures var addr, p := AddrOf(base, b.o, b.q), Parent(b);
      && addr >= base
      && var buddy := BuddyOf(base, b.o, addr);
      && var joined := if buddy < addr then buddy else addr;
      && buddy >= 0 && joined == AddrOf(base, b.o + 1, p.q)
      && addr in free[b.o] && buddy in Without(free[b.o], addr)
      && |bits| == n && (if p.o + 1 < n then p.q / 2 < |bits[p.o + 1]| else Marked(n, bits, p) == bits)
      && ShapeOf(n, base, tops, JoinLists(free, b.o, addr, buddy, joined), Marked(n, bits, p), Glue(blocks, p), live)
      && NoPairsBut(n, Glue(blocks, p), p) && p in Glue(blocks, p)
      && |JoinLists(free, b.o, addr, buddy, joined)| == |free| == n
      && PagesOn(JoinLists(free, b.o, addr, buddy, joined), n) == PagesOn(free, n)
  {
    JoinStep(n, base, tops, free, bits, blocks, live, b);
    BuddyAddr(base, b.o, b.q);
    ParentAddr(base, b.o, b.q);
    hide AddrOf, BuddyOf, PagesOn, NoPairsBut, Tiled, AllLists, Without, Flip, JoinLists;
  }

  /** The pair's bit, at the index computed from the address, is clear exactly when the buddy is free. */
  lemma PairBit(n: nat, base: nat, tops: nat, free: seq<seq<nat>>, bits: Bits, blocks: set<Block>, live: set<Block>, b: Block)
    requires ShapeOf(n, base, tops, free, bits, blocks, live) && b in blocks && b.o + 1 < n
    ensures |bits| == n && AddrOf(base, b.o, b.q) >= base && IndexOf(base, b.o + 1, AddrOf(base, b.o, b.q)) < |bits[b.o + 1]|
    ensures !bits[b.o + 1][IndexOf(base, b.o + 1, AddrOf(base, b.o, b.q))] <==> Sibling(b) in blocks
  {
    hide Tiled, AllLists, IndexOf, AddrOf, Pow2;
    PairIndex(base, b.o, b.q);
    ClearBit(n, tops, blocks, live, bits, b);
  }

  lemma JoinEnd(n: nat, base: nat, tops: nat, free: seq<seq<nat>>, bits: Bits, blocks: set<Block>, live: set<Block>, b: Block)
    requires ShapeOf(n, base, tops, free, bits, blocks, live) && NoPairsBut(n, blocks, b) && b in blocks
    requires b.o + 1 < n ==> Sibling(b) !in blocks
    ensures NoPairs(n, blocks)
  {
    JoinDone(n, tops, blocks, live, bits, b);
  }

  // --------------------------------------------------------------- creation

  lemma {:induction false} UpMonotone(a: nat, b: nat, k: nat)
    requires a <= b
    ensures Up(a, k) <= Up(b, k)
    decreases k
  {
    if k > 0 { UpMonotone(a / 2, b / 2, k - 1); }
  }

  /** The first tops blocks of the largest order. */
  ghost function Tops(n: nat, tops: nat): (r: set<Block>)
    requires n > 0
    ensures forall b :: b in r <==> b.o == n - 1 && b.q < tops
  {
    if tops == 0 then {} else Tops(n, tops - 1) + {Block(n - 1, tops - 1)}
  }

  lemma TopsPartition(n: nat, tops: nat)
    requires n > 0
    ensures Partition(n, tops, Tops(n, tops))
  {
    forall x: nat | InRegion(n, tops, Block(0, x)) ensures Covered(Tops(n, tops), Block(0, x)) {
      var b := Block(n - 1, Up(x, n - 1));
      assert b in Tops(n, tops) && Within(Block(0, x), b);
    }
  }

  /** Bitmaps sized for all the pages at the start are large enough for the blocks that remain. */
  lemma MapsFit(n: nat, npages: nat, bits: Bits)
    requires n > 0 && |bits| == n && forall k: nat :: 0 < k < n ==> |bits[k]| >= Up(npages, k)
    ensures BitsFit(n, Up(npages, n - 1), bits)
  {
    forall b | InRegion(n, Up(npages, n - 1), b) && 0 < b.o ensures b.q < |bits[b.o]| {
      if b.q >= Up(npages, b.o) {
        UpMonotone(Up(npages, b.o), b.q, n - 1 - b.o);
        UpUp(npages, b.o, n - 1 - b.o);
        assert false;
      }
    }
  }

  /** Empty lists below the largest order, clear bits, nothing allocated. */
  lemma FreshInv(n: nat, npages: nat, bits: Bits)
    requires n > 0 && |bits| == n && forall k: nat :: 0 < k < n ==> |bits[k]| >= Up(npages, k)
    requires forall k: nat, i: nat :: k < n && i < |bits[k]| ==> !bits[k][i]
    ensures BuddyInv(n, Up(npages, n - 1), Tops(n, Up(npages, n - 1)), {}, bits)
  {
    var tops := Up(npages, n - 1);
    TopsPartition(n, tops);
    MapsFit(n, npages, bits);
    assert Tops(n, tops) + {} == Tops(n, tops);
    forall k: nat, i: nat | 0 < k < |bits| && i < |bits[k]| ensures BitOk(Tops(n, tops), bits, k, i) {
    }
  }

  /** The pages left when every remainder below the largest order has been dropped. */
  method RoundDown(n: nat, npages: nat) returns (left: nat)
    requires n > 0
    ensures left == Up(npages, n - 1) * Pow2(n - 1) && npages - Pow2(n - 1) < left <= npages
  {
    left := npages;
    for order := 0 to n - 1
      invariant left == Up(npages, order) * Pow2(order) && npages - Pow2(order) < left <= npages
    {
      UpLast(npages, order + 1);
      Drop(Up(npages, order), order);
      if Up(npages, order) % 2 == 1 { left := left - Pow2(order); }
    }
  }

  lemma Drop(x: nat, o: nat)
    ensures (x / 2) * Pow2(o + 1) == if x % 2 == 1 then x * Pow2(o) - Pow2(o) else x * Pow2(o)
  {
    var p := Pow2(o);
    assert (x / 2) * (2 * p) == (x / 2 * 2) * p;
    Times(x, p);
  }

  lemma EmptyLists(base: nat, free: seq<seq<nat>>)
    requires forall k :: 0 <= k < |free| ==> free[k] == []
    ensures AllLists(base, free, {}) && PagesOn(free, |free|) == 0
  {
    EmptyPages(free, |free|);
  }

  lemma {:induction false} EmptyPages(free: seq<seq<nat>>, k: nat)
    requires k <= |free| && forall k :: 0 <= k < |free| ==> free[k] == []
    ensures PagesOn(free, k) == 0
  {
    if k > 0 { EmptyPages(free, k - 1); }
  }

  lemma EndAddr(base: nat, o: nat, tops: nat, pages: nat)
    requires pages == tops * Pow2(o)
    ensures AddrOf(base, o, 0) == base && base + pages * PAGE_SIZE == AddrOf(base, o, tops)
  {
  }

  /** The first i of the largest blocks are on the last list. */
  ghost predicate Filling(base: nat, n: nat, free: seq<seq<nat>>, blocks: set<Block>, i: nat) {
    n > 0 && |free| == n && AllLists(base, free, blocks) && blocks == Tops(n, i) && PagesOn(free, n) == i * Pow2(n - 1)
  }

  /** One more block on the last list. */
  lemma NextTop(base: nat, n: nat, free: seq<seq<nat>>, blocks: set<Block>, i: nat)
    requires Filling(base, n, free, blocks, i)
    ensures Filling(base, n, free[n - 1 := [AddrOf(base, n - 1, i)] + free[n - 1]], blocks + {Block(n - 1, i)}, i + 1)
  {
    Times(i, Pow2(n - 1));
    PushLists(base, n - 1, free[n - 1], blocks, i);
    var list := [AddrOf(base, n - 1, i)] + free[n - 1];
    SetList(base, free, blocks, n - 1, list, blocks + {Block(n - 1, i)});
    PagesUpdate(free, n - 1, list, 1, n);
    assert blocks + {Block(n - 1, i)} == Tops(n, i + 1);
    hide Lists, AllLists, PagesOn, AddrOf, Pow2, Tops;
  }

  lemma FillStart(base: nat, n: nat, free: seq<seq<nat>>, blocks: set<Block>)
    requires n > 0 && |free| == n && blocks == {} && forall k :: 0 <= k < n ==> free[k] == []
    ensures Filling(base, n, free, blocks, 0)
  {
    EmptyLists(base, free);
  }

  lemma FillSize(base: nat, n: nat, free: seq<seq<nat>>, blocks: set<Block>, i: nat)
    requires Filling(base, n, free, blocks, i)
    ensures n > 0 && |free| == n
  {
  }

  lemma AddrOrder(base: nat, o: nat, i: nat, j: nat)
    requires i <= j
    ensures AddrOf(base, o, i) < AddrOf(base, o, j) <==> i < j
    ensures AddrOf(base, o, i + 1) == AddrOf(base, o, i) + Pow2(o) * PAGE_SIZE
  {
    var u := Pow2(o) * PAGE_SIZE;
    assert u > 0;
    Times(i, u);
    if i < j { MulLess(i, j, u); }
    hide Pow2;
  }

  lemma WithinSelf(b: Block)
    ensures Within(b, b)
  {
  }

  lemma HalfWithin(b: Block, c: Block)
    requires Within(b, c) && b.o > 0
    ensures Within(Right(b), c)
  {
    Children(b);
    WithinTrans(Right(b), b, c);
  }

  class Group {
    const n: nat
    const base: nat
    const npages: nat
    const tops: nat
    var free: seq<seq<nat>>
    var bits: Bits
    ghost var blocks: set<Block>
    ghost var live: set<Block>

    ghost predicate Shape()
      reads this
    {
      ShapeOf(n, base, tops, free, bits, blocks, live)
    }

    /** Every page of the region is on a list or allocated. */
    ghost predicate Balanced()
      reads this
    {
      n > 0 && PagesFree() + Weight(live) == tops * Pow2(n - 1)
    }

    ghost predicate Valid()
      reads this
    {
      Shape() && NoPairs(n, blocks) && Balanced()
    }

    function PagesFree(): nat
      reads this
    {
      PagesOn(free, |free|)
    }

    /**
     * The end of _pagegroup_create: clear bitmaps of the given sizes, the
     * pages that do not fill a largest block dropped, the rest on the last list.
     */
    constructor (n: nat, base: nat, npages: nat, sizes: seq<nat>)
      requires n > 0 && |sizes| == n && forall k: nat :: 0 < k < n ==> sizes[k] >= Up(npages, k)
      ensures Valid() && live == {} && blocks == Tops(n, Up(npages, n - 1))
      ensures this.n == n && this.base == base && this.npages == npages && tops == Up(npages, n - 1)
      ensures PagesFree() == tops * Pow2(n - 1)
    {
      this.n, this.base, this.npages, tops := n, base, npages, Up(npages, n - 1);
      free := seq(n, _ => []);
      bits := seq(n, k requires 0 <= k < n => seq(sizes[k], _ => false));
      blocks, live := {}, {};
      new;
      var left := RoundDown(n, npages);
      FreshInv(n, npages, bits);
      Fill(left);
    }

    /** The top loop of _pagegroup_create. */
    method Fill(pages: nat)
      requires n > 0 && |free| == n && pages == tops * Pow2(n - 1) && blocks == {} && forall k :: 0 <= k < n ==> free[k] == []
      modifies this`free, this`blocks
      ensures Filling(base, n, free, blocks, tops)
    {
      var current, end := base, base + pages * PAGE_SIZE;
      ghost var i := 0;
      hide Filling, AddrOf, Pow2, Tops;
      FillStart(base, n, free, blocks);
      EndAddr(base, n - 1, tops, pages);
      AddrOrder(base, n - 1, 0, tops);
      while current < end
        invariant i <= tops && (current < end <==> i < tops) && current == AddrOf(base, n - 1, i)
        invariant Filling(base, n, free, blocks, i)
        decreases tops - i
      {
        FillSize(base, n, free, blocks, i);
        NextTop(base, n, free, blocks, i);
        AddrOrder(base, n - 1, i, tops);
        AddrOrder(base, n - 1, i + 1, tops);
        free := free[n - 1 := [current] + free[n - 1]];
        blocks := blocks + {Block(n - 1, i)};
        current := current + Pow2(n - 1) * PAGE_SIZE;
        i := i + 1;
      }
    }

    /** bit_flip of the pair to which the block at addr belongs, one order up. */
    method FlipPair(order: nat, addr: nat, ghost b: Block)
      requires |bits| == n && order + 1 < n && b.o == order && b.q / 2 < |bits[order + 1]| && addr == AddrOf(base, order, b.q)
      modifies this`bits
      ensures bits == Marked(n, old(bits), b)
    {
      PairIndex(base, order, b.q);
      var index := IndexOf(base, order + 1, addr);
      bits := bits[order + 1 := bits[order + 1][index := !bits[order + 1][index]]];
    }

    /** __page_split: the head block of a list becomes two cells of the list below. */
    method Split(order: nat, ghost b: Block)
      requires Shape() && 0 < order < n && AtHead(base, free, order, b) && NoPairsBut(n, blocks, b)
      modifies this
      ensures Shape() && live == old(live) && blocks == Cut(old(blocks), b)
      ensures AtHead(base, free, order - 1, Right(b)) && NoPairsBut(n, blocks, Right(b))
      ensures PagesFree() == old(PagesFree())
    {
      hide ShapeOf, Cut, Marked, NoPairsBut, AddrOf, IndexOf, Pow2, PagesOn, SplitLists;
      SplitStep(n, base, tops, free, bits, blocks, live, b);
      HeadIs(n, base, tops, free, bits, blocks, live, b);
      SplitPairs(n, blocks, b);
      TopMark(n, bits, b);
      ghost var free0 := free;
      var target := free[order][0];
      free := free[order := free[order][1..]];
      if order < n - 1 { FlipPair(order, target, b); }
      var buddy := target + Pow2(order - 1) * PAGE_SIZE;
      free := free[order - 1 := [target] + free[order - 1]];
      free := free[order - 1 := [buddy] + free[order - 1]];
      SplitUpdates(free0, order, target, buddy);
      blocks := Cut(blocks, b);
    }

    /** The split loop of _page_split: down from a list that has a block to the order asked for. */
    method SplitDown(from: nat, order: nat) returns (ghost b: Block, ghost c: Block)
      requires Valid() && order <= from < n && free[from] != []
      modifies this
      ensures Shape() && live == old(live) && PagesFree() == old(PagesFree())
      ensures AtHead(base, free, order, b) && NoPairsBut(n, blocks, b)
      ensures c in old(blocks) && c.o == from && Within(b, c)
    {
      var norder := from;
      b := HeadBlock(n, base, tops, free, bits, blocks, live, from);
      c := b;
      WithinSelf(b);
      while norder > order
        invariant order <= norder < n && Shape() && live == old(live) && PagesFree() == old(PagesFree())
        invariant AtHead(base, free, norder, b) && NoPairsBut(n, blocks, b)
        invariant c in old(blocks) && c.o == from && Within(b, c)
      {
        hide Within;
        Split(norder, b);
        HalfWithin(b, c);
        b := Right(b);
        norder := norder - 1;
      }
    }

    /** The end of _page_alloc_order: the head of a list is handed out. */
    method Take(order: nat, ghost b: Block) returns (addr: nat)
      requires Shape() && order < n && AtHead(base, free, order, b) && NoPairsBut(n, blocks, b) && Balanced()
      modifies this
      ensures Valid() && addr == AddrOf(base, order, b.q)
      ensures b !in old(live) && live == old(live) + {b} && PagesFree() == old(PagesFree()) - Pow2(order)
    {
      hide ShapeOf, Marked, NoPairsBut, NoPairs, AddrOf, IndexOf, Pow2, PagesOn, Weight;
      TakeStep(n, base, tops, free, bits, blocks, live, b);
      WeightAdd(live, b);
      HeadIs(n, base, tops, free, bits, blocks, live, b);
      TopMark(n, bits, b);
      addr := free[order][0];
      free := free[order := free[order][1..]];
      if n - 1 > order { FlipPair(order, addr, b); }
      blocks, live := blocks - {b}, live + {b};
    }

    /** Allocation from a list that has a block: split down to the order asked for and hand out the head. */
    method Alloc(from: nat, order: nat) returns (addr: nat, ghost b: Block, ghost c: Block)
      requires Valid() && order <= from < n && free[from] != []
      modifies this
      ensures Valid() && b.o == order && addr == AddrOf(base, order, b.q)
      ensures InRegion(n, tops, b) && Unused(old(live), b) && live == old(live) + {b}
      ensures PagesFree() == old(PagesFree()) - Pow2(order)
      ensures Canonical(n, tops, old(live), c) && c.o == from && Within(b, c)
    {
      ghost var blocks0, bits0 := blocks, bits;
      b, c := SplitDown(from, order);
      FreeIsCanonical(n, tops, blocks0, live, bits0, c);
      HeadIs(n, base, tops, free, bits, blocks, live, b);
      FreeUnused(n, tops, blocks, live, bits, b);
      hide *;
      addr := Take(order, b);
    }

    /** One round of __page_join: the block at addr and its buddy leave their list for the one above. */
    method JoinOnce(order: nat, addr: nat, ghost b: Block) returns (joined: nat)
      requires Shape() && NoPairsBut(n, blocks, b) && b in blocks && Sibling(b) in blocks
      requires b.o == order && order + 1 < n && addr == AddrOf(base, order, b.q)
      modifies this
      ensures Shape() && NoPairsBut(n, blocks, Parent(b)) && Parent(b) in blocks && live == old(live)
      ensures joined == AddrOf(base, order + 1, Parent(b).q) && PagesFree() == old(PagesFree())
    {
      hide ShapeOf, Glue, Marked, NoPairsBut, AddrOf, IndexOf, BuddyOf, Pow2, PagesOn, JoinLists, Without;
      JoinFacts(n, base, tops, free, bits, blocks, live, b);
      var buddy := BuddyOf(base, order, addr);
      joined := if buddy < addr then buddy else addr;
      Relink(order, addr, buddy, joined);
      if n - 1 > order + 1 { FlipPair(order + 1, joined, Parent(b)); }
      blocks := Glue(blocks, Parent(b));
    }

    /** The list operations of a join; both cells are on the list they are removed from. */
    method Relink(order: nat, addr: nat, buddy: nat, joined: nat)
      requires order + 1 < |free| && addr in free[order] && buddy in Without(free[order], addr)
      modifies this`free
      ensures free == JoinLists(old(free), order, addr, buddy, joined)
    {
      free := free[order := Without(free[order], addr)];
      free := free[order := Without(free[order], buddy)];
      free := free[order + 1 := [joined] + free[order + 1]];
    }

    /** __page_join: while the pair's bit is clear the buddy is free as well, and the two are joined. */
    method Join(order: nat, addr: nat, ghost b: Block)
      requires Shape() && NoPairsBut(n, blocks, b) && b in blocks && b.o == order < n && addr == AddrOf(base, order, b.q)
      requires Balanced()
      modifies this
      ensures Valid() && live == old(live) && PagesFree() == old(PagesFree())
    {
      hide ShapeOf, NoPairsBut, NoPairs, AddrOf, IndexOf, Pow2, PagesOn;
      var o, a := order, addr;
      ghost var c := b;
      while n - 1 > o
        invariant Shape() && NoPairsBut(n, blocks, c) && c in blocks && c.o == o < n && a == AddrOf(base, o, c.q)
        invariant live == old(live) && PagesFree() == old(PagesFree())
      {
        PairBit(n, base, tops, free, bits, blocks, live, c);
        if bits[o + 1][IndexOf(base, o + 1, a)] { break; }
        a := JoinOnce(o, a, c);
        c := Parent(c);
        o := o + 1;
      }
      JoinEnd(n, base, tops, free, bits, blocks, live, c);
    }

    /** _page_free_order inside its group. */
    method Release(order: nat, addr: nat, ghost b: Block)
      requires Valid() && b in live && b.o == order && addr == AddrOf(base, order, b.q)
      modifies this
      ensures Valid() && live == old(live) - {b} && PagesFree() == old(PagesFree()) + Pow2(order)
    {
      GiveStep(n, base, tops, free, bits, blocks, live, b);
      WeightRemove(live, b);
      assert order == n - 1 ==> Marked(n, bits, b) == bits;
      free := free[order := [addr] + free[order]];
      if n - 1 > order { FlipPair(order, addr, b); }
      blocks, live := blocks + {b}, live - {b};
      if n - 1 > order { Join(order, addr, b); } else { JoinDone(n, tops, blocks, live, bits, b); }
    }
  }
}
