/**
 * Block addresses and free lists of block addresses in the page allocator,
 * and the address arithmetic of splitting and joining
 * (kernel/mm/page.c:138-158, 173-183, 291-296).
 */
module FreeLists {
  import opened Basics
  import opened BuddyBlocks

  // ------------------------------------------------------------- addresses

  /** The address of block q of order o. */
  function AddrOf(base: nat, o: nat, q: nat): nat { base + q * (Pow2(o) * PAGE_SIZE) }

  /** _pagegroup_calculate_index; Up shifts right. */
  function IndexOf(base: nat, o: nat, addr: nat): nat
    requires addr >= base
  {
    Up(addr - base, o) / PAGE_SIZE
  }

  /** The other block of a pair, as __page_join computes its address. */
  function BuddyOf(base: nat, o: nat, addr: nat): int
    requires addr >= base
  {
    if Up((addr - base) / PAGE_SIZE, o) % 2 == 1 then addr - Pow2(o) * PAGE_SIZE else addr + Pow2(o) * PAGE_SIZE
  }

  /** Shifting undoes multiplication by a power of two. */
  lemma {:induction false} ShiftMul(q: nat, o: nat)
    ensures Up(q * Pow2(o), o) == q
  {
    if o > 0 {
      assert q * Pow2(o) == 2 * (q * Pow2(o - 1));
      ShiftMul(q, o - 1);
    }
  }

  lemma IndexOfAddr(base: nat, o: nat, q: nat)
    ensures IndexOf(base, o, AddrOf(base, o, q)) == q
  {
    assert q * (Pow2(o) * PAGE_SIZE) == (q * PAGE_SIZE) * Pow2(o);
    ShiftMul(q * PAGE_SIZE, o);
  }

  function EndOf(base: nat, o: nat, q: nat): nat { AddrOf(base, o, q) + Pow2(o) * PAGE_SIZE }

  /** The addresses of a block lie among those of the block k orders up around it. */
  lemma {:induction false} UpAround(base: nat, o: nat, q: nat, k: nat)
    ensures AddrOf(base, o + k, Up(q, k)) <= AddrOf(base, o, q) && EndOf(base, o, q) <= EndOf(base, o + k, Up(q, k))
    decreases k
  {
    if k > 0 {
      PairAround(base, Pow2(o) * PAGE_SIZE, q);
      assert Pow2(o + 1) * PAGE_SIZE == 2 * (Pow2(o) * PAGE_SIZE);
      UpAround(base, o + 1, q / 2, k - 1);
    }
  }

  lemma PairAround(base: nat, u: nat, q: nat)
    ensures base + (q / 2) * (2 * u) <= base + q * u && base + q * u + u <= base + (q / 2) * (2 * u) + 2 * u
  {
    assert q == 2 * (q / 2) + q % 2;
    assert q * u == (2 * (q / 2)) * u + (q % 2) * u;
  }

  lemma Behind(base: nat, o: nat, q: nat, r: nat)
    requires q < r
    ensures EndOf(base, o, q) <= AddrOf(base, o, r)
  {
    hide Pow2;
    MulLess(q, r, Pow2(o) * PAGE_SIZE);
  }

  /** Blocks overlap exactly when they share an address. */
  lemma OverlapIsSharing(base: nat, a: Block, b: Block)
    ensures !Overlap(a, b) <==> EndOf(base, a.o, a.q) <= AddrOf(base, b.o, b.q) || EndOf(base, b.o, b.q) <= AddrOf(base, a.o, a.q)
  {
    if a.o <= b.o { SmallerSharing(base, a, b); } else { SmallerSharing(base, b, a); }
  }

  lemma SmallerSharing(base: nat, a: Block, b: Block)
    requires a.o <= b.o
    ensures !Overlap(a, b) <==> EndOf(base, a.o, a.q) <= AddrOf(base, b.o, b.q) || EndOf(base, b.o, b.q) <= AddrOf(base, a.o, a.q)
  {
    hide AddrOf, Pow2;
    var c := Up(a.q, b.o - a.o);
    UpAround(base, a.o, a.q, b.o - a.o);
    SomeBytes(base, a.o, a.q);
    if c < b.q {
      Behind(base, b.o, c, b.q);
    } else if b.q < c {
      Behind(base, b.o, b.q, c);
    }
  }

  lemma SomeBytes(base: nat, o: nat, q: nat)
    ensures AddrOf(base, o, q) < EndOf(base, o, q)
  {
  }

  /** The index one order up: the pair's. */
  lemma PairIndex(base: nat, o: nat, q: nat)
    ensures AddrOf(base, o, q) >= base && IndexOf(base, o + 1, AddrOf(base, o, q)) == q / 2
  {
    assert q * (Pow2(o) * PAGE_SIZE) == (q * (PAGE_SIZE / 2)) * Pow2(o + 1);
    ShiftMul(q * (PAGE_SIZE / 2), o + 1);
  }

  lemma SameAddr(base: nat, o: nat, q: nat, q': nat)
    ensures AddrOf(base, o, q) == AddrOf(base, o, q') <==> q == q'
  {
    IndexOfAddr(base, o, q);
    IndexOfAddr(base, o, q');
  }

  lemma BuddyAddr(base: nat, o: nat, q: nat)
    ensures BuddyOf(base, o, AddrOf(base, o, q)) == AddrOf(base, o, Sibling(Block(o, q)).q)
  {
    var x, u := q * Pow2(o), Pow2(o) * PAGE_SIZE;
    ShiftMul(q, o);
    Times(q, u);
    assert q * u == x * PAGE_SIZE;
    hide Pow2, Up;
    assert x * PAGE_SIZE / PAGE_SIZE == x;
  }

  lemma ParentAddr(base: nat, o: nat, q: nat)
    ensures var s := AddrOf(base, o, Sibling(Block(o, q)).q);
      (if s < AddrOf(base, o, q) then s else AddrOf(base, o, q)) == AddrOf(base, o + 1, q / 2)
  {
    var u := Pow2(o) * PAGE_SIZE;
    assert u > 0;
    assert Pow2(o + 1) * PAGE_SIZE == 2 * u;
    assert (q / 2) * (2 * u) == (q / 2 * 2) * u;
    Times(q, u);
  }

  lemma HalfAddrs(base: nat, o: nat, q: nat)
    requires o > 0
    ensures AddrOf(base, o, q) == AddrOf(base, o - 1, 2 * q)
    ensures AddrOf(base, o, q) + Pow2(o - 1) * PAGE_SIZE == AddrOf(base, o - 1, 2 * q + 1)
  {
    var u := Pow2(o - 1) * PAGE_SIZE;
    assert Pow2(o) * PAGE_SIZE == 2 * u;
    assert q * (2 * u) == (2 * q) * u;
    assert (2 * q + 1) * u == 2 * q * u + u;
  }

  // ------------------------------------------------------------- free lists

  /** a is the address of a block of order o in blocks. */
  ghost predicate Names(base: nat, o: nat, blocks: set<Block>, a: nat) {
    a >= base && a == AddrOf(base, o, IndexOf(base, o, a)) && Block(o, IndexOf(base, o, a)) in blocks
  }

  /** The list holds the addresses of exactly the blocks of order o, each once. */
  ghost predicate Lists(base: nat, o: nat, list: seq<nat>, blocks: set<Block>) {
    && NoDup(list)
    && (forall a :: a in list ==> Names(base, o, blocks, a))
    && (forall q: nat :: Block(o, q) in blocks ==> AddrOf(base, o, q) in list)
  }

  lemma PushLists(base: nat, o: nat, list: seq<nat>, blocks: set<Block>, q: nat)
    requires Lists(base, o, list, blocks) && Block(o, q) !in blocks
    ensures Lists(base, o, [AddrOf(base, o, q)] + list, blocks + {Block(o, q)})
  {
    IndexOfAddr(base, o, q);
    assert AddrOf(base, o, q) >= base;
    var r := [AddrOf(base, o, q)] + list;
    var blocks' := blocks + {Block(o, q)};
    hide AddrOf, IndexOf;
    assert AddrOf(base, o, q) in list ==> Names(base, o, blocks, AddrOf(base, o, q));
    forall a | a in r ensures Names(base, o, blocks', a) {
      if a in list { assert Names(base, o, blocks, a); } else { assert a == AddrOf(base, o, q); }
    }
    forall p: nat | Block(o, p) in blocks' ensures AddrOf(base, o, p) in r {
      if p != q { assert AddrOf(base, o, p) in list; }
    }
  }

  lemma RemoveLists(base: nat, o: nat, list: seq<nat>, blocks: set<Block>, q: nat)
    requires Lists(base, o, list, blocks) && Block(o, q) in blocks
    ensures AddrOf(base, o, q) in list && |Without(list, AddrOf(base, o, q))| == |list| - 1
    ensures Lists(base, o, Without(list, AddrOf(base, o, q)), blocks - {Block(o, q)})
  {
    WithoutIs(list, AddrOf(base, o, q));
    IndexOfAddr(base, o, q);
    var r := Without(list, AddrOf(base, o, q));
    var blocks' := blocks - {Block(o, q)};
    hide AddrOf, IndexOf;
    forall a | a in r ensures Names(base, o, blocks', a) {
      assert Names(base, o, blocks, a);
    }
    forall p: nat | Block(o, p) in blocks' ensures AddrOf(base, o, p) in r {
      SameAddr(base, o, p, q);
    }
  }

  /** The head of a list is a block, and removing it leaves the rest. */
  lemma HeadLists(base: nat, o: nat, list: seq<nat>, blocks: set<Block>)
    requires Lists(base, o, list, blocks) && list != []
    ensures Names(base, o, blocks, list[0])
    ensures Lists(base, o, list[1..], blocks - {Block(o, IndexOf(base, o, list[0]))})
  {
    assert list[0] in list && Names(base, o, blocks, list[0]);
    RemoveLists(base, o, list, blocks, IndexOf(base, o, list[0]));
  }

  lemma OtherLists(base: nat, o: nat, list: seq<nat>, blocks: set<Block>, blocks': set<Block>)
    requires Lists(base, o, list, blocks) && forall q: nat :: Block(o, q) in blocks <==> Block(o, q) in blocks'
    ensures Lists(base, o, list, blocks')
  {
    hide AddrOf, IndexOf;
    forall a | a in list ensures Names(base, o, blocks', a) {
      assert Names(base, o, blocks, a);
    }
  }

  ghost predicate AllLists(base: nat, free: seq<seq<nat>>, blocks: set<Block>) {
    && (forall o: nat :: o < |free| ==> Lists(base, o, free[o], blocks))
    && (forall b :: b in blocks ==> b.o < |free|)
  }

  /** Replacing one list and the blocks of its order. */
  lemma SetList(base: nat, free: seq<seq<nat>>, blocks: set<Block>, o: nat, list: seq<nat>, blocks': set<Block>)
    requires AllLists(base, free, blocks) && o < |free| && Lists(base, o, list, blocks')
    requires forall b: Block :: b.o != o ==> (b in blocks <==> b in blocks')
    ensures AllLists(base, free[o := list], blocks')
  {
    hide Lists;
    var r := free[o := list];
    forall k: nat | k < |r| ensures Lists(base, k, r[k], blocks') {
      if k != o { OtherLists(base, k, free[k], blocks, blocks'); }
    }
  }

  // ---------------------------------------------------------- pages on lists

  /** The number of pages on the first k free lists. */
  function PagesOn(free: seq<seq<nat>>, k: nat): nat
    requires k <= |free|
  {
    if k == 0 then 0 else PagesOn(free, k - 1) + |free[k - 1]| * Pow2(k - 1)
  }

  /** One list grows by d cells. */
  lemma {:induction false} PagesUpdate(free: seq<seq<nat>>, o: nat, list: seq<nat>, d: int, k: nat)
    requires o < |free| && k <= |free| && |list| == |free[o]| + d
    ensures PagesOn(free[o := list], k) == PagesOn(free, k) + (if o < k then d * Pow2(o) else 0)
  {
    if k > 0 {
      PagesUpdate(free, o, list, d, k - 1);
      if o == k - 1 {
        assert |list| * Pow2(o) == |free[o]| * Pow2(o) + d * Pow2(o);
      }
    }
  }

  // --------------------------------------------------------- pages allocated

  /** The number of pages of a set of disjoint blocks. */
  ghost function Weight(s: set<Block>): nat {
    if s == {} then 0 else
      var b :| b in s;
      Pow2(b.o) + Weight(s - {b})
  }

  lemma {:induction false} WeightRemove(s: set<Block>, b: Block)
    requires b in s
    ensures Weight(s) == Weight(s - {b}) + Pow2(b.o)
    decreases |s|
  {
    var c :| c in s && Weight(s) == Pow2(c.o) + Weight(s - {c});
    if c != b {
      WeightRemove(s - {c}, b);
      WeightRemove(s - {b}, c);
      assert s - {c} - {b} == s - {b} - {c};
    }
  }

  lemma WeightAdd(s: set<Block>, b: Block)
    requires b !in s
    ensures Weight(s + {b}) == Weight(s) + Pow2(b.o)
  {
    WeightRemove(s + {b}, b);
    assert s + {b} - {b} == s;
  }
}
