/**
 * The invariant of the buddy allocator and what it determines: free and
 * allocated blocks tile the group, no two buddies are both free, and one bit
 * for each pair tells whether exactly one of them is
 * (kernel/mm/page.c:163-340).
 */
module Buddy {
  import opened BuddyBlocks

  /** pg_map: for each order from 1 up, one bit for each pair of blocks of the order below. */
  type Bits = seq<seq<bool>>

  ghost predicate BitOk(free: set<Block>, bits: Bits, k: nat, i: nat)
    requires 0 < k < |bits| && i < |bits[k]|
  {
    bits[k][i] == ((Block(k - 1, 2 * i) in free) != (Block(k - 1, 2 * i + 1) in free))
  }

  ghost predicate BitsOk(free: set<Block>, bits: Bits) {
    forall k: nat, i: nat :: 0 < k < |bits| && i < |bits[k]| ==> BitOk(free, bits, k, i)
  }

  /** The bitmaps are large enough for every block of the region. */
  ghost predicate BitsFit(n: nat, tops: nat, bits: Bits) {
    |bits| == n && forall b :: InRegion(n, tops, b) && 0 < b.o ==> b.q < |bits[b.o]|
  }

  /** No two buddies are both free, except perhaps but and its sibling. */
  ghost predicate NoPairsBut(n: nat, free: set<Block>, but: Block) {
    forall b :: b in free && b.o < n - 1 && b != but && b != Sibling(but) ==> Sibling(b) !in free
  }

  ghost predicate NoPairs(n: nat, free: set<Block>) {
    forall b :: b in free && b.o < n - 1 ==> Sibling(b) !in free
  }

  ghost predicate Tiled(n: nat, tops: nat, free: set<Block>, live: set<Block>, bits: Bits) {
    && free !! live
    && Partition(n, tops, free + live)
    && BitsFit(n, tops, bits) && BitsOk(free, bits)
  }

  ghost predicate BuddyInv(n: nat, tops: nat, free: set<Block>, live: set<Block>, bits: Bits) {
    Tiled(n, tops, free, live, bits) && NoPairs(n, free)
  }

  // --------------------------------------------------------- canonical form

  /** b touches no allocated block. */
  ghost predicate Unused(live: set<Block>, b: Block) {
    forall c :: c in live ==> !Overlap(b, c)
  }

  lemma UnusedHalves(live: set<Block>, b: Block)
    requires b.o > 0
    ensures Unused(live, b) <==> Unused(live, Left(b)) && Unused(live, Right(b))
  {
    forall c | c in live ensures Overlap(b, c) <==> Overlap(Left(b), c) || Overlap(Right(b), c) {
      HalfOverlap(c, b);
    }
  }

  /** A page that is not allocated is in a free block. */
  lemma UnusedPage(n: nat, tops: nat, free: set<Block>, live: set<Block>, bits: Bits, b: Block) returns (c: Block)
    requires Tiled(n, tops, free, live, bits) && InRegion(n, tops, b) && Unused(live, b) && b.o == 0
    ensures c in free && Within(b, c)
  {
    assert b == Block(0, b.q);
    assert Covered(free + live, b);
    c :| c in free + live && Within(b, c);
    if c in live { assert Overlap(b, c); }
  }

  /** An aligned run of pages of which none is allocated lies inside one free block. */
  lemma {:induction false} UnusedIsFree(n: nat, tops: nat, free: set<Block>, live: set<Block>, bits: Bits, b: Block) returns (c: Block)
    requires BuddyInv(n, tops, free, live, bits) && InRegion(n, tops, b) && Unused(live, b)
    ensures c in free && Within(b, c)
    decreases b.o
  {
    if b.o == 0 {
      c := UnusedPage(n, tops, free, live, bits, b);
    } else {
      Children(b);
      UnusedHalves(live, b);
      RegionUp(n, tops, Left(b), b);
      RegionUp(n, tops, Right(b), b);
      c := UnusedIsFree(n, tops, free, live, bits, Left(b));
      var d := UnusedIsFree(n, tops, free, live, bits, Right(b));
      if c == Left(b) {
        if d == Right(b) { assert false; }
        WithinParent(Right(b), d);
        c := d;
      } else {
        WithinParent(Left(b), c);
      }
    }
  }

  /** The free blocks that a set of allocated blocks determines: the maximal unused ones. */
  ghost predicate Canonical(n: nat, tops: nat, live: set<Block>, b: Block) {
    InRegion(n, tops, b) && Unused(live, b) && (b.o < n - 1 ==> !Unused(live, Parent(b)))
  }

  lemma FreeUnused(n: nat, tops: nat, free: set<Block>, live: set<Block>, bits: Bits, b: Block)
    requires Tiled(n, tops, free, live, bits) && b in free
    ensures InRegion(n, tops, b) && Unused(live, b)
  {
    forall c | c in live ensures !Overlap(b, c) {
      assert b in free + live && c in free + live;
    }
  }

  /**
   * Canonical form: a block is free exactly when it is a maximal aligned run
   * of pages none of which is allocated.  The allocated blocks determine the
   * free ones, whatever the order of the calls that led there.
   */
  lemma FreeIsCanonical(n: nat, tops: nat, free: set<Block>, live: set<Block>, bits: Bits, b: Block)
    requires BuddyInv(n, tops, free, live, bits)
    ensures b in free <==> Canonical(n, tops, live, b)
  {
    if b in free {
      FreeUnused(n, tops, free, live, bits, b);
      if b.o < n - 1 && Unused(live, Parent(b)) {
        InParent(b);
        RegionUp(n, tops, b, Parent(b));
        var c := UnusedIsFree(n, tops, free, live, bits, Parent(b));
        WithinTrans(b, Parent(b), c);
        assert b in free + live && c in free + live && Overlap(b, c);
        assert false;
      }
    } else if Canonical(n, tops, live, b) {
      var c := UnusedIsFree(n, tops, free, live, bits, b);
      WithinParent(b, c);
      FreeUnused(n, tops, free, live, bits, c);
      UnusedInside(live, Parent(b), c);
      assert false;
    }
  }

  lemma UnusedInside(live: set<Block>, a: Block, b: Block)
    requires Within(a, b) && Unused(live, b)
    ensures Unused(live, a)
  {
    forall c | c in live ensures !Overlap(a, c) {
      if Within(c, a) { WithinTrans(c, a, b); }
      if Within(a, c) { Nested(a, b, c); }
    }
  }

  /** Two states with the same allocated blocks have the same free blocks. */
  lemma SameLiveSameFree(n: nat, tops: nat, free: set<Block>, live: set<Block>, bits: Bits, free': set<Block>, bits': Bits)
    requires BuddyInv(n, tops, free, live, bits) && BuddyInv(n, tops, free', live, bits')
    ensures free == free'
  {
    forall b ensures b in free <==> b in free' {
      FreeIsCanonical(n, tops, free, live, bits, b);
      FreeIsCanonical(n, tops, free', live, bits', b);
    }
  }

  /** With nothing allocated the free blocks are those of the largest order. */
  lemma AllFree(n: nat, tops: nat, free: set<Block>, bits: Bits, b: Block)
    requires n > 0 && BuddyInv(n, tops, free, {}, bits)
    ensures b in free <==> b.o == n - 1 && b.q < tops
  {
    FreeIsCanonical(n, tops, free, {}, bits, b);
  }

  /** Some block of order at least o is free exactly when some aligned run of 2^o pages is unused. */
  lemma CanAllocate(n: nat, tops: nat, free: set<Block>, live: set<Block>, bits: Bits, o: nat)
    requires BuddyInv(n, tops, free, live, bits) && o < n
    ensures (exists b :: b in free && b.o >= o) <==> (exists b: Block :: b.o == o && InRegion(n, tops, b) && Unused(live, b))
  {
    if b: Block :| b.o == o && InRegion(n, tops, b) && Unused(live, b) {
      var c := UnusedIsFree(n, tops, free, live, bits, b);
    }
    if b :| b in free && b.o >= o {
      FreeUnused(n, tops, free, live, bits, b);
      var a := FirstInside(b, o);
      RegionUp(n, tops, a, b);
      UnusedInside(live, a, b);
    }
  }

  lemma {:induction false} FirstInside(b: Block, o: nat) returns (a: Block)
    requires o <= b.o
    ensures a.o == o && Within(a, b)
    decreases b.o
  {
    if o == b.o {
      a := b;
    } else {
      a := FirstInside(Left(b), o);
      Children(b);
      WithinTrans(a, Left(b), b);
    }
  }

  // ------------------------------------------------------------------ steps

  function Flip(bits: Bits, k: nat, i: nat): Bits
    requires k < |bits| && i < |bits[k]|
  {
    bits[k := bits[k][i := !bits[k][i]]]
  }

  /** Changing whether b is free and flipping its pair's bit keeps the bits right. */
  lemma FlipBits(n: nat, free: set<Block>, free': set<Block>, bits: Bits, b: Block)
    requires |bits| == n && b.o + 1 < n && b.q / 2 < |bits[b.o + 1]| && BitsOk(free, bits)
    requires b in free <==> b !in free'
    requires forall c :: c != b ==> (c in free <==> c in free')
    ensures BitsOk(free', Flip(bits, b.o + 1, b.q / 2))
  {
    var r := Flip(bits, b.o + 1, b.q / 2);
    forall k: nat, i: nat | 0 < k < |r| && i < |r[k]| ensures BitOk(free', r, k, i) {
      assert BitOk(free, bits, k, i);
    }
  }

  /** Blocks of the largest order have no bit. */
  lemma TopBits(n: nat, free: set<Block>, free': set<Block>, bits: Bits, b: Block)
    requires |bits| == n && b.o + 1 >= n && BitsOk(free, bits)
    requires forall c :: c != b ==> (c in free <==> c in free')
    ensures BitsOk(free', bits)
  {
    forall k: nat, i: nat | 0 < k < |bits| && i < |bits[k]| ensures BitOk(free', bits, k, i) {
      assert BitOk(free, bits, k, i);
    }
  }

  /** Freeing or taking both halves of a pair leaves its bit alone. */
  lemma PairBits(n: nat, free: set<Block>, free': set<Block>, bits: Bits, b: Block)
    requires |bits| == n && b.o > 0 && BitsOk(free, bits)
    requires Left(b) in free <==> Right(b) in free
    requires Left(b) in free' <==> Right(b) in free'
    requires forall c :: c != Left(b) && c != Right(b) ==> (c in free <==> c in free')
    ensures BitsOk(free', bits)
  {
    forall k: nat, i: nat | 0 < k < |bits| && i < |bits[k]| ensures BitOk(free', bits, k, i) {
      assert BitOk(free, bits, k, i);
      if k == b.o && i == b.q {
        assert Left(b) == Block(k - 1, 2 * i) && Right(b) == Block(k - 1, 2 * i + 1);
      } else {
        assert Block(k - 1, 2 * i) != Left(b) && Block(k - 1, 2 * i) != Right(b);
        assert Block(k - 1, 2 * i + 1) != Left(b) && Block(k - 1, 2 * i + 1) != Right(b);
      }
    }
  }

  /** The bits after b changed sides. */
  function Marked(n: nat, bits: Bits, b: Block): Bits
    requires |bits| == n && (b.o + 1 < n ==> b.q / 2 < |bits[b.o + 1]|)
  {
    if b.o + 1 < n then Flip(bits, b.o + 1, b.q / 2) else bits
  }

  lemma ParentBit(n: nat, tops: nat, bits: Bits, b: Block)
    requires BitsFit(n, tops, bits) && InRegion(n, tops, b)
    ensures b.o + 1 < n ==> b.q / 2 < |bits[b.o + 1]|
  {
    if b.o + 1 < n {
      InParent(b);
      RegionUp(n, tops, b, Parent(b));
    }
  }

  lemma FlipFits(n: nat, tops: nat, bits: Bits, b: Block)
    requires BitsFit(n, tops, bits) && InRegion(n, tops, b)
    ensures b.o + 1 < n ==> b.q / 2 < |bits[b.o + 1]|
    ensures BitsFit(n, tops, Marked(n, bits, b))
  {
    ParentBit(n, tops, bits, b);
  }

  lemma MarkBits(n: nat, tops: nat, free: set<Block>, free': set<Block>, bits: Bits, b: Block)
    requires BitsFit(n, tops, bits) && InRegion(n, tops, b) && BitsOk(free, bits)
    requires b in free <==> b !in free'
    requires forall c :: c != b ==> (c in free <==> c in free')
    ensures b.o + 1 < n ==> b.q / 2 < |bits[b.o + 1]|
    ensures BitsFit(n, tops, Marked(n, bits, b)) && BitsOk(free', Marked(n, bits, b))
  {
    FlipFits(n, tops, bits, b);
    if b.o + 1 < n { FlipBits(n, free, free', bits, b); } else { TopBits(n, free, free', bits, b); }
  }

  /** Allocation: a free block becomes an allocated one, and with it goes the only pair of free buddies. */
  lemma TakeInv(n: nat, tops: nat, free: set<Block>, live: set<Block>, bits: Bits, b: Block)
    requires Tiled(n, tops, free, live, bits) && NoPairsBut(n, free, b) && b in free
    ensures |bits| == n && (b.o + 1 < n ==> b.q / 2 < |bits[b.o + 1]|)
    ensures BuddyInv(n, tops, free - {b}, live + {b}, Marked(n, bits, b))
  {
    assert b in free + live;
    MarkBits(n, tops, free, free - {b}, bits, b);
    assert free - {b} + (live + {b}) == free + live;
    InParent(b);
    hide Partition, BitsOk, BitsFit;
  }

  /** Release: an allocated block becomes free, perhaps beside a free buddy. */
  lemma GiveInv(n: nat, tops: nat, free: set<Block>, live: set<Block>, bits: Bits, b: Block)
    requires BuddyInv(n, tops, free, live, bits) && b in live
    ensures |bits| == n && (b.o + 1 < n ==> b.q / 2 < |bits[b.o + 1]|) && b.o < n && b !in free
    ensures Tiled(n, tops, free + {b}, live - {b}, Marked(n, bits, b)) && NoPairsBut(n, free + {b}, b)
  {
    assert b in free + live;
    MarkBits(n, tops, free, free + {b}, bits, b);
    assert free + {b} + (live - {b}) == free + live;
    forall c | c in free + {b} && c.o < n - 1 && c != b && c != Sibling(b) ensures Sibling(c) !in free + {b} {
      InParent(c);
      InParent(b);
    }
    hide Partition, BitsOk, BitsFit;
  }

  /** After a split only the new halves can be a pair of free buddies. */
  lemma SplitPairs(n: nat, free: set<Block>, b: Block)
    requires NoPairsBut(n, free, b) && b in free && b.o > 0
    ensures NoPairsBut(n, Cut(free, b), Right(b))
  {
    Children(b);
    InParent(b);
    var r := Cut(free, b);
    forall c | c in r && c.o < n - 1 && c != Right(b) && c != Left(b) ensures Sibling(c) !in r {
      InParent(c);
      assert Sibling(c) != Left(b) && Sibling(c) != Right(b);
    }
  }

  /** Splitting a free block: its own pair's bit flips, the new pair's stays clear. */
  lemma SplitInv(n: nat, tops: nat, free: set<Block>, live: set<Block>, bits: Bits, b: Block)
    requires Tiled(n, tops, free, live, bits) && b in free && b.o > 0
    ensures |bits| == n && (b.o + 1 < n ==> b.q / 2 < |bits[b.o + 1]|)
    ensures b.q < |bits[b.o]| && !bits[b.o][b.q] && Left(b) !in free && Right(b) !in free
    ensures Tiled(n, tops, Cut(free, b), live, Marked(n, bits, b))
  {
    assert b in free + live;
    HalvesNotFree(n, tops, free + live, b);
    assert BitOk(free, bits, b.o, b.q);
    CutPartition(n, tops, free + live, b);
    assert Cut(free, b) + live == Cut(free + live, b);
    MarkBits(n, tops, free, free - {b}, bits, b);
    Children(b);
    hide Partition, BitsOk, BitsFit;
    PairBits(n, free - {b}, Cut(free, b), Marked(n, bits, b), b);
  }

  lemma HalvesNotFree(n: nat, tops: nat, all: set<Block>, b: Block)
    requires Partition(n, tops, all) && b in all && b.o > 0
    ensures Left(b) !in all && Right(b) !in all
  {
    Children(b);
    if Left(b) in all { assert Overlap(Left(b), b); }
    if Right(b) in all { assert Overlap(Right(b), b); }
  }

  /** A clear bit beside a free block means that its buddy is free too. */
  lemma ClearBit(n: nat, tops: nat, free: set<Block>, live: set<Block>, bits: Bits, b: Block)
    requires Tiled(n, tops, free, live, bits) && b in free && b.o + 1 < n
    ensures |bits| == n && b.q / 2 < |bits[b.o + 1]|
    ensures !bits[b.o + 1][b.q / 2] <==> Sibling(b) in free
  {
    assert b in free + live;
    ParentBit(n, tops, bits, b);
    assert BitOk(free, bits, b.o + 1, b.q / 2);
  }

  /** Joining two free buddies: the new pair's bit flips, the old pair's stays clear. */
  lemma JoinInv(n: nat, tops: nat, free: set<Block>, live: set<Block>, bits: Bits, b: Block)
    requires Tiled(n, tops, free, live, bits) && NoPairsBut(n, free, b)
    requires b in free && Sibling(b) in free && b.o + 1 < n
    ensures var p := Parent(b);
      && |bits| == n && (p.o + 1 < n ==> p.q / 2 < |bits[p.o + 1]|)
      && p !in free && p !in live
      && Tiled(n, tops, Glue(free, p), live, Marked(n, bits, p)) && NoPairsBut(n, Glue(free, p), p)
  {
    var p := Parent(b);
    InParent(b);
    GluePartition(n, tops, free + live, p);
    assert Glue(free, p) + live == Glue(free + live, p);
    assert p in Glue(free + live, p);
    Children(p);
    var free0 := free - {Left(p), Right(p)};
    PairBits(n, free, free0, bits, p);
    MarkBits(n, tops, free0, Glue(free, p), bits, p);
    JoinPairs(n, free, b);
    hide Partition, BitsOk, BitsFit, NoPairsBut;
  }

  lemma JoinPairs(n: nat, free: set<Block>, b: Block)
    requires NoPairsBut(n, free, b)
    ensures NoPairsBut(n, Glue(free, Parent(b)), Parent(b))
  {
    var p := Parent(b);
    InParent(b);
    InParent(p);
    var r := Glue(free, p);
    forall c | c in r && c.o < n - 1 && c != p && c != Sibling(p) ensures Sibling(c) !in r {
      InParent(c);
      assert c != Left(p) && c != Right(p);
    }
  }

  /** When the join loop stops no two buddies are both free. */
  lemma JoinDone(n: nat, tops: nat, free: set<Block>, live: set<Block>, bits: Bits, b: Block)
    requires Tiled(n, tops, free, live, bits) && NoPairsBut(n, free, b) && b in free
    requires b.o + 1 < n ==> Sibling(b) !in free
    ensures BuddyInv(n, tops, free, live, bits)
  {
    InParent(b);
  }
}
