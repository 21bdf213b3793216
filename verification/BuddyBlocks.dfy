/**
 * Blocks of the buddy system: block q of order o is the q-th aligned run of
 * 2^o pages of a group.  Containment is halving, so nothing here multiplies.
 */
module BuddyBlocks {
  datatype Block = Block(o: nat, q: nat)

  /** The index of the block k orders up that contains block q. */
  function Up(q: nat, k: nat): nat {
    if k == 0 then q else Up(q / 2, k - 1)
  }

  ghost predicate Within(a: Block, b: Block) {
    a.o <= b.o && Up(a.q, b.o - a.o) == b.q
  }

  ghost predicate Overlap(a: Block, b: Block) { Within(a, b) || Within(b, a) }

  function Parent(b: Block): Block { Block(b.o + 1, b.q / 2) }

  function Sibling(b: Block): Block { Block(b.o, if b.q % 2 == 0 then b.q + 1 else b.q - 1) }

  function Left(b: Block): Block
    requires b.o > 0
  {
    Block(b.o - 1, 2 * b.q)
  }

  function Right(b: Block): Block
    requires b.o > 0
  {
    Block(b.o - 1, 2 * b.q + 1)
  }

  // ------------------------------------------------------------ containment

  lemma {:induction false} UpLast(q: nat, k: nat)
    requires k > 0
    ensures Up(q, k) == Up(q, k - 1) / 2
    decreases k
  {
    if k > 1 { UpLast(q / 2, k - 1); }
  }

  lemma {:induction false} UpUp(q: nat, j: nat, k: nat)
    ensures Up(Up(q, j), k) == Up(q, j + k)
    decreases j
  {
    if j > 0 { UpUp(q / 2, j - 1, k); }
  }

  lemma WithinTrans(a: Block, b: Block, c: Block)
    requires Within(a, b) && Within(b, c)
    ensures Within(a, c)
  {
    UpUp(a.q, b.o - a.o, c.o - b.o);
  }

  /** Two blocks around one block are one inside the other. */
  lemma Nested(a: Block, b: Block, c: Block)
    requires Within(a, b) && Within(a, c)
    ensures Overlap(b, c)
  {
    if b.o <= c.o { UpUp(a.q, b.o - a.o, c.o - b.o); } else { UpUp(a.q, c.o - a.o, b.o - c.o); }
  }

  lemma WithinParent(a: Block, b: Block)
    requires a != b
    ensures Within(a, b) <==> Within(Parent(a), b)
  {
  }

  lemma InParent(b: Block)
    ensures Within(b, Parent(b)) && Parent(Sibling(b)) == Parent(b) && Sibling(Sibling(b)) == b
    ensures {b, Sibling(b)} == {Left(Parent(b)), Right(Parent(b))}
  {
    assert Up(b.q, 1) == Up(b.q / 2, 0);
  }

  lemma Children(b: Block)
    requires b.o > 0
    ensures Parent(Left(b)) == b && Parent(Right(b)) == b && Left(b) != Right(b)
    ensures Sibling(Left(b)) == Right(b) && Sibling(Right(b)) == Left(b)
    ensures Within(Left(b), b) && Within(Right(b), b)
  {
    InParent(Left(b));
    InParent(Right(b));
  }

  /** What lies strictly inside a block lies in one of its halves. */
  lemma InHalf(a: Block, b: Block)
    requires Within(a, b) && a != b && b.o > 0
    ensures a.o < b.o && (Within(a, Left(b)) || Within(a, Right(b)))
  {
    if a.o == b.o { assert false; }
    UpLast(a.q, b.o - a.o);
  }

  lemma Apart(b: Block)
    requires b.o > 0
    ensures !Overlap(Left(b), Right(b))
  {
  }

  /** What overlaps a half overlaps the whole, and what overlaps the whole overlaps a half. */
  lemma HalfOverlap(a: Block, b: Block)
    requires b.o > 0
    ensures Overlap(a, Left(b)) || Overlap(a, Right(b)) <==> Overlap(a, b)
  {
    Children(b);
    if Overlap(a, b) {
      if Within(a, b) && a != b {
        InHalf(a, b);
      } else {
        if a == b { assert Up(b.q, 0) == b.q; }
        WithinTrans(Left(b), b, a);
      }
    }
    if Within(a, Left(b)) { WithinTrans(a, Left(b), b); }
    if Within(a, Right(b)) { WithinTrans(a, Right(b), b); }
    if Within(Left(b), a) && a != Left(b) { WithinParent(Left(b), a); }
    if Within(Right(b), a) && a != Right(b) { WithinParent(Right(b), a); }
  }

  // ------------------------------------------------------------- partitions

  /** b is a block of a group whose largest blocks are the first tops of order n - 1. */
  ghost predicate InRegion(n: nat, tops: nat, b: Block) {
    b.o < n && Up(b.q, n - 1 - b.o) < tops
  }

  ghost predicate Covered(all: set<Block>, page: Block) {
    exists b :: b in all && Within(page, b)
  }

  /** The blocks are in the region, pairwise disjoint, and every page is in one of them. */
  ghost predicate Partition(n: nat, tops: nat, all: set<Block>) {
    && (forall b :: b in all ==> InRegion(n, tops, b))
    && (forall a, b :: a in all && b in all && a != b ==> !Overlap(a, b))
    && (forall x: nat :: InRegion(n, tops, Block(0, x)) ==> Covered(all, Block(0, x)))
  }

  lemma RegionUp(n: nat, tops: nat, a: Block, b: Block)
    requires Within(a, b) && b.o < n
    ensures InRegion(n, tops, a) <==> InRegion(n, tops, b)
  {
    UpUp(a.q, b.o - a.o, n - 1 - b.o);
  }

  /** Cutting a block in two. */
  function Cut(all: set<Block>, b: Block): set<Block>
    requires b.o > 0
  {
    all - {b} + {Left(b), Right(b)}
  }

  /** Joining two halves. */
  function Glue(all: set<Block>, b: Block): set<Block>
    requires b.o > 0
  {
    all - {Left(b), Right(b)} + {b}
  }

  lemma CutPartition(n: nat, tops: nat, all: set<Block>, b: Block)
    requires Partition(n, tops, all) && b in all && b.o > 0
    ensures Partition(n, tops, Cut(all, b))
  {
    var r := Cut(all, b);
    Children(b);
    Apart(b);
    forall c | c in r ensures InRegion(n, tops, c) {
      if c !in all { RegionUp(n, tops, c, b); }
    }
    forall c, d | c in r && d in r && c != d ensures !Overlap(c, d) {
      if c in all && d !in all { HalfOverlap(c, b); }
      if d in all && c !in all { HalfOverlap(d, b); }
    }
    forall x: nat | InRegion(n, tops, Block(0, x)) ensures Covered(r, Block(0, x)) {
      assert Covered(all, Block(0, x));
      var c :| c in all && Within(Block(0, x), c);
      if c == b { InHalf(Block(0, x), b); } else { assert c in r; }
    }
  }

  lemma GluePartition(n: nat, tops: nat, all: set<Block>, b: Block)
    requires Partition(n, tops, all) && 0 < b.o < n && Left(b) in all && Right(b) in all
    ensures Partition(n, tops, Glue(all, b)) && b !in all
  {
    var r := Glue(all, b);
    Children(b);
    RegionUp(n, tops, Left(b), b);
    if b in all { assert Overlap(Left(b), b); assert false; }
    forall c, d | c in r && d in r && c != d ensures !Overlap(c, d) {
      if d == b { HalfOverlap(c, b); }
      if c == b { HalfOverlap(d, b); }
    }
    forall x: nat | InRegion(n, tops, Block(0, x)) ensures Covered(r, Block(0, x)) {
      assert Covered(all, Block(0, x));
      var c :| c in all && Within(Block(0, x), c);
      if c in {Left(b), Right(b)} { WithinTrans(Block(0, x), c, b); assert b in r; } else { assert c in r; }
    }
  }
}
