/**
 * The circular doubly-linked list with an anchor cell, on the heap
 * (warmup1/my402list.c, and the same list in Threading/my402list.c).
 */
module CircularList {
  import opened Basics

  /** What the cells point to; the sort looks at the time only. */
  datatype Record = Record(time: int, id: nat)

  class Cell {
    const obj: Record
    var next: Cell
    var prev: Cell

    /** A cell linked to itself. */
    constructor (obj: Record)
      ensures this.obj == obj && next == this && prev == this
    {
      this.obj := obj;
      next, prev := this, this;
    }
  }

  /** The position after i on a ring of n cells. */
  function Succ(i: nat, n: nat): nat
    requires i < n
  {
    if i + 1 == n then 0 else i + 1
  }

  /** Each cell and the one after it point to each other. */
  ghost predicate Linked(ring: seq<Cell>)
    reads ring
  {
    forall i: nat :: i < |ring| ==> Joined(ring, i)
  }

  ghost predicate Joined(ring: seq<Cell>, i: nat)
    requires i < |ring|
    reads ring
  {
    ring[i].next == ring[Succ(i, |ring|)] && ring[Succ(i, |ring|)].prev == ring[i]
  }

  ghost predicate Distinct(ring: seq<Cell>) {
    forall i: nat, j: nat :: i < j < |ring| ==> ring[i] != ring[j]
  }

  /** The objects of the cells in order. */
  ghost function Objs(cells: seq<Cell>): (r: seq<Record>)
    ensures |r| == |cells| && forall i :: 0 <= i < |cells| ==> r[i] == cells[i].obj
  {
    if cells == [] then [] else [cells[0].obj] + Objs(cells[1..])
  }

  /** The objects when a cell is put at position i of the ring. */
  lemma Spliced(r: seq<Cell>, i: nat, x: Cell)
    requires 0 < i <= |r|
    ensures var r' := r[..i] + [x] + r[i..];
      r' != [] && Objs(r'[1..]) == Objs(r[1..])[..i - 1] + [x.obj] + Objs(r[1..])[i - 1..]
  {
  }

  class List {
    const anchor: Cell
    var members: int
    ghost var ring: seq<Cell>

    /** The cells form a ring through the anchor. */
    ghost predicate Shape()
      reads this, ring
    {
      ring != [] && ring[0] == anchor && Distinct(ring) && Linked(ring)
    }

    ghost predicate Valid()
      reads this, ring
    {
      Shape() && members == |ring| - 1
    }

    /** The list's contents. */
    ghost function Contents(): seq<Record>
      reads this
    {
      if ring == [] then [] else Objs(ring[1..])
    }

    /** My402ListInit. */
    constructor ()
      ensures Valid() && Contents() == [] && fresh(anchor)
    {
      anchor := new Cell(Record(0, 0));
      members := 0;
      new;
      ring := [anchor];
    }

    /** The pointer updates of every insertion: x goes between p, at position i of the ring, and the cell n after it. */
    method Splice(x: Cell, p: Cell, n: Cell, ghost i: nat)
      requires Valid() && i < |ring| && p == ring[i] && n == ring[Succ(i, |ring|)] && x !in ring
      modifies this`members, this`ring, x, p, n
      ensures Valid() && ring == old(ring)[..i + 1] + [x] + old(ring)[i + 1..]
    {
      x.next := n;
      x.prev := p;
      p.next := x;
      n.prev := x;
      members := members + 1;
      ghost var r := ring;
      ring := r[..i + 1] + [x] + r[i + 1..];
      forall k: nat | k < |ring| ensures Joined(ring, k) {
        if k < i { assert old(Joined(ring, k)); }
        if k > i + 1 { assert old(Joined(ring, k - 1)); }
      }
    }

    /** The pointer updates of My402ListUnlink: the cell at position i leaves the ring. */
    method Unsplice(x: Cell, ghost i: nat)
      requires Shape() && 0 < i < |ring| && x == ring[i]
      modifies this`ring, x.prev, x.next
      ensures Shape() && ring == old(ring)[..i] + old(ring)[i + 1..]
    {
      ghost var r := ring;
      assert Joined(r, i - 1) && Joined(r, i);
      var previous, following := x.prev, x.next;
      previous.next := following;
      following.prev := previous;
      ring := r[..i] + r[i + 1..];
      forall k: nat | k < |ring| ensures Joined(ring, k) {
        if k < i - 1 { assert old(Joined(ring, k)); }
        if k >= i { assert old(Joined(ring, k + 1)); }
      }
    }

    /** My402ListLength. */
    method Length() returns (n: int)
      requires Valid()
      ensures n == |Contents()|
    {
      n := members;
    }

    /** My402ListEmpty. */
    method Empty() returns (r: bool)
      requires Valid()
      ensures r <==> Contents() == []
    {
      assert Joined(ring, 0);
      r := anchor.next == anchor;
    }

    /** My402ListAppend. */
    method Append(obj: Record)
      requires Valid()
      modifies this`members, this`ring, ring
      ensures Valid() && Contents() == old(Contents()) + [obj]
      ensures fresh(ring[|ring| - 1]) && ring == old(ring) + [ring[|ring| - 1]]
    {
      var temp := new Cell(obj);
      ghost var r := ring;
      assert Joined(r, 0) && Joined(r, |r| - 1);
      if anchor.next == anchor {
        Splice(temp, anchor, anchor, 0);
      } else {
        var last := anchor.prev;
        Splice(temp, last, anchor, |r| - 1);
      }
      assert ring == r + [temp];
      assert ring[1..] == r[1..] + [temp];
    }

    /** My402ListPrepend. */
    method Prepend(obj: Record)
      requires Valid()
      modifies this`members, this`ring, ring
      ensures Valid() && Contents() == [obj] + old(Contents())
      ensures |ring| > 1 && fresh(ring[1]) && ring == [anchor, ring[1]] + old(ring)[1..]
    {
      var temp := new Cell(obj);
      ghost var r := ring;
      assert Joined(r, 0) && Joined(r, |r| - 1);
      if anchor.next == anchor {
        Splice(temp, anchor, anchor, 0);
      } else {
        var first := anchor.next;
        Splice(temp, anchor, first, 0);
      }
      assert ring == [anchor, temp] + r[1..];
      assert ring[1..] == [temp] + r[1..];
    }

    /** My402ListUnlink of the cell at position i. */
    method Unlink(x: Cell, ghost i: nat)
      requires Valid() && 0 < i < |ring| && x == ring[i]
      modifies this`members, this`ring, ring
      ensures Valid() && ring == old(ring)[..i] + old(ring)[i + 1..]
      ensures Contents() == old(Contents())[..i - 1] + old(Contents())[i..]
    {
      assert Joined(ring, i - 1) && Joined(ring, i);
      Unsplice(x, i);
      members := members - 1;
    }

    /** My402ListInsertAfter: after the cell at position i, or at the end when no cell is given. */
    method InsertAfter(obj: Record, x: Option<Cell>, ghost i: nat) returns (temp: Cell)
      requires Valid() && (x.Some? ==> 0 < i < |ring| && x.value == ring[i])
      modifies this`members, this`ring, ring
      ensures Valid() && fresh(temp)
      ensures x.Some? ==>
        && temp.obj == obj && ring == old(ring)[..i + 1] + [temp] + old(ring)[i + 1..]
        && Contents() == old(Contents())[..i] + [obj] + old(Contents())[i..]
      ensures x.None? ==> ring == old(ring) + [temp] && Contents() == old(Contents()) + [obj]
    {
      if x.None? {
        Append(obj);
        var last := Last();
        return last.value;
      }
      temp := new Cell(obj);
      assert Joined(ring, i);
      Spliced(ring, i + 1, temp);
      Splice(temp, x.value, x.value.next, i);
    }

    /** My402ListInsertBefore: before the cell at position i, or at the beginning when no cell is given. */
    method InsertBefore(obj: Record, x: Option<Cell>, ghost i: nat) returns (temp: Cell)
      requires Valid() && (x.Some? ==> 0 < i < |ring| && x.value == ring[i])
      modifies this`members, this`ring, ring
      ensures Valid() && fresh(temp)
      ensures x.Some? ==>
        && temp.obj == obj && ring == old(ring)[..i] + [temp] + old(ring)[i..]
        && Contents() == old(Contents())[..i - 1] + [obj] + old(Contents())[i - 1..]
      ensures x.None? ==> ring == [anchor, temp] + old(ring)[1..] && Contents() == [obj] + old(Contents())
    {
      if x.None? {
        Prepend(obj);
        var first := First();
        return first.value;
      }
      temp := new Cell(obj);
      assert Joined(ring, i - 1);
      Spliced(ring, i, temp);
      Splice(temp, x.value.prev, x.value, i - 1);
    }

    /** My402ListFirst. */
    method First() returns (r: Option<Cell>)
      requires Valid()
      ensures if Contents() == [] then r.None? else r == Some(ring[1])
    {
      if members == 0 { return None; }
      assert Joined(ring, 0);
      r := Some(anchor.next);
    }

    /** My402ListLast. */
    method Last() returns (r: Option<Cell>)
      requires Valid()
      ensures if Contents() == [] then r.None? else r == Some(ring[|ring| - 1])
    {
      if members == 0 { return None; }
      assert Joined(ring, |ring| - 1);
      r := Some(anchor.prev);
    }

    /** My402ListNext of the cell at position i. */
    method Next(x: Cell, ghost i: nat) returns (r: Option<Cell>)
      requires Valid() && 0 < i < |ring| && x == ring[i]
      ensures if i + 1 == |ring| then r.None? else r == Some(ring[i + 1])
    {
      assert Joined(ring, i);
      if x.next == anchor { return None; }
      r := Some(x.next);
    }

    /** My402ListPrev of the cell at position i. */
    method Prev(x: Cell, ghost i: nat) returns (r: Option<Cell>)
      requires Valid() && 0 < i < |ring| && x == ring[i]
      ensures if i == 1 then r.None? else r == Some(ring[i - 1])
    {
      assert Joined(ring, i - 1);
      if x.prev == anchor { return None; }
      r := Some(x.prev);
    }

    /** My402ListFind: the first cell with the object; on an empty list the anchor's own object is looked at. */
    method Find(obj: Record) returns (r: Option<Cell>, ghost at: nat)
      requires Valid()
      ensures |ring| > 1 ==> (r.Some? <==> obj in Contents())
      ensures |ring| > 1 && r.Some? ==> 0 < at < |ring| && r.value == ring[at] && r.value.obj == obj && obj !in Contents()[..at - 1]
      ensures |ring| == 1 ==> r == if anchor.obj == obj then Some(anchor) else None
    {
      assert Joined(ring, 0);
      var temp := anchor.next;
      at := if |ring| == 1 then 0 else 1;
      while temp.next != anchor
        invariant at < |ring| && temp == ring[at] && (|ring| > 1 ==> at > 0)
        invariant |ring| > 1 ==> obj !in Contents()[..at - 1]
        decreases |ring| - at
      {
        assert Joined(ring, at);
        if temp.obj == obj { return Some(temp), at; }
        temp := temp.next;
        at := at + 1;
      }
      assert Joined(ring, at);
      assert at == |ring| - 1;
      if temp.obj == obj { return Some(temp), at; }
      r := None;
    }

    /** My402ListUnlinkAll: the first cell is unlinked until one is left, then the anchor is linked to itself. */
    method UnlinkAll()
      requires Valid()
      modifies this`members, this`ring, ring
      ensures Valid() && Contents() == []
    {
      if members == 0 { return; }
      assert Joined(ring, 0);
      var header := anchor.next;
      assert Joined(ring, 1);
      while header.next != anchor
        invariant Shape() && |ring| > 1 && header == ring[1]
        invariant forall k: nat :: k < |ring| ==> ring[k] in old(ring)
        decreases |ring|
      {
        assert Joined(ring, 0) && Joined(ring, 1);
        var following := header.next;
        ghost var r := ring;
        Unsplice(header, 1);
        assert ring[1] == r[2];
        header := following;
        assert Joined(ring, 1);
      }
      anchor.next, anchor.prev := anchor, anchor;
      members := 0;
      ring := [anchor];
    }
  }
}
