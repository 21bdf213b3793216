/**
 * The two-level page table of one process (kernel/mm/pagetable.c), in units
 * of virtual page numbers.
 */
module PageTable {
  import opened Basics

  /** Entries in a page table, and tables in a directory: PAGE_SIZE / 4. */
  const ENTRIES: nat := 1024

  /** A page-table entry: nothing, or a frame with its write permission. */
  datatype Entry = Empty | Entry(frame: nat, write: bool)

  /** A directory entry: no table, or a table with the permission of its entries. */
  datatype Pde = Absent | Present(write: bool)

  /** Page v lies in the directory slot that pages lo and hi share, with lo not first in it. */
  predicate Overcleared(v: Vpn, lo: Vpn, hi: Vpn) {
    lo / ENTRIES == hi / ENTRIES && lo % ENTRIES != 0 && v / ENTRIES == lo / ENTRIES
  }

  /** The pages an unmapped range loses. */
  predicate Cleared(v: Vpn, lo: Vpn, hi: Vpn) {
    lo <= v < hi || Overcleared(v, lo, hi)
  }

  class PageDir {
    const low: Vpn
    const high: Vpn
    var flags: array<Pde>
    var tables: array<seq<Entry>>

    ghost predicate Shape()
      reads this
    {
      flags.Length == ENTRIES && tables.Length == ENTRIES && low < high < ENTRIES * ENTRIES
    }

    /** Every present slot has a whole table whose writable entries the slot permits. */
    ghost predicate Valid()
      reads this, flags, tables
    {
      && Shape()
      && (forall i :: 0 <= i < ENTRIES && flags[i].Present? ==>
            && |tables[i]| == ENTRIES
            && (forall j :: 0 <= j < ENTRIES && tables[i][j].Entry? && tables[i][j].write ==> flags[i].write))
    }

    /** What the hardware finds for page v. */
    ghost function Lookup(v: Vpn): Entry
      requires Valid() && v < ENTRIES * ENTRIES
      reads this, flags, tables
    {
      if flags[v / ENTRIES].Present? then tables[v / ENTRIES][v % ENTRIES] else Empty
    }

    /** The present entries, as the map by which an address space keeps them. */
    ghost function Entries(): map<Vpn, Entry>
      requires Valid()
      reads this, flags, tables
    {
      map v: Vpn | v < ENTRIES * ENTRIES && Lookup(v).Entry? :: Lookup(v)
    }

    /** An x86 access may write when both the directory entry and the table entry permit it. */
    ghost predicate MayWrite(v: Vpn)
      requires Valid() && v < ENTRIES * ENTRIES
      reads this, flags, tables
    {
      Lookup(v).Entry? && Lookup(v).write && flags[v / ENTRIES].Present? && flags[v / ENTRIES].write
    }

    /** The directory never withholds a permission that a table entry grants. */
    lemma PermissionIsEntry(v: Vpn)
      requires Valid() && v < ENTRIES * ENTRIES
      ensures MayWrite(v) <==> Lookup(v).Entry? && Lookup(v).write
    {
      SlotBound(v);
    }

    static lemma SlotBound(v: Vpn)
      requires v < ENTRIES * ENTRIES
      ensures v / ENTRIES < ENTRIES && v % ENTRIES < ENTRIES && v == v / ENTRIES * ENTRIES + v % ENTRIES
    {
    }

    constructor (low: Vpn, high: Vpn)
      requires low < high < ENTRIES * ENTRIES
      ensures Valid() && fresh(flags) && fresh(tables) && this.low == low && this.high == high
      ensures forall v: Vpn :: v < ENTRIES * ENTRIES ==> Lookup(v) == Empty
    {
      this.low := low;
      this.high := high;
      flags := new Pde[ENTRIES](_ => Absent);
      tables := new seq<Entry>[ENTRIES](_ => []);
    }

    /** pt_map: memory says whether a new table can be allocated. */
    method Map(v: Vpn, frame: nat, write: bool, memory: bool) returns (ok: bool)
      requires Valid() && low <= v < high
      modifies flags, tables
      ensures Valid()
      ensures ok <==> memory || old(flags[v / ENTRIES].Present?)
      ensures ok ==> Lookup(v) == Entry(frame, write)
      ensures forall u: Vpn :: u < ENTRIES * ENTRIES && (u != v || !ok) ==> Lookup(u) == old(Lookup(u))
      ensures Entries() == if ok then old(Entries())[v := Entry(frame, write)] else old(Entries())
    {
      var index := v / ENTRIES;
      if flags[index].Absent? {
        if !memory { return false; }
        tables[index] := seq(ENTRIES, _ => Empty);
        flags[index] := Present(write);
      } else {
        flags[index] := Present(flags[index].write || write);
      }
      tables[index] := tables[index][v % ENTRIES := Entry(frame, write)];
      ok := true;
    }

    /** pt_unmap. */
    method Unmap(v: Vpn)
      requires Valid() && low <= v < high
      modifies tables
      ensures Valid()
      ensures forall u: Vpn :: u < ENTRIES * ENTRIES ==> Lookup(u) == if u == v then Empty else old(Lookup(u))
    {
      var index := v / ENTRIES;
      if flags[index].Present? {
        tables[index] := tables[index][v % ENTRIES := Empty];
      }
    }

    /** The memset calls of pt_unmap_range: clear entries [from, to) of one table. */
    method ClearEntries(index: nat, from: nat, to: nat)
      requires Valid() && index < ENTRIES && flags[index].Present? && from <= to <= ENTRIES
      modifies tables
      ensures Valid()
      ensures forall i :: 0 <= i < ENTRIES && i != index ==> tables[i] == old(tables[i])
      ensures |tables[index]| == ENTRIES
      ensures forall j :: 0 <= j < ENTRIES ==>
        tables[index][j] == if from <= j < to then Empty else old(tables[index])[j]
    {
      var k := from;
      while k < to
        invariant from <= k <= to && Valid()
        invariant forall i :: 0 <= i < ENTRIES && i != index ==> tables[i] == old(tables[i])
        invariant forall j :: 0 <= j < ENTRIES ==>
          tables[index][j] == if from <= j < k then Empty else old(tables[index])[j]
      {
        tables[index] := tables[index][k := Empty];
        k := k + 1;
      }
    }

    /** pt_unmap_range up to its two memset calls. */
    method ClearEnds(vlow: Vpn, vhigh: Vpn)
      requires Valid() && low <= vlow < vhigh <= high
      modifies tables
      ensures Valid()
      ensures forall u: Vpn :: u < ENTRIES * ENTRIES ==>
        Lookup(u) == if FirstEnd(u, vlow) || LastEnd(u, vhigh) then Empty else old(Lookup(u))
    {
      if flags[vlow / ENTRIES].Present? && vlow % ENTRIES != 0 {
        ClearEntries(vlow / ENTRIES, vlow % ENTRIES, ENTRIES);
      }
      assert forall u: Vpn :: u < ENTRIES * ENTRIES ==>
        Lookup(u) == if FirstEnd(u, vlow) then Empty else old(Lookup(u));
      if flags[vhigh / ENTRIES].Present? && vhigh % ENTRIES != 0 {
        ClearEntries(vhigh / ENTRIES, 0, vhigh % ENTRIES);
      }
    }

    /** pt_unmap_range: exactly the pages of Cleared are lost. */
    method UnmapRange(vlow: Vpn, vhigh: Vpn)
      requires Valid() && low <= vlow < vhigh <= high
      modifies flags, tables
      ensures Valid()
      ensures forall u: Vpn :: u < ENTRIES * ENTRIES ==>
        Lookup(u) == if Cleared(u, vlow, vhigh) then Empty else old(Lookup(u))
      ensures Entries() == Flush(old(Entries()), vlow, vhigh)
    {
      ClearEnds(vlow, vhigh);
      ghost var first := (vlow + (ENTRIES - vlow % ENTRIES) % ENTRIES) / ENTRIES;
      var i := (vlow + (ENTRIES - vlow % ENTRIES) % ENTRIES) / ENTRIES;
      var last := (vhigh - vhigh % ENTRIES) / ENTRIES;
      label ends:
      while i < last
        invariant first <= i && (i <= last || i == first) && Valid()
        invariant forall k :: 0 <= k < ENTRIES && !(first <= k < i) ==> flags[k] == old@ends(flags[k]) && tables[k] == old@ends(tables[k])
        invariant forall k :: first <= k < i ==> flags[k].Absent?
      {
        if flags[i].Present? {
          tables[i] := [];
          flags[i] := Absent;
        }
        i := i + 1;
      }
      forall u: Vpn | u < ENTRIES * ENTRIES
        ensures Lookup(u) == if Cleared(u, vlow, vhigh) then Empty else old(Lookup(u))
      {
        ClearedParts(u, vlow, vhigh);
      }
      hide Cleared;
    }
  }

  /** The part of lo's table from lo on, when lo is not its first page. */
  predicate FirstEnd(u: Vpn, lo: Vpn) {
    lo % ENTRIES != 0 && u / ENTRIES == lo / ENTRIES && u >= lo
  }

  /** The part of hi's table before hi. */
  predicate LastEnd(u: Vpn, hi: Vpn) {
    u / ENTRIES == hi / ENTRIES && u < hi
  }

  /** The whole tables between the two ends. */
  predicate Between(u: Vpn, lo: Vpn, hi: Vpn) {
    (lo + (ENTRIES - lo % ENTRIES) % ENTRIES) / ENTRIES <= u / ENTRIES < (hi - hi % ENTRIES) / ENTRIES
  }

  lemma ClearedParts(u: Vpn, lo: Vpn, hi: Vpn)
    requires lo < hi
    ensures Cleared(u, lo, hi) <==> FirstEnd(u, lo) || LastEnd(u, hi) || Between(u, lo, hi)
  {
  }

  /**
   * The same on a page table given as a map: no entry of the range is left,
   * and more is lost only inside a table that lo and hi share, when lo is not
   * its first page.
   */
  function Flush<E>(pt: map<Vpn, E>, lo: Vpn, hi: Vpn): (r: map<Vpn, E>)
    requires lo < hi
    ensures forall v :: v in r ==> v in pt && r[v] == pt[v] && !(lo <= v < hi)
    ensures forall v :: v in pt && v !in r ==>
      lo <= v < hi || (v / ENTRIES == lo / ENTRIES == hi / ENTRIES && lo % ENTRIES != 0)
  {
    map v | v in pt && !Cleared(v, lo, hi) :: pt[v]
  }

  /** Unmapping page 1 alone also loses the entry of page 0. */
  lemma Overclears<E>(e: E)
    ensures Flush(map[0 := e], 1, 2) == map[]
  {
    assert Cleared(0, 1, 2);
  }
}
