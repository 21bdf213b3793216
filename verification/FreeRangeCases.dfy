/**
 * Three searches for a free range that do not return what they should, each
 * between the user bounds 0x400 and 0xc0000 (kernel/proc/vm/vmmap.c:244-294).
 */
module FreeRangeCases {
  import opened Basics
  import opened Vmmap
  import opened ObjectTable
  import opened AddressSpace

  const LOW: Vpn := 0x400
  const HIGH: Vpn := 0xc0000
  const ONE: seq<Area> := [Area(0x400, 0x500, 0, Prot(true, true), true, 0)]

  method Search(table: Table, areas: seq<Area>, n: nat) returns (r: Found)
    requires 0 < n < WORD && Sorted(areas, LOW, HIGH)
    ensures areas == [] ==> r == NoRange
    ensures areas != [] && areas[|areas| - 1].end + n < WORD ==>
      (r == Panic <==> NoFit(areas, LOW, HIGH, n) && exists k :: 0 <= k < |areas| && areas[k].start < n)
    ensures areas != [] && areas[|areas| - 1].end + n >= WORD ==> r.Start? && r.v >= 0 && !Fits(areas, LOW, HIGH, n, r.v)
  {
    var sp := new Space(LOW, HIGH, table);
    sp.areas := areas;
    r := sp.FindRange(n);
  }

  /** In an empty map every range is free, and none is found. */
  method Unfound(table: Table) returns (r: Found)
    ensures r == NoRange && Highest([], LOW, HIGH, 1, 0xbffff)
  {
    r := Search(table, [], 1);
  }

  /** The whole of the user's addresses, asked for by do_mmap with no address and length 0xc0000000. */
  method Panics(table: Table) returns (r: Found)
    ensures r == Panic && NoFit(ONE, LOW, HIGH, 0xc0000)
  {
    r := Search(table, ONE, 0xc0000);
    assert ONE[0].start < 0xc0000;
  }

  /** The end of the last area plus the count is 0x100 more than a word holds. */
  method Wraps(table: Table) returns (r: Found)
    ensures r.Start? && r.v >= 0 && !Fits(ONE, LOW, HIGH, 0xffff_fc00, r.v)
  {
    r := Search(table, ONE, 0xffff_fc00);
  }
}
