/**
 * The memory calls of a process, each carried out on the process's area list,
 * page table and the shared object table, and each ending in the state that
 * the step of the same name gives on values (kernel/proc/vm/vmmap.c, mmap.c,
 * pagefault.c, kernel/proc/fork.c).
 */
module ProcessVm {
  import opened Basics
  import opened MemObjects
  import opened Vmmap
  import opened ObjectTable
  import opened VirtualMemory
  import opened VmMapping
  import opened VmRuns
  import opened AddressSpace
  import PageTable

  lemma SpaceHeld(y: Sys, p: Pid)
    requires SysInv(y) && p < |y.procs|
    ensures Held(y.store, y.procs[p].areas, RootsOf(y)) && Sorted(y.procs[p].areas, y.low, y.high)
  {
    var areas := y.procs[p].areas;
    forall o: ObjId ensures ObjsOf(areas)[o] <= RootsOf(y)[o] {
      SetProcRoots(y, y.store, p, y.procs[p], o);
      CountIs(areas, o);
    }
  }

  // ---------------------------------------------------------------- munmap

  /** The page-count loop of do_mmap and do_munmap. */
  method PagesOf(len: nat) returns (pages: nat)
    ensures pages == (len + PAGE_SIZE - 1) / PAGE_SIZE
  {
    var left: nat := len;
    pages := 0;
    while left > PAGE_SIZE
      invariant left + pages * PAGE_SIZE == len && (len > 0 ==> left > 0)
    {
      left := left - PAGE_SIZE;
      pages := pages + 1;
    }
    if left > 0 { pages := pages + 1; }
    RoundUp(len, left, pages);
  }

  lemma RoundUp(len: nat, left: nat, pages: nat)
    requires if len == 0 then pages == 0 else 0 < left <= PAGE_SIZE && left + (pages - 1) * PAGE_SIZE == len
    ensures pages == (len + PAGE_SIZE - 1) / PAGE_SIZE
  {
  }

  /** The parts of an unmapping step. */
  lemma UnmapParts(y: Sys, p: Pid, lo: Vpn, hi: Vpn)
    requires p < |y.procs| && y.low <= lo < hi <= y.high
    ensures Enabled(y, DoUnmap(p, lo, hi))
    ensures var y1 := Apply(y, DoUnmap(p, lo, hi));
      && y1 == Unmap(y, p, lo, hi) && p < |y1.procs| && y1.low == y.low && y1.high == y.high
      && y1.store == RemoveRefs(y.store, y.procs[p].areas, lo, hi)
      && y1.procs[p] == Proc(Remove(y.procs[p].areas, lo, hi), PageTable.Flush(y.procs[p].pt, lo, hi))
  {
    hide Remove, RemoveRefs, PageTable.Flush;
  }

  /** vmmap_remove with the page-table flush of do_munmap. */
  method UnmapPages(sp: Space, lo: Vpn, n: nat, ghost y: Sys, ghost p: Pid)
    requires sp.Represents(y, p) && SysInv(y) && sp.low <= lo && 0 < n && lo + n <= sp.high
    modifies sp, sp.table
    ensures Enabled(y, DoUnmap(p, lo, lo + n)) && sp.Represents(Apply(y, DoUnmap(p, lo, lo + n)), p)
  {
    hide SysInv, Held, Sorted, RemoveRefs, Vmmap.Remove, PageTable.Flush, Unmap, Apply, Enabled, RootsOf;
    SpaceHeld(y, p);
    UnmapParts(y, p, lo, lo + n);
    sp.Remove(lo, n, RootsOf(y));
    sp.pt := PageTable.Flush(sp.pt, lo, lo + n);
  }

  datatype Outcome = Invalid | Panicked | Done

  /**
   * do_munmap on a byte range.  It fails cleanly for exactly the arguments
   * its checks name (the end taken modulo 2 to the 32), panics on a range
   * that then leaves the user pages, and otherwise unmaps every page touched.
   */
  method Munmap(sp: Space, addr: nat, len: nat, ghost y: Sys, ghost p: Pid) returns (r: Outcome)
    requires addr < WORD && len < WORD && sp.Represents(y, p) && SysInv(y)
    requires sp.high * PAGE_SIZE < WORD
    modifies sp, sp.table
    ensures r.Invalid? <==>
      len == 0 || len == WORD - 1 || addr == 0 || (addr + len) % WORD > sp.high * PAGE_SIZE || addr % PAGE_SIZE != 0
    ensures r.Panicked? <==> !r.Invalid? && (addr / PAGE_SIZE < sp.low || addr + len > sp.high * PAGE_SIZE)
    ensures r.Done? ==> exists hi: Vpn ::
      && addr / PAGE_SIZE < hi && (hi - 1) * PAGE_SIZE < addr + len <= hi * PAGE_SIZE
      && Enabled(y, DoUnmap(p, addr / PAGE_SIZE, hi))
      && sp.Represents(Apply(y, DoUnmap(p, addr / PAGE_SIZE, hi)), p)
    ensures !r.Done? ==> sp.Represents(y, p)
  {
    if len == 0 || len == WORD - 1 || addr == 0 || (addr + len) % WORD > sp.high * PAGE_SIZE || addr % PAGE_SIZE != 0 {
      return Invalid;
    }
    var pages := PagesOf(len);
    var lo := addr / PAGE_SIZE;
    PageEnds(addr, len, pages, sp.high);
    if !(sp.low <= lo && lo + pages <= sp.high) { return Panicked; }
    hide Apply, Enabled, SysInv;
    UnmapPages(sp, lo, pages, y, p);
    ghost var hi := lo + pages;
    assert lo < hi && (hi - 1) * PAGE_SIZE < addr + len <= hi * PAGE_SIZE;
    r := Done;
  }

  lemma PageEnds(addr: nat, len: nat, pages: nat, high: nat)
    requires addr % PAGE_SIZE == 0 && len > 0 && pages == (len + PAGE_SIZE - 1) / PAGE_SIZE
    ensures pages > 0
    ensures (addr / PAGE_SIZE + pages - 1) * PAGE_SIZE < addr + len <= (addr / PAGE_SIZE + pages) * PAGE_SIZE
    ensures addr / PAGE_SIZE + pages <= high <==> addr + len <= high * PAGE_SIZE
  {
    assert addr == addr / PAGE_SIZE * PAGE_SIZE;
  }

  // ------------------------------------------------------------------ mmap

  datatype MapResult = Mapped(start: Vpn) | NoMemory | MapPanic

  /** vmmap_map's choice of object. */
  method BackWith(t: Table, file: Option<ObjId>, private: bool) returns (o: ObjId)
    requires file.Some? ==> file.value in t.objs
    modifies t
    ensures (t.State(), o) == Back(old(t.State()), file, private)
  {
    if file.Some? {
      o := file.value;
      t.Ref(o);
    } else {
      o := t.AnonCreate();
    }
    if private { o := t.ShadowCreate(o); }
  }

  /** A range with nothing mapped: unmapping it first changes nothing but the page table. */
  lemma UnmapNothing(y: Sys, p: Pid, lo: Vpn, hi: Vpn)
    requires p < |y.procs| && lo < hi && RangeEmpty(y.procs[p].areas, lo, hi)
    ensures Unmap(y, p, lo, hi).store == y.store && Unmap(y, p, lo, hi).procs[p].areas == y.procs[p].areas
  {
    NothingToRemove(y.store, y.procs[p].areas, lo, hi);
  }

  lemma UnmapTwice<E>(pt: map<Vpn, E>, lo: Vpn, hi: Vpn)
    requires lo < hi
    ensures PageTable.Flush(PageTable.Flush(pt, lo, hi), lo, hi) == PageTable.Flush(pt, lo, hi)
  {
  }

  ghost predicate StartsBelow(areas: seq<Area>, n: nat) {
    exists k :: 0 <= k < |areas| && areas[k].start < n
  }

  /** The highest free range. */
  method PlaceAnywhere(sp: Space, n: nat) returns (r: MapResult)
    requires 0 < n && sp.high + n < WORD && Sorted(sp.areas, sp.low, sp.high)
    ensures r.Mapped? ==> Highest(sp.areas, sp.low, sp.high, n, r.start)
    ensures !r.Mapped? ==> (sp.areas == [] || NoFit(sp.areas, sp.low, sp.high, n))
    ensures r.MapPanic? <==> !r.Mapped? && StartsBelow(sp.areas, n)
  {
    if sp.areas != [] { Bounds(sp.areas, sp.low, sp.high, |sp.areas| - 1); }
    hide Sorted, NoFit, Highest, Fits;
    var found := sp.FindRange(n);
    r := if found.NoRange? then NoMemory else if found.Panic? then MapPanic else Mapped(found.v);
  }

  lemma HighestEmpty(areas: seq<Area>, low: Vpn, high: Vpn, n: nat, v: Vpn)
    requires Highest(areas, low, high, n, v)
    ensures RangeEmpty(areas, v, v + n) && low <= v && v + n <= high
  {
    assert Fits(areas, low, high, n, v);
  }

  /** The areas and objects of process p are those of y with [lo, hi) unmapped. */
  ghost predicate Vacated(sp: Space, y: Sys, p: Pid, lo: Vpn, hi: Vpn)
    reads sp, sp.table
  {
    && p < |y.procs| && lo < hi && y.low == sp.low && y.high == sp.high && sp.pt == y.procs[p].pt
    && sp.areas == Unmap(y, p, lo, hi).procs[p].areas
    && sp.table.State() == Unmap(y, p, lo, hi).store
  }

  /** A fixed range is unmapped first if anything is there. */
  method Vacate(sp: Space, lo: Vpn, n: nat, ghost y: Sys, ghost p: Pid)
    requires sp.Represents(y, p) && SysInv(y) && 0 < n && sp.low <= lo && lo + n <= sp.high
    modifies sp`areas, sp.table
    ensures Vacated(sp, y, p, lo, lo + n)
  {
    hide SysInv, Held, Sorted, RemoveRefs, Vmmap.Remove, RangeEmpty, Unmap, RootsOf;
    SpaceHeld(y, p);
    UnmapParts(y, p, lo, lo + n);
    var empty := sp.IsRangeEmpty(lo, n);
    if empty { UnmapNothing(y, p, lo, lo + n); } else { sp.Remove(lo, n, RootsOf(y)); }
  }

  /** The parts of a mapping step. */
  lemma MapParts(y: Sys, p: Pid, lo: Vpn, hi: Vpn, prot: Prot, private: bool, file: Option<ObjId>, off: PageNum)
    requires SysInv(y) && p < |y.procs| && y.low <= lo < hi <= y.high && FileOk(y.store, file)
    ensures Enabled(y, DoMap(p, lo, hi, prot, private, file, off))
    ensures var y1 := Unmap(y, p, lo, hi);
      && p < |y1.procs| && (file.Some? ==> file.value in y1.store.objs)
      && var (s, o) := Back(y1.store, file, private);
      && var y2 := Apply(y, DoMap(p, lo, hi, prot, private, file, off));
      && p < |y2.procs| && y2.low == y.low && y2.high == y.high && y2.store == s
      && y2.procs[p] == Proc(Insert(y1.procs[p].areas, Area(lo, hi, off, prot, private, o)),
                             PageTable.Flush(y.procs[p].pt, lo, hi))
  {
    UnmapReady(y, p, lo, hi, file);
    UnmapTwice(y.procs[p].pt, lo, hi);
    hide SysInv, RemoveRefs, Remove, PageTable.Flush, Back, Insert;
  }

  /** The object, the new area and the page-table flush. */
  method Install(sp: Space, lo: Vpn, n: nat, prot: Prot, private: bool, file: Option<ObjId>, off: PageNum,
                 ghost y: Sys, ghost p: Pid)
    requires SysInv(y) && FileOk(y.store, file) && Vacated(sp, y, p, lo, lo + n) && sp.low <= lo && lo + n <= sp.high
    modifies sp, sp.table
    ensures Enabled(y, DoMap(p, lo, lo + n, prot, private, file, off))
    ensures sp.Represents(Apply(y, DoMap(p, lo, lo + n, prot, private, file, off)), p)
  {
    hide SysInv, PageTable.Flush, Back, Vmmap.Insert, Unmap, Apply, Enabled;
    MapParts(y, p, lo, lo + n, prot, private, file, off);
    var o := BackWith(sp.table, file, private);
    sp.Insert(Area(lo, lo + n, off, prot, private, o));
    sp.pt := PageTable.Flush(sp.pt, lo, lo + n);
  }

  /**
   * vmmap_map and the page-table flush of do_mmap.  Page lo is used if given;
   * for lo == 0 the highest free range is, and without one the call fails.
   */
  method Map(sp: Space, lo: Vpn, n: nat, prot: Prot, private: bool, file: Option<ObjId>, off: PageNum,
             ghost y: Sys, ghost p: Pid) returns (r: MapResult)
    requires sp.Represents(y, p) && SysInv(y) && FileOk(y.store, file) && sp.high + n < WORD
    requires 0 < n && (lo == 0 || (sp.low <= lo && lo + n <= sp.high))
    modifies sp, sp.table
    ensures r.Mapped? ==>
      && (if lo == 0 then Highest(old(sp.areas), sp.low, sp.high, n, r.start) else r.start == lo)
      && Enabled(y, DoMap(p, r.start, r.start + n, prot, private, file, off))
      && sp.Represents(Apply(y, DoMap(p, r.start, r.start + n, prot, private, file, off)), p)
    ensures !r.Mapped? ==>
      && sp.Represents(y, p) && lo == 0
      && (sp.areas == [] || NoFit(sp.areas, sp.low, sp.high, n))
      && (r.MapPanic? <==> StartsBelow(sp.areas, n))
  {
    hide SysInv, Held, Sorted, Highest, NoFit, StartsBelow, Unmap, Apply, Enabled, RangeEmpty, FileOk;
    if lo == 0 {
      SpaceHeld(y, p);
      r := PlaceAnywhere(sp, n);
      if !r.Mapped? { return; }
      HighestEmpty(sp.areas, sp.low, sp.high, n, r.start);
      UnmapNothing(y, p, r.start, r.start + n);
    } else {
      Vacate(sp, lo, n, y, p);
      r := Mapped(lo);
    }
    assert Vacated(sp, y, p, r.start, r.start + n);
    hide Vacated;
    Install(sp, r.start, n, prot, private, file, off, y, p);
  }
}
