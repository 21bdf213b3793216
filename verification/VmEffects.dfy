/**
 * What each step does, told from outside: to the protection and contents of
 * every page of every process, and to every page-table entry
 * (kernel/proc/vm/mmap.c, pagefault.c, kernel/proc/fork.c).
 */
module VmEffects {
  import opened Basics
  import opened MemObjects
  import opened Vmmap
  import opened VirtualMemory
  import opened VmSteps
  import opened VmMapping
  import opened VmProcs
  import opened VmRuns
  import PageTable
  import ShadowCollapse

  // ----------------------------------------------------------- protections

  /** How page v of process p is mapped, wherever its contents come from. */
  datatype Rights = Rights(prot: Prot, private: bool)

  function RightsAt(y: Sys, p: Pid, v: Vpn): Option<Rights> {
    var m := MapAt(y, p, v);
    if m.None? then None else Some(Rights(m.value.prot, m.value.private))
  }

  lemma RemapRights(y: Sys, p: Pid, lo: Vpn, hi: Vpn, prot: Prot, private: bool, file: Option<ObjId>, off: PageNum, q: Pid, u: Vpn)
    requires SysInv(y) && Enabled(y, DoMap(p, lo, hi, prot, private, file, off))
    ensures MapOk(Unmap(y, p, lo, hi), p, lo, hi, file)
    ensures MapAt(Apply(y, DoMap(p, lo, hi, prot, private, file, off)), q, u) ==
      if q == p && lo <= u < hi
      then Some(Mapping(Back(Unmap(y, p, lo, hi).store, file, private).1, u - lo + off, prot, private))
      else MapAt(y, q, u)
  {
    hide SysInv, Unmap, MapInto, At, AllSorted, TopsOk, Inv, Closed, FramesOk, Back, RangeEmpty;
    SortedParts(y);
    UnmapMaps(y, p, lo, hi, q, u);
    UnmapInv(y, p, lo, hi);
    SortedParts(Unmap(y, p, lo, hi));
    UnmapReady(y, p, lo, hi, file);
    MapIntoMaps(Unmap(y, p, lo, hi), p, lo, hi, prot, private, file, off, q, u);
  }

  /** fork gives the child the parent's protections and leaves everybody else theirs. */
  lemma ForkRights(y: Sys, p: Pid, q: Pid, u: Vpn)
    requires SysInv(y) && p < |y.procs|
    ensures RightsAt(Fork(y, p), q, u) == RightsAt(y, if q == |y.procs| then p else q, u)
  {
    hide Inv, TopsOk, AllApart, Coherent, Sorted, ForkLoop, CloneStore, Twins, At;
    if q == p || q == |y.procs| {
      ForkPages(y, p, q, u);
      if MapAt(y, p, u).Some? {
        var f := ForkOf(y, p);
        var areas := y.procs[p].areas;
        ForkIsTwins(y, p);
        var i := TwinsAt(f.parent, areas, y.store.nextObj, f.s.nextObj, y.low, y.high, u);
        var j := TwinsAt(f.child, areas, y.store.nextObj, f.s.nextObj, y.low, y.high, u);
      }
    }
  }

  /** What every step does to the protection of every page. */
  lemma StepRights(y: Sys, act: Action, q: Pid, u: Vpn)
    requires SysInv(y) && Enabled(y, act)
    ensures RightsAt(Apply(y, act), q, u) ==
      match act
      case DoMap(p, lo, hi, prot, private, _, _) => if q == p && lo <= u < hi then Some(Rights(prot, private)) else RightsAt(y, q, u)
      case DoUnmap(p, lo, hi) => if q == p && lo <= u < hi then None else RightsAt(y, q, u)
      case DoFork(p) => RightsAt(y, if q == |y.procs| then p else q, u)
      case DoExit(p) => if q == p then None else RightsAt(y, q, u)
      case _ => RightsAt(y, q, u)
  {
    hide SysInv, At, Unmap, Fork, MapAfter, MemObjects.Lookup, GetForWrite, PutAll, ObjSeq, AllSorted, TopsOk, Inv, Closed, FramesOk;
    SortedParts(y);
    match act
    case DoStore(p, v, d) =>
    case DoFault(p, v, write) =>
    case DoMap(p, lo, hi, prot, private, file, off) => RemapRights(y, p, lo, hi, prot, private, file, off, q, u);
    case DoUnmap(p, lo, hi) => UnmapMaps(y, p, lo, hi, q, u);
    case DoFork(p) => ForkRights(y, p, q, u);
    case DoExit(p) => NothingMapped(u);
    case DoCollapse(p, area) =>
  }

  lemma NothingMapped(u: Vpn)
    ensures At([], u) == None
  {
  }

  // --------------------------------------------------------------- contents

  /** What a new anonymous mapping stands on: an object of no pages. */
  lemma NewBase(s: Store, private: bool)
    ensures var s1 := Back(s, None, private).0;
      s.nextObj in s1.objs && s1.objs[s.nextObj].kind.Anon? && s1.objs[s.nextObj].pages == map[]
  {
  }

  /** The cells of a new mapping, in the system before what was there is unmapped. */
  lemma RemapCells(y: Sys, p: Pid, lo: Vpn, hi: Vpn, prot: Prot, private: bool, file: Option<ObjId>, off: PageNum, q: Pid, u: Vpn)
    requires SysInv(y) && Enabled(y, DoMap(p, lo, hi, prot, private, file, off))
    ensures MapOk(Unmap(y, p, lo, hi), p, lo, hi, file)
    ensures Apply(y, DoMap(p, lo, hi, prot, private, file, off)).store == Back(Unmap(y, p, lo, hi).store, file, private).0
    ensures PageCell(Apply(y, DoMap(p, lo, hi, prot, private, file, off)), q, u) ==
      if q == p && lo <= u < hi then Some(Follow(Base(Unmap(y, p, lo, hi).store, file), u - lo + off)) else PageCell(y, q, u)
  {
    hide SysInv, Unmap, PageCell, Back, Base, RangeEmpty;
    UnmapCells(y, p, lo, hi, q, u);
    UnmapInv(y, p, lo, hi);
    UnmapReady(y, p, lo, hi, file);
    MapIntoCells(Unmap(y, p, lo, hi), p, lo, hi, prot, private, file, off, q, u);
  }

  /** The contents of page pn of a file: the resident page if there is one, else the page on disk if there is one. */
  function FilePage(s: Store, o: ObjId, pn: PageNum): Option<Page>
    requires o in s.objs && s.objs[o].kind.File?
  {
    if pn in s.objs[o].pages then Some(Content(s, s.objs[o].pages[pn]))
    else if pn in s.objs[o].kind.backing then Some(s.objs[o].kind.backing[pn])
    else None
  }

  /** What is seen in a new mapping: zeroes without a file, else the file's pages from the offset on. */
  lemma MapContents(y: Sys, p: Pid, lo: Vpn, hi: Vpn, prot: Prot, private: bool, file: Option<ObjId>, off: PageNum, u: Vpn)
    requires SysInv(y) && Enabled(y, DoMap(p, lo, hi, prot, private, file, off)) && lo <= u < hi
    ensures PageValue(Apply(y, DoMap(p, lo, hi, prot, private, file, off)), p, u) ==
      if file.None? then Some(ZERO_PAGE) else FilePage(y.store, file.value, u - lo + off)
  {
    hide SysInv, Unmap, Back, MapAfter, PageCell, RangeEmpty;
    var act := DoMap(p, lo, hi, prot, private, file, off);
    RemapCells(y, p, lo, hi, prot, private, file, off, p, u);
    if file.None? {
      NewBase(Unmap(y, p, lo, hi).store, private);
    } else {
      StepInv(y, act);
      FollowBottom(Apply(y, act), p, u, file.value, u - lo + off);
      MapBottom(y, p, lo, hi, prot, private, file, off, file.value, u - lo + off);
    }
  }

  /** What every step does to the cell of every page. */
  lemma StepCells(y: Sys, act: Action, q: Pid, u: Vpn)
    requires SysInv(y) && Enabled(y, act)
    ensures PageCell(Apply(y, act), q, u) ==
      match act
      case DoStore(p, v, d) => if q == p && u == v && HasPrivate(y, p, v) then Some(Own(d)) else PageCell(y, q, u)
      case DoFault(p, v, write) =>
        if q == p && u == v && write && HasPrivate(y, p, v) && Serviceable(y, p, v, write)
        then Some(Own(PageValue(y, p, v).value)) else PageCell(y, q, u)
      case DoMap(p, lo, hi, _, _, file, off) =>
        if q == p && lo <= u < hi then Some(Follow(Base(Unmap(y, p, lo, hi).store, file), u - lo + off)) else PageCell(y, q, u)
      case DoUnmap(p, lo, hi) => if q == p && lo <= u < hi then None else PageCell(y, q, u)
      case DoFork(p) => PageCell(y, if q == |y.procs| then p else q, u)
      case DoExit(p) => if q == p then None else PageCell(y, q, u)
      case DoCollapse(_, _) => PageCell(y, q, u)
  {
    hide SysInv, Unmap, Fork, Exit, MapAfter, StoreTo, Fault, CollapseBelow, At, PageCell, PageValue, Base;
    match act
    case DoStore(p, v, d) =>
      WritableFrame(y, p, v);
      if HasPrivate(y, p, v) { PrivateStoreCells(y, p, v, d, q, u); } else { SharedStoreCells(y, p, v, d, q, u); }
    case DoFault(p, v, write) =>
      FaultResumes(y, p, v, write);
      FaultCells(y, p, v, write, q, u);
    case DoMap(p, lo, hi, prot, private, file, off) => RemapCells(y, p, lo, hi, prot, private, file, off, q, u);
    case DoUnmap(p, lo, hi) => UnmapCells(y, p, lo, hi, q, u);
    case DoFork(p) => ForkPages(y, p, q, u);
    case DoExit(p) => ExitCells(y, p, q, u);
    case DoCollapse(p, area) => CollapseCells(y, p, y.procs[p].areas[area], q, u);
  }

  // ---------------------------------------------------------------- entries

  function Entry(y: Sys, p: Pid, v: Vpn): Option<Pte> {
    if p < |y.procs| && v in y.procs[p].pt then Some(y.procs[p].pt[v]) else None
  }

  /** Which entries each step loses and makes: only a fault makes one, and only flushes, fork and exit lose any. */
  lemma StepEntries(y: Sys, act: Action, q: Pid, u: Vpn)
    requires SysInv(y) && Enabled(y, act)
    ensures act.DoFault? && q == act.p && u == act.v && Serviceable(y, act.p, act.v, act.write) ==>
      && Entry(Apply(y, act), q, u).Some? && Entry(Apply(y, act), q, u).value.write == act.write
      && PageValue(y, q, u) == Some(LoadFrom(Apply(y, act), q, u))
    ensures !(act.DoFault? && q == act.p && u == act.v && Serviceable(y, act.p, act.v, act.write)) ==>
      Entry(Apply(y, act), q, u) ==
        match act
        case DoMap(p, lo, hi, _, _, _, _) => if q == p && PageTable.Cleared(u, lo, hi) then None else Entry(y, q, u)
        case DoUnmap(p, lo, hi) => if q == p && PageTable.Cleared(u, lo, hi) then None else Entry(y, q, u)
        case DoFork(p) => if q == p then None else Entry(y, q, u)
        case DoExit(p) => if q == p then None else Entry(y, q, u)
        case _ => Entry(y, q, u)
  {
    hide SysInv, At, Fault, PageValue, Serviceable, PutAll, ObjSeq, ForkLoop, Remove, RemoveRefs, Insert, Back, PageTable.Cleared;
    match act
    case DoFault(p, v, write) =>
      FaultResumes(y, p, v, write);
      FaultEntries(y, p, v, write);
      assert q < |y.procs| && (q != p || u != v || Fault(y, p, v, write).Killed?) ==>
        SameEntry(Fault(y, p, v, write).y.procs[q].pt, y.procs[q].pt, u);
    case DoMap(p, lo, hi, _, _, file, _) => UnmapReady(y, p, lo, hi, file);
    case _ =>
  }

  // -------------------------------------------------------------- the others

  /** A collapse leaves no object with a single parent below the area's own. */
  lemma CollapseComplete(y: Sys, p: Pid, area: nat)
    requires SysInv(y) && Enabled(y, DoCollapse(p, area))
    ensures var o := y.procs[p].areas[area].obj;
      IsShadow(y.store.objs, o) ==> ShadowCollapse.NoSingles(Apply(y, DoCollapse(p, area)).store.objs, o)
  {
    hide SysInv, Inv, AllSorted, TopsOk, Closed, FramesOk, RootsOf;
    SortedParts(y);
    var o := y.procs[p].areas[area].obj;
    if IsShadow(y.store.objs, o) { ShadowCollapse.WalkComplete(y.store, RootsOf(y), o, y.store.objs[o].kind.shadowed); }
  }

  /** No step changes the user bounds or what the file system holds, and only fork makes a process. */
  lemma StepBounds(y: Sys, act: Action)
    requires SysInv(y) && Enabled(y, act)
    ensures var e := Apply(y, act);
      && e.low == y.low && e.high == y.high && e.fs == y.fs && |e.procs| == |y.procs| + (if act.DoFork? then 1 else 0)
  {
    hide SysInv, At, PutAll, ObjSeq, ForkLoop, Remove, RemoveRefs, Insert, Back, MemObjects.Lookup, GetForWrite;
  }
}
