/**
 * Processes with their address spaces and page tables over one store of
 * memory objects: map, unmap, page fault, fork, exit, collapse and the
 * hardware's loads and stores (kernel/proc/vm/mmap.c, pagefault.c,
 * kernel/proc/fork.c, shadowd.c).
 */
module VirtualMemory {
  import opened Basics
  import opened MemObjects
  import opened Vmmap
  import PageTable
  import ShadowCollapse

  type Pid = nat

  /** A present page-table entry. */
  datatype Pte = Pte(frame: FrameId, write: bool)

  datatype Proc = Proc(areas: seq<Area>, pt: map<Vpn, Pte>)

  /** fs holds the references the file system keeps to file objects. */
  datatype Sys = Sys(low: Vpn, high: Vpn, store: Store, procs: seq<Proc>, fs: multiset<ObjId>)

  /** The references held by the areas of all processes. */
  function Roots(procs: seq<Proc>): multiset<ObjId> {
    if procs == [] then multiset{} else ObjsOf(procs[0].areas) + Roots(procs[1..])
  }

  function RootsOf(y: Sys): multiset<ObjId> { Roots(y.procs) + y.fs }

  // -------------------------------------------------------------- invariant

  predicate InProc(procs: seq<Proc>, p: Pid, a: Area) { p < |procs| && a in procs[p].areas }

  /** An area's object is a shadow object exactly when the area is private; only file objects are mapped and shadowed. */
  ghost predicate TopOk(y: Sys, a: Area) {
    && a.obj in y.store.objs
    && a.private == IsShadow(y.store.objs, a.obj)
    && (!y.store.objs[a.obj].kind.File? ==> Above(y.store.objs, a.obj) == {})
    && (a.private ==> a.obj !in y.fs)
  }

  /** Two private areas with one object belong to one process and show disjoint pages of it. */
  ghost predicate Apart(p: Pid, a: Area, q: Pid, b: Area) {
    a.private && b.private && a.obj == b.obj ==> p == q && a.start - a.off == b.start - b.off
  }

  /** A page-table entry names the frame the chain finds; it is writable only when the top object owns it. */
  ghost predicate PteOk(y: Sys, p: Pid, v: Vpn)
    requires p < |y.procs| && v in y.procs[p].pt
  {
    var pte := y.procs[p].pt[v];
    && At(y.procs[p].areas, v).Some?
    && var m := At(y.procs[p].areas, v).value;
    && Find(y.store.objs, m.obj, m.pn) == Some(pte.frame)
    && (pte.write ==> m.prot.write && Resident(y.store.objs, m.obj, m.pn) == Some(pte.frame))
  }

  ghost predicate TopsOk(y: Sys) {
    forall p: Pid, a: Area :: InProc(y.procs, p, a) ==> TopOk(y, a)
  }

  ghost predicate AllApart(procs: seq<Proc>) {
    forall p: Pid, a: Area, q: Pid, b: Area :: InProc(procs, p, a) && InProc(procs, q, b) ==> Apart(p, a, q, b)
  }

  ghost predicate AllSorted(y: Sys) {
    forall p: Pid :: p < |y.procs| ==> Sorted(y.procs[p].areas, y.low, y.high)
  }

  ghost predicate Coherent(y: Sys) {
    forall p: Pid, v: Vpn :: p < |y.procs| && v in y.procs[p].pt ==> PteOk(y, p, v)
  }

  ghost predicate SysInv(y: Sys) {
    && Inv(y.store, RootsOf(y))
    && AllSorted(y)
    && TopsOk(y)
    && AllApart(y.procs)
    && Coherent(y)
  }

  // ------------------------------------------------------------------ steps

  function SetProc(y: Sys, s: Store, p: Pid, pr: Proc): Sys
    requires p < |y.procs|
  {
    y.(store := s, procs := y.procs[p := pr])
  }

  function RefAll(s: Store, os: seq<ObjId>): Store
    decreases |os|
  {
    if os == [] then s
    else if os[0] in s.objs then RefAll(Ref(s, os[0]), os[1..])
    else RefAll(s, os[1..])
  }

  /** The hardware's store through a page-table entry. */
  function StoreTo(y: Sys, p: Pid, v: Vpn, d: Page): Sys
    requires p < |y.procs| && v in y.procs[p].pt
  {
    y.(store := y.store.(mem := y.store.mem[y.procs[p].pt[v].frame := d]))
  }

  /** The hardware's load through a page-table entry. */
  function LoadFrom(y: Sys, p: Pid, v: Vpn): Page
    requires p < |y.procs| && v in y.procs[p].pt
  {
    Content(y.store, y.procs[p].pt[v].frame)
  }

  datatype FaultResult = Killed(y: Sys) | Resumed(y: Sys)

  /** handle_pagefault: kill the process, or map the page it asked for. */
  function Fault(y: Sys, p: Pid, v: Vpn, write: bool): FaultResult
    requires p < |y.procs|
  {
    if !(y.low <= v < y.high) then Killed(y)
    else
      var pr := y.procs[p];
      var m := At(pr.areas, v);
      if m.None? || !m.value.prot.read || (write && !m.value.prot.write) then Killed(y)
      else
        var g := if write then GetForWrite(y.store, m.value.obj, m.value.pn) else MemObjects.Lookup(y.store, m.value.obj, m.value.pn);
        if g.frame.None? then Killed(y.(store := g.s))
        else Resumed(SetProc(y, g.s, p, pr.(pt := pr.pt[v := Pte(g.frame.value, write)])))
  }

  /** The store after vmmap_remove has taken and dropped its references. */
  function RemoveRefs(s: Store, areas: seq<Area>, lo: Vpn, hi: Vpn): Store {
    PutAll(RefAll(s, RefsTaken(areas, lo, hi)), RefsDropped(areas, lo, hi))
  }

  /** do_munmap: remove the range from the areas and from the page table. */
  function Unmap(y: Sys, p: Pid, lo: Vpn, hi: Vpn): Sys
    requires p < |y.procs| && lo < hi
  {
    var pr := y.procs[p];
    SetProc(y, RemoveRefs(y.store, pr.areas, lo, hi), p,
            Proc(Remove(pr.areas, lo, hi), PageTable.Flush(pr.pt, lo, hi)))
  }

  /** The object of a new mapping: the file's, or a new anonymous one; under a new shadow if private. */
  function Back(s: Store, file: Option<ObjId>, private: bool): (Store, ObjId)
    requires file.Some? ==> file.value in s.objs
  {
    var (s1, o) := if file.Some? then (Ref(s, file.value), file.value) else (NewObj(s, Anon), s.nextObj);
    if private then (NewShadow(s1, o), s1.nextObj) else (s1, o)
  }

  /** do_mmap on a fixed range, after whatever was mapped there has been removed. */
  function MapInto(y: Sys, p: Pid, lo: Vpn, hi: Vpn, prot: Prot, private: bool, file: Option<ObjId>, off: PageNum): Sys
    requires p < |y.procs| && lo < hi && (file.Some? ==> file.value in y.store.objs)
  {
    var pr := y.procs[p];
    var (s, o) := Back(y.store, file, private);
    SetProc(y, s, p, Proc(Insert(pr.areas, Area(lo, hi, off, prot, private, o)), PageTable.Flush(pr.pt, lo, hi)))
  }

  /** fork's loop: every private area of parent and child gets its own new shadow object. */
  datatype Forked = Forked(s: Store, parent: seq<Area>, child: seq<Area>)

  /** Two new shadow objects for a private area: the child's first, then the parent's. */
  function ForkOne(s: Store, a: Area): Store {
    if a.private then NewShadow(NewShadow(s, a.obj), a.obj) else s
  }

  function Retarget(a: Area, o: ObjId): Area {
    Area(a.start, a.end, a.off, a.prot, a.private, if a.private then o else a.obj)
  }

  function ChildArea(s: Store, a: Area): Area { Retarget(a, s.nextObj) }

  function ParentArea(s: Store, a: Area): Area { Retarget(a, s.nextObj + 1) }

  function ForkLoop(s: Store, areas: seq<Area>): Forked
    decreases |areas|
  {
    if areas == [] then Forked(s, [], [])
    else
      var a := areas[0];
      var rest := ForkLoop(ForkOne(s, a), areas[1..]);
      Forked(rest.s, [ParentArea(s, a)] + rest.parent, [ChildArea(s, a)] + rest.child)
  }

  function ObjSeq(areas: seq<Area>): seq<ObjId> {
    if areas == [] then [] else [areas[0].obj] + ObjSeq(areas[1..])
  }

  /** The store after vmmap_clone has taken the child's references. */
  function CloneStore(y: Sys, p: Pid): Store
    requires p < |y.procs|
  {
    RefAll(y.store, ObjSeq(y.procs[p].areas))
  }

  function ForkOf(y: Sys, p: Pid): Forked
    requires p < |y.procs|
  {
    ForkLoop(CloneStore(y, p), y.procs[p].areas)
  }

  /** do_fork, steps 2 to 4; the child is the last process. */
  function Fork(y: Sys, p: Pid): Sys
    requires p < |y.procs|
  {
    var f := ForkOf(y, p);
    y.(store := f.s, procs := y.procs[p := Proc(f.parent, map[])] + [Proc(f.child, map[])])
  }

  /** Exit: vmmap_destroy drops the reference of every area. */
  function Exit(y: Sys, p: Pid): Sys
    requires p < |y.procs|
  {
    SetProc(y, PutAll(y.store, ObjSeq(y.procs[p].areas)), p, Proc([], map[]))
  }

  /** The shadow daemon's walk below one area. */
  function CollapseBelow(y: Sys, o: ObjId): Sys {
    y.(store := ShadowCollapse.Collapse(y.store, o))
  }
}
