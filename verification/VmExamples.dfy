/**
 * Two runs of the virtual-memory system from an initial state: one after which
 * the shadow daemon's assertion fails (kernel/proc/vm/shadowd.c:95), and one
 * that leaves an object behind to which nothing refers
 * (kernel/proc/vm/anon.c:110-138).
 */
module VmExamples {
  import opened Basics
  import opened MemObjects
  import opened ShadowCollapse
  import opened ShadowAssertion
  import opened Vmmap
  import PageTable
  import opened VirtualMemory
  import opened VmRuns

  function Pages(start: Vpn, end: Vpn, off: PageNum, o: ObjId): Area { Area(start, end, off, Prot(true, true), true, o) }

  function Plain(kind: Kind, refcount: int): Obj { Obj(kind, refcount, map[]) }

  function Lone(objs: Objs, next: nat, areas: seq<Area>): Sys {
    Sys(0, 10, Store(objs, map[], next, 0), [Proc(areas, map[])], multiset{})
  }

  /** One process with nothing mapped. */
  function Start(): Sys { Lone(map[], 0, []) }

  /** Three private pages. */
  function Three(): Sys {
    Lone(map[0 := Plain(Anon, 1), 1 := Plain(Shadow(0, 0), 1)], 2, [Pages(1, 4, 0, 1)])
  }

  /** The middle one unmapped: two areas of one object. */
  function Two(): Sys {
    Lone(map[0 := Plain(Anon, 1), 1 := Plain(Shadow(0, 0), 2)], 2, [Pages(1, 2, 0, 1), Pages(3, 4, 2, 1)])
  }

  lemma MapThree()
    ensures Enabled(Start(), DoMap(0, 1, 4, Prot(true, true), true, None, 0))
    ensures Apply(Start(), DoMap(0, 1, 4, Prot(true, true), true, None, 0)) == Three()
  {
    var y1 := Unmap(Start(), 0, 1, 4);
    assert y1 == Start();
    assert Insert([], Pages(1, 4, 0, 1)) == [Pages(1, 4, 0, 1)];
    assert PageTable.Flush<Pte>(map[], 1, 4) == map[];
  }

  lemma UnmapMiddle()
    ensures Enabled(Three(), DoUnmap(0, 2, 3)) && Apply(Three(), DoUnmap(0, 2, 3)) == Two()
  {
    var areas := [Pages(1, 4, 0, 1)];
    assert Remove(areas, 2, 3) == [Pages(1, 2, 0, 1), Pages(3, 4, 2, 1)];
    assert RefsTaken(areas, 2, 3) == [1] && RefsDropped(areas, 2, 3) == [];
    assert PageTable.Flush<Pte>(map[], 2, 3) == map[];
    assert RefAll(Three().store, [1]) == Two().store;
  }

  /** After the fork: two new shadow objects above object 1 for each of the two areas. */
  function Four(): Sys {
    Sys(0, 10,
        Store(map[0 := Plain(Anon, 1), 1 := Plain(Shadow(0, 0), 4),
                  2 := Plain(Shadow(1, 0), 1), 3 := Plain(Shadow(1, 0), 1),
                  4 := Plain(Shadow(1, 0), 1), 5 := Plain(Shadow(1, 0), 1)], map[], 6, 0),
        [Proc([Pages(1, 2, 0, 3), Pages(3, 4, 2, 5)], map[]), Proc([Pages(1, 2, 0, 2), Pages(3, 4, 2, 4)], map[])],
        multiset{})
  }

  lemma ForkTwo()
    ensures Enabled(Two(), DoFork(0)) && Apply(Two(), DoFork(0)) == Four()
  {
    var a, b := Pages(1, 2, 0, 1), Pages(3, 4, 2, 1);
    var s0 := Two().store;
    var s1 := s0.(objs := s0.objs[1 := Plain(Shadow(0, 0), 4)]);
    assert ObjSeq([a, b]) == [1, 1] by { assert [a, b][1..] == [b]; }
    assert RefAll(s0, [1, 1]) == s1 by {
      assert [1, 1][1..] == [1];
      assert Ref(Ref(s0, 1), 1) == s1;
    }
    var s2 := ForkOne(s1, a);
    assert ForkOne(s2, b) == Four().store;
    assert [a, b][1..] == [b] && [b][1..] == [];
    assert ForkLoop(s2, [b]) == Forked(ForkOne(s2, b), [ParentArea(s2, b)], [ChildArea(s2, b)]);
    assert ForkLoop(s1, [a, b]).parent == [Pages(1, 2, 0, 3), Pages(3, 4, 2, 5)];
    assert ForkLoop(s1, [a, b]).child == [Pages(1, 2, 0, 2), Pages(3, 4, 2, 4)];
  }

  /**
   * Map three private pages, unmap the middle one, fork: the daemon's walk
   * below the first area then meets an object with four parents.
   */
  lemma AssertionFails()
    ensures var acts := [DoMap(0, 1, 4, Prot(true, true), true, None, 0)] + ([DoUnmap(0, 2, 3)] + ([DoFork(0)] + []));
      && Initial(Start()) && Legal(Start(), acts)
      && var e := Run(Start(), acts);
      && |e.procs| == 2 && |e.procs[0].areas| == 2
      && var top := e.procs[0].areas[0].obj;
      && IsShadow(e.store.objs, top) && !Asserted(e.store, top, e.store.objs[top].kind.shadowed)
  {
    hide Apply, Enabled;
    MapThree();
    UnmapMiddle();
    ForkTwo();
    Then(Two(), DoFork(0), Four(), []);
    Then(Three(), DoUnmap(0, 2, 3), Two(), [DoFork(0)] + []);
    Then(Start(), DoMap(0, 1, 4, Prot(true, true), true, None, 0), Three(), [DoUnmap(0, 2, 3)] + ([DoFork(0)] + []));
    assert Parents(Four().store.objs, 1) == 4;
  }

  lemma Then(y: Sys, act: Action, y1: Sys, rest: seq<Action>)
    requires Enabled(y, act) && Apply(y, act) == y1 && Legal(y1, rest)
    ensures Legal(y, [act] + rest) && Run(y, [act] + rest) == Run(y1, rest)
  {
    assert ([act] + rest)[1..] == rest;
  }

  // ------------------------------------------------------------- an object lost

  /** One shared page of a new anonymous object, which is not touched. */
  function Shared(): Sys {
    Lone(map[0 := Plain(Anon, 1)], 1, [Area(1, 2, 0, Prot(true, true), false, 0)])
  }

  /** The page unmapped again: nothing refers to the object. */
  function Lost(): Sys { Lone(map[0 := Plain(Anon, 0)], 1, []) }

  lemma MapShared()
    ensures Enabled(Start(), DoMap(0, 1, 2, Prot(true, true), false, None, 0))
    ensures Apply(Start(), DoMap(0, 1, 2, Prot(true, true), false, None, 0)) == Shared()
  {
    assert Unmap(Start(), 0, 1, 2) == Start();
    assert Insert([], Area(1, 2, 0, Prot(true, true), false, 0)) == [Area(1, 2, 0, Prot(true, true), false, 0)];
    assert PageTable.Flush<Pte>(map[], 1, 2) == map[];
  }

  lemma UnmapShared()
    ensures Enabled(Shared(), DoUnmap(0, 1, 2)) && Apply(Shared(), DoUnmap(0, 1, 2)) == Lost()
  {
    var areas := Shared().procs[0].areas;
    assert Remove(areas, 1, 2) == [] && RefsTaken(areas, 1, 2) == [] && RefsDropped(areas, 1, 2) == [0];
    assert PageTable.Flush<Pte>(map[], 1, 2) == map[];
    assert PutAll(Shared().store, [0]) == Lost().store;
  }

  /** Map a shared page and unmap it untouched: the object stays in the store, with no reference left to it. */
  lemma ObjectLost()
    ensures var acts := [DoMap(0, 1, 2, Prot(true, true), false, None, 0)] + ([DoUnmap(0, 1, 2)] + []);
      && Initial(Start()) && Legal(Start(), acts)
      && var e := Run(Start(), acts);
      && 0 in e.store.objs && e.store.objs[0].refcount == 0 && External(e.store.objs, RootsOf(e), 0) == 0
  {
    hide Apply, Enabled;
    MapShared();
    UnmapShared();
    Then(Shared(), DoUnmap(0, 1, 2), Lost(), []);
    Then(Start(), DoMap(0, 1, 2, Prot(true, true), false, None, 0), Shared(), [DoUnmap(0, 1, 2)] + []);
    assert Above(Lost().store.objs, 0) == {};
    assert Roots(Lost().procs) == multiset{};
  }
}
