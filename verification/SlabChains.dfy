/**
 * Slabs as they lie in memory: objects with a control word each, a chain of
 * free objects threaded through the control words, and a header after the
 * last object (kernel/mm/slab.c:26-65, 191-330).
 */
module SlabChains {
  import opened Basics
  import opened SlabSizes

  /** slab_bufctl: the next free object while the object is free, the slab while it is allocated. */
  datatype Ctl = Next(next: Option<nat>) | Owner(slab: nat)

  /** struct slab; a slab is named by the address of its header. */
  datatype Header = Header(addr: nat, inuse: int, free: Option<nat>)

  type Ctls = map<nat, Ctl>

  /** The i-th object of a slab that starts at addr. */
  function ObjAt(z: Sizes, addr: nat, i: nat): nat { addr + i * z.Stride() }

  ghost predicate IsObj(z: Sizes, nobjs: nat, addr: nat, x: nat) {
    exists i: nat :: i < nobjs && x == ObjAt(z, addr, i)
  }

  /** The chain of free objects, followed from its head. */
  ghost predicate Linked(ctl: Ctls, head: Option<nat>, chain: seq<nat>)
    decreases |chain|
  {
    if chain == [] then head.None?
    else head == Some(chain[0]) && chain[0] in ctl && ctl[chain[0]].Next? && Linked(ctl, ctl[chain[0]].next, chain[1..])
  }

  /** One slab: its chain is repeat-free, its other objects are allocated, and the two add up. */
  ghost predicate SlabOk(z: Sizes, nobjs: nat, s: nat, h: Header, ctl: Ctls, chain: seq<nat>) {
    && s == ObjAt(z, h.addr, nobjs)
    && h.inuse + |chain| == nobjs
    && Linked(ctl, h.free, chain) && NoDup(chain)
    && (forall x :: x in chain ==> IsObj(z, nobjs, h.addr, x))
    && (forall x :: IsObj(z, nobjs, h.addr, x) ==> x in ctl && (x !in chain ==> ctl[x] == Owner(s)))
  }

  /** Chains look only at the control words of their own objects. */
  lemma {:induction false} LinkedSame(ctl: Ctls, ctl': Ctls, head: Option<nat>, chain: seq<nat>)
    requires Linked(ctl, head, chain) && forall x :: x in chain ==> x in ctl' && (x in ctl ==> ctl'[x] == ctl[x])
    ensures Linked(ctl', head, chain)
    decreases |chain|
  {
    if chain != [] {
      assert chain[0] in chain;
      LinkedSame(ctl, ctl', ctl[chain[0]].next, chain[1..]);
    }
  }

  lemma {:induction false} LinkedNext(ctl: Ctls, head: Option<nat>, chain: seq<nat>, x: nat)
    requires Linked(ctl, head, chain) && x in chain
    ensures x in ctl && ctl[x].Next?
    decreases |chain|
  {
    if chain[0] != x { LinkedNext(ctl, ctl[chain[0]].next, chain[1..], x); }
  }

  /** An object is on its slab's chain exactly when its control word is a link. */
  lemma ChainIsFree(z: Sizes, nobjs: nat, s: nat, h: Header, ctl: Ctls, chain: seq<nat>, x: nat)
    requires SlabOk(z, nobjs, s, h, ctl, chain) && IsObj(z, nobjs, h.addr, x)
    ensures x in ctl && (x in chain <==> ctl[x].Next?) && (ctl[x].Owner? ==> ctl[x] == Owner(s))
  {
    if x in chain { LinkedNext(ctl, h.free, chain, x); }
  }

  /** A slab whose control words have not changed. */
  lemma SlabSame(z: Sizes, nobjs: nat, s: nat, h: Header, ctl: Ctls, ctl': Ctls, chain: seq<nat>)
    requires SlabOk(z, nobjs, s, h, ctl, chain)
    requires forall x :: IsObj(z, nobjs, h.addr, x) ==> x in ctl' && (x in ctl ==> ctl'[x] == ctl[x])
    ensures SlabOk(z, nobjs, s, h, ctl', chain)
  {
    hide IsObj;
    LinkedSame(ctl, ctl', h.free, chain);
  }

  /** Something is free exactly when not every object is in use. */
  lemma ChainEmpty(z: Sizes, nobjs: nat, s: nat, h: Header, ctl: Ctls, chain: seq<nat>)
    requires SlabOk(z, nobjs, s, h, ctl, chain)
    ensures 0 <= |chain| && h.inuse <= nobjs && (h.inuse < nobjs <==> chain != []) && (chain != [] ==> h.free == Some(chain[0]))
  {
  }

  /** slab_obj_alloc on a slab: the first object of the chain is handed out. */
  lemma TakeSlab(z: Sizes, nobjs: nat, s: nat, h: Header, ctl: Ctls, chain: seq<nat>)
    requires SlabOk(z, nobjs, s, h, ctl, chain) && chain != []
    ensures var x := chain[0];
      && h.free == Some(x) && x in ctl && ctl[x].Next? && IsObj(z, nobjs, h.addr, x)
      && SlabOk(z, nobjs, s, Header(h.addr, h.inuse + 1, ctl[x].next), ctl[x := Owner(s)], chain[1..])
  {
    var x := chain[0];
    hide IsObj;
    assert x in chain && x !in chain[1..];
    LinkedSame(ctl, ctl[x := Owner(s)], ctl[x].next, chain[1..]);
  }

  /** slab_obj_free: the object becomes the first of its slab's chain. */
  lemma GiveSlab(z: Sizes, nobjs: nat, s: nat, h: Header, ctl: Ctls, chain: seq<nat>, x: nat)
    requires SlabOk(z, nobjs, s, h, ctl, chain) && IsObj(z, nobjs, h.addr, x) && x !in chain
    ensures SlabOk(z, nobjs, s, Header(h.addr, h.inuse - 1, Some(x)), ctl[x := Next(h.free)], [x] + chain)
  {
    hide IsObj;
    var ctl' := ctl[x := Next(h.free)];
    LinkedSame(ctl, ctl', h.free, chain);
    assert ([x] + chain)[1..] == chain;
  }

  // -------------------------------------------------------------- a new slab

  /** The objects from the i-th on. */
  function ObjsFrom(z: Sizes, nobjs: nat, addr: nat, i: nat): (r: seq<nat>)
    requires i <= nobjs
    ensures |r| == nobjs - i && forall k :: 0 <= k < |r| ==> r[k] == ObjAt(z, addr, i + k)
    decreases nobjs - i
  {
    if i == nobjs then [] else [ObjAt(z, addr, i)] + ObjsFrom(z, nobjs, addr, i + 1)
  }

  /** Each object's control word is a link to the next object. */
  ghost predicate Threaded(z: Sizes, nobjs: nat, addr: nat, ctl: Ctls) {
    forall i: nat :: i < nobjs ==> Link(z, nobjs, addr, ctl, i)
  }

  ghost predicate Link(z: Sizes, nobjs: nat, addr: nat, ctl: Ctls, i: nat) {
    && ObjAt(z, addr, i) in ctl
    && ctl[ObjAt(z, addr, i)] == Next(if i + 1 < nobjs then Some(ObjAt(z, addr, i + 1)) else None)
  }

  lemma {:induction false} ThreadedLinked(z: Sizes, nobjs: nat, addr: nat, ctl: Ctls, i: nat)
    requires i <= nobjs && Threaded(z, nobjs, addr, ctl)
    ensures Linked(ctl, if i < nobjs then Some(ObjAt(z, addr, i)) else None, ObjsFrom(z, nobjs, addr, i))
    decreases nobjs - i
  {
    if i < nobjs {
      assert Link(z, nobjs, addr, ctl, i);
      ThreadedLinked(z, nobjs, addr, ctl, i + 1);
      assert ObjsFrom(z, nobjs, addr, i)[1..] == ObjsFrom(z, nobjs, addr, i + 1);
      hide ObjAt;
    }
  }

  lemma {:induction false} ObjOrder(z: Sizes, addr: nat, i: nat, j: nat)
    requires i < j
    ensures ObjAt(z, addr, i) + z.Stride() <= ObjAt(z, addr, j)
    decreases j
  {
    assert j * z.Stride() == (j - 1) * z.Stride() + z.Stride();
    if i < j - 1 { ObjOrder(z, addr, i, j - 1); }
  }

  lemma NewSlab(z: Sizes, nobjs: nat, addr: nat, ctl: Ctls)
    requires nobjs > 0 && z.Stride() > 0 && Threaded(z, nobjs, addr, ctl)
    ensures SlabOk(z, nobjs, ObjAt(z, addr, nobjs), Header(addr, 0, Some(addr)), ctl, ObjsFrom(z, nobjs, addr, 0))
  {
    var chain := ObjsFrom(z, nobjs, addr, 0);
    ThreadedLinked(z, nobjs, addr, ctl, 0);
    assert ObjAt(z, addr, 0) == addr;
    forall i, j | 0 <= i < j < |chain| ensures chain[i] != chain[j] { ObjOrder(z, addr, i, j); }
    forall x | IsObj(z, nobjs, addr, x) ensures x in chain && x in ctl {
      var i: nat :| i < nobjs && x == ObjAt(z, addr, i);
      assert chain[i] == x && Link(z, nobjs, addr, ctl, i);
    }
    forall x | x in chain ensures IsObj(z, nobjs, addr, x) {
      var k :| 0 <= k < |chain| && chain[k] == x;
      assert x == ObjAt(z, addr, k);
    }
    hide ObjAt, ObjsFrom, Threaded, Linked;
  }
}
