/**
 * The arithmetic of slabs: how many objects fit in a block, which block order
 * wastes least, and where objects and the slab header lie in a block
 * (kernel/mm/slab.c:52-147).
 */
module SlabSizes {
  import opened Basics

  const SLAB_MAX_ORDER := 5

  /** Sizes in bytes of an object, of the control word behind it and of the slab header. */
  datatype Sizes = Sizes(obj: nat, ctl: nat, hdr: nat) {
    function Stride(): nat { obj + ctl }
  }

  /** _slab_size. */
  function SlabSize(z: Sizes, nobjs: nat): nat { nobjs * z.Stride() + z.hdr }

  /** The bytes of a block of the given order. */
  function BlockSize(order: nat): nat { Pow2(order) * PAGE_SIZE }

  /** _slab_nobjs, for blocks that hold the header at least. */
  function SlabObjs(z: Sizes, order: nat): int
    requires z.Stride() > 0
  {
    (BlockSize(order) - z.hdr) / z.Stride()
  }

  /** _slab_waste. */
  function Waste(z: Sizes, order: nat): int
    requires z.Stride() > 0 && SlabObjs(z, order) >= 0
  {
    BlockSize(order) - SlabSize(z, SlabObjs(z, order))
  }

  lemma DivBounds(x: nat, d: nat)
    requires d > 0
    ensures x / d * d <= x < x / d * d + d
  {
  }

  /** The objects fit below the header, and no further object would. */
  lemma SlabFits(z: Sizes, order: nat)
    requires z.Stride() > 0 && BlockSize(order) >= z.hdr
    ensures SlabObjs(z, order) >= 0 && 0 <= Waste(z, order) < z.Stride()
    ensures SlabSize(z, SlabObjs(z, order)) <= BlockSize(order) < SlabSize(z, SlabObjs(z, order) + 1)
  {
    var k := SlabObjs(z, order);
    DivBounds(BlockSize(order) - z.hdr, z.Stride());
    assert (k + 1) * z.Stride() == k * z.Stride() + z.Stride();
  }

  /** A block that can hold one object does. */
  lemma {:induction false} OneFits(z: Sizes, order: nat)
    requires z.Stride() > 0 && BlockSize(order) >= SlabSize(z, 1)
    ensures SlabObjs(z, order) >= 1
  {
    var x, d := BlockSize(order) - z.hdr, z.Stride();
    DivBounds(x, d);
  }

  lemma {:induction false} BlockGrows(o: nat, p: nat)
    requires o <= p
    ensures BlockSize(o) <= BlockSize(p)
  {
    if o < p { BlockGrows(o, p - 1); }
  }

  /** order is the first of least waste among those from low on that are below high. */
  ghost predicate LeastWaste(z: Sizes, low: nat, high: nat, order: nat)
    requires z.Stride() > 0 && BlockSize(low) >= SlabSize(z, 1)
  {
    && low <= order && (order == low || order < high)
    && (forall k: nat :: low <= k <= order || low <= k < high ==> SlabObjs(z, k) >= 0)
    && (forall k: nat :: low <= k < high ==> Waste(z, order) <= Waste(z, k))
    && (forall k: nat :: low <= k < order ==> Waste(z, order) < Waste(z, k))
  }

  /** The smallest order below n whose blocks hold minsize bytes. */
  ghost predicate MinOrder(n: nat, minsize: nat, order: nat) {
    order < n && BlockSize(order) >= minsize && forall k: nat :: k < order ==> BlockSize(k) < minsize
  }

  /** The first loop of _calc_slab_size; None is the panic. */
  method FindMinOrder(n: nat, minsize: nat) returns (r: Option<nat>)
    ensures r.Some? ==> MinOrder(n, minsize, r.value)
    ensures r.None? ==> forall k: nat :: k < n ==> BlockSize(k) < minsize
  {
    for order := 0 to n
      invariant forall k: nat :: k < order ==> BlockSize(k) < minsize
    {
      if BlockSize(order) >= minsize { return Some(order); }
    }
    r := None;
  }

  lemma SomeFit(z: Sizes, low: nat)
    requires z.Stride() > 0 && BlockSize(low) >= SlabSize(z, 1)
    ensures forall k: nat :: low <= k ==> SlabObjs(z, k) >= 1
  {
    forall k: nat | low <= k ensures SlabObjs(z, k) >= 1 {
      BlockGrows(low, k);
      OneFits(z, k);
    }
  }

  /**
   * _calc_slab_size: the order of least waste, from the smallest that holds
   * an object up to SLAB_MAX_ORDER, and the number of objects that fit.
   */
  method CalcSlabSize(n: nat, z: Sizes) returns (r: Option<nat>, nobjs: nat)
    requires z.Stride() > 0
    ensures r.None? <==> forall k: nat :: k < n ==> BlockSize(k) < SlabSize(z, 1)
    ensures r.Some? ==> exists low: nat ::
      MinOrder(n, SlabSize(z, 1), low) && LeastWaste(z, low, SLAB_MAX_ORDER, r.value)
    ensures r.Some? ==> nobjs == SlabObjs(z, r.value) >= 1 && SlabSize(z, nobjs) <= BlockSize(r.value)
    ensures r.Some? && n >= SLAB_MAX_ORDER ==> r.value < n
  {
    nobjs := 0;
    r := FindMinOrder(n, SlabSize(z, 1));
    if r.None? { return; }
    var low := r.value;
    SomeFit(z, low);
    var best, bestWaste := low, Waste(z, low);
    hide SlabObjs, Waste, SlabSize, BlockSize;
    var order := low + 1;
    while order < SLAB_MAX_ORDER
      invariant low <= best < order && bestWaste == Waste(z, best) && (best == low || best < SLAB_MAX_ORDER)
      invariant order <= SLAB_MAX_ORDER || order == low + 1
      invariant forall k: nat :: low <= k < order ==> Waste(z, best) <= Waste(z, k)
      invariant forall k: nat :: low <= k < best ==> Waste(z, best) < Waste(z, k)
    {
      var waste := Waste(z, order);
      if waste < bestWaste { bestWaste, best := waste, order; }
      order := order + 1;
    }
    r := Some(best);
    nobjs := SlabObjs(z, best);
    ChosenFits(z, low, best);
  }

  lemma ChosenFits(z: Sizes, low: nat, best: nat)
    requires z.Stride() > 0 && BlockSize(low) >= SlabSize(z, 1) && low <= best
    ensures SlabObjs(z, best) >= 1 && SlabSize(z, SlabObjs(z, best)) <= BlockSize(best)
  {
    BlockGrows(low, best);
    OneFits(z, best);
    SlabFits(z, best);
  }
}
