/**
 * The index of resident pages: a hash table of chains, a list of frames for
 * each object with a count, and the list of allocated frames, which a lookup
 * reorders (kernel/mm/pframe.c:191-298, 562-595).
 */
module PframeIndex {
  import opened Basics

  type Fid = nat
  type Oid = nat

  /** The identity of a page. */
  datatype Frame = Frame(obj: Oid, pn: nat)

  datatype Index = Index(frames: map<Fid, Frame>, chains: seq<seq<Fid>>, lists: map<Oid, seq<Fid>>, counts: map<Oid, int>,
                         alloc: seq<Fid>, nalloc: int)

  /** hash_page, in 32-bit arithmetic. */
  function Hash(size: nat, fr: Frame): (h: nat)
    requires size > 0
    ensures h < size
  {
    ((fr.obj + fr.pn) % WORD) % size
  }

  // --------------------------------------------------------------- invariant

  /** Chain h holds exactly the frames whose identity hashes to h. */
  ghost predicate ChainOk(x: Index, h: nat)
    requires h < |x.chains|
  {
    NoDup(x.chains[h]) && forall f :: f in x.chains[h] <==> f in x.frames && Hash(|x.chains|, x.frames[f]) == h
  }

  /** An object's list holds exactly its frames, and its count is the length of the list. */
  ghost predicate ListOk(x: Index, o: Oid)
    requires o in x.lists && o in x.counts
  {
    && NoDup(x.lists[o]) && x.counts[o] == |x.lists[o]|
    && forall f :: f in x.lists[o] <==> f in x.frames && x.frames[f].obj == o
  }

  ghost predicate AllocOk(x: Index) {
    NoDup(x.alloc) && x.nalloc == |x.alloc| && forall f :: f in x.alloc <==> f in x.frames
  }

  /** At most one frame for each identity. */
  ghost predicate Unique(frames: map<Fid, Frame>) {
    forall f, g :: f in frames && g in frames && frames[f] == frames[g] ==> f == g
  }

  ghost predicate IndexOk(x: Index) {
    && |x.chains| > 0 && x.lists.Keys == x.counts.Keys
    && (forall h: nat :: h < |x.chains| ==> ChainOk(x, h))
    && (forall o :: o in x.lists ==> ListOk(x, o))
    && (forall f :: f in x.frames ==> x.frames[f].obj in x.lists)
    && AllocOk(x) && Unique(x.frames)
  }

  /** The page is resident in frame f. */
  ghost predicate Resident(x: Index, o: Oid, pn: nat, f: Fid) { f in x.frames && x.frames[f] == Frame(o, pn) }

  ghost predicate NotResident(x: Index, o: Oid, pn: nat) { forall f :: f in x.frames ==> x.frames[f] != Frame(o, pn) }

  /** Every frame but f is resident for the same page as before, and the objects are the same. */
  ghost predicate OthersStay(x: Index, x': Index, f: Fid) {
    && (forall g: Fid, o: Oid, pn: nat :: g != f ==> (Resident(x', o, pn, g) <==> Resident(x, o, pn, g)))
    && x'.lists.Keys == x.lists.Keys && |x'.chains| == |x.chains|
  }

  /** The counts of resident pages are as before but for these two objects. */
  ghost predicate CountsStay(x: Index, x': Index, o: Oid, p: Oid) {
    x'.counts.Keys == x.counts.Keys && forall q :: q in x.counts && q != o && q != p ==> x'.counts[q] == x.counts[q]
  }

  /** The page becomes resident in frame f, the last allocated, and is counted; nothing else changes. */
  ghost predicate Enters(x: Index, x': Index, o: Oid, pn: nat, f: Fid) {
    && Resident(x', o, pn, f) && OthersStay(x, x', f) && CountsStay(x, x', o, o)
    && o in x.counts && o in x'.counts && x'.counts[o] == x.counts[o] + 1
    && x'.nalloc == x.nalloc + 1 && x'.alloc == x.alloc + [f]
  }

  /** Frame f, which held a page of o, is gone; nothing else changes. */
  ghost predicate Leaves(x: Index, x': Index, o: Oid, f: Fid) {
    && f !in x'.frames && OthersStay(x, x', f) && CountsStay(x, x', o, o)
    && o in x.counts && o in x'.counts && x'.counts[o] == x.counts[o] - 1
    && x'.nalloc == x.nalloc - 1
  }

  /** Frame f holds page pn of dest in place of src; nothing else changes. */
  ghost predicate Changes(x: Index, x': Index, src: Oid, dest: Oid, pn: nat, f: Fid) {
    && Resident(x', dest, pn, f) && OthersStay(x, x', f) && CountsStay(x, x', src, dest)
    && src in x.counts && src in x'.counts && x'.counts[src] == x.counts[src] - 1
    && dest in x.counts && dest in x'.counts && x'.counts[dest] == x.counts[dest] + 1
    && x'.nalloc == x.nalloc && x'.alloc == x.alloc
  }

  /** The first frame of a list with the given identity. */
  function Search(x: Index, l: seq<Fid>, o: Oid, pn: nat): Option<Fid> {
    if l == [] then None
    else if l[0] in x.frames && x.frames[l[0]] == Frame(o, pn) then Some(l[0])
    else Search(x, l[1..], o, pn)
  }

  lemma {:induction false} SearchIs(x: Index, l: seq<Fid>, o: Oid, pn: nat)
    ensures Search(x, l, o, pn).Some? ==> Search(x, l, o, pn).value in l && Resident(x, o, pn, Search(x, l, o, pn).value)
    ensures Search(x, l, o, pn).None? ==> forall f :: f in l ==> !Resident(x, o, pn, f)
  {
    if l != [] {
      assert l == [l[0]] + l[1..];
      SearchIs(x, l[1..], o, pn);
    }
  }

  /**
   * Looking through the chain that the hash names gives the same answer as
   * looking through the object's own list: the page's one frame, or none.
   */
  lemma ChainIsList(x: Index, o: Oid, pn: nat)
    requires IndexOk(x) && o in x.lists
    ensures Search(x, x.chains[Hash(|x.chains|, Frame(o, pn))], o, pn) == Search(x, x.lists[o], o, pn)
    ensures Search(x, x.lists[o], o, pn).None? <==> NotResident(x, o, pn)
  {
    var h := Hash(|x.chains|, Frame(o, pn));
    assert ChainOk(x, h) && ListOk(x, o);
    SearchIs(x, x.chains[h], o, pn);
    SearchIs(x, x.lists[o], o, pn);
    var a, b := Search(x, x.chains[h], o, pn), Search(x, x.lists[o], o, pn);
    if a.Some? { assert a.value in x.lists[o]; }
    if b.Some? { assert b.value in x.chains[h]; }
    forall f | f in x.frames && x.frames[f] == Frame(o, pn) ensures f in x.lists[o] && f in x.chains[h] {}
    hide Hash, Search;
  }

  // ------------------------------------------------------------------- steps

  /** A lookup that hits moves the frame to the end of the allocated frames. */
  function Touched(x: Index, f: Fid): Index { x.(alloc := Without(x.alloc, f) + [f]) }

  lemma TouchedOk(x: Index, f: Fid)
    requires IndexOk(x) && f in x.frames
    ensures IndexOk(Touched(x, f))
  {
    WithoutIs(x.alloc, f);
    var x' := Touched(x, f);
    forall h: nat | h < |x'.chains| ensures ChainOk(x', h) { assert ChainOk(x, h); }
    forall o | o in x'.lists ensures ListOk(x', o) { assert ListOk(x, o); }
    hide Without, Hash;
  }

  /** pframe_alloc, once it has a frame f. */
  function Added(x: Index, o: Oid, pn: nat, f: Fid): Index
    requires |x.chains| > 0 && o in x.lists && o in x.counts
  {
    var h := Hash(|x.chains|, Frame(o, pn));
    Index(x.frames[f := Frame(o, pn)], x.chains[h := [f] + x.chains[h]], x.lists[o := [f] + x.lists[o]],
          x.counts[o := x.counts[o] + 1], x.alloc + [f], x.nalloc + 1)
  }

  lemma AddedOk(x: Index, o: Oid, pn: nat, f: Fid)
    requires IndexOk(x) && o in x.lists && f !in x.frames && NotResident(x, o, pn)
    ensures IndexOk(Added(x, o, pn, f))
  {
    var x' := Added(x, o, pn, f);
    forall h: nat | h < |x'.chains| ensures ChainOk(x', h) { AddedChain(x, o, pn, f, h); }
    forall p | p in x'.lists ensures ListOk(x', p) { AddedList(x, o, pn, f, p); }
    hide Hash, ChainOk, ListOk;
  }

  lemma AddedEnters(x: Index, o: Oid, pn: nat, f: Fid)
    requires |x.chains| > 0 && o in x.lists && o in x.counts && f !in x.frames
    ensures Enters(x, Added(x, o, pn, f), o, pn, f)
  {
    hide Hash;
  }

  lemma AddedChain(x: Index, o: Oid, pn: nat, f: Fid, h: nat)
    requires |x.chains| > 0 && h < |x.chains| && ChainOk(x, h) && o in x.lists && o in x.counts && f !in x.frames
    ensures ChainOk(Added(x, o, pn, f), h)
  {
    hide Hash;
  }

  lemma AddedList(x: Index, o: Oid, pn: nat, f: Fid, p: Oid)
    requires |x.chains| > 0 && o in x.lists && o in x.counts && f !in x.frames && p in x.lists && p in x.counts && ListOk(x, p)
    ensures ListOk(Added(x, o, pn, f), p)
  {
    hide Hash;
  }

  /** pframe_free. */
  function Dropped(x: Index, f: Fid): Index
    requires |x.chains| > 0 && f in x.frames && x.frames[f].obj in x.lists && x.frames[f].obj in x.counts
  {
    var o, h := x.frames[f].obj, Hash(|x.chains|, x.frames[f]);
    Index(x.frames - {f}, x.chains[h := Without(x.chains[h], f)], x.lists[o := Without(x.lists[o], f)],
          x.counts[o := x.counts[o] - 1], Without(x.alloc, f), x.nalloc - 1)
  }

  lemma DroppedOk(x: Index, f: Fid)
    requires IndexOk(x) && f in x.frames
    ensures IndexOk(Dropped(x, f))
  {
    hide Hash, Without;
    var x' := Dropped(x, f);
    var o, h0 := x.frames[f].obj, Hash(|x.chains|, x.frames[f]);
    WithoutIs(x.alloc, f);
    assert ChainOk(x, h0) && ListOk(x, o);
    WithoutIs(x.chains[h0], f);
    WithoutIs(x.lists[o], f);
    forall h: nat | h < |x'.chains| ensures ChainOk(x', h) { assert ChainOk(x, h); }
    forall p | p in x'.lists ensures ListOk(x', p) { assert ListOk(x, p); }
  }

  lemma DroppedLeaves(x: Index, f: Fid)
    requires |x.chains| > 0 && f in x.frames && x.frames[f].obj in x.lists && x.frames[f].obj in x.counts
    ensures Leaves(x, Dropped(x, f), x.frames[f].obj, f)
  {
    hide Hash, Without;
  }

  /** pframe_migrate to an object that does not have the page. */
  function Moved(x: Index, f: Fid, dest: Oid): Index
    requires |x.chains| > 0 && f in x.frames && x.frames[f].obj in x.lists && x.frames[f].obj in x.counts
    requires dest in x.lists && dest in x.counts
  {
    var src, pn := x.frames[f].obj, x.frames[f].pn;
    var h, h' := Hash(|x.chains|, x.frames[f]), Hash(|x.chains|, Frame(dest, pn));
    var chains := x.chains[h := Without(x.chains[h], f)];
    var lists := x.lists[src := Without(x.lists[src], f)];
    var counts := x.counts[src := x.counts[src] - 1];
    Index(x.frames[f := Frame(dest, pn)], chains[h' := [f] + chains[h']], lists[dest := [f] + lists[dest]],
          counts[dest := counts[dest] + 1], x.alloc, x.nalloc)
  }

  lemma MovedOk(x: Index, f: Fid, dest: Oid)
    requires IndexOk(x) && f in x.frames && dest in x.lists && NotResident(x, dest, x.frames[f].pn)
    ensures IndexOk(Moved(x, f, dest))
  {
    var x' := Moved(x, f, dest);
    forall h: nat | h < |x'.chains| ensures ChainOk(x', h) { MovedChain(x, f, dest, h); }
    forall p | p in x'.lists ensures ListOk(x', p) { MovedList(x, f, dest, p); }
    hide Hash, Without, ChainOk, ListOk;
  }

  lemma MovedChanges(x: Index, f: Fid, dest: Oid)
    requires |x.chains| > 0 && f in x.frames && x.frames[f].obj in x.lists && x.frames[f].obj in x.counts
    requires dest in x.lists && dest in x.counts && dest != x.frames[f].obj
    ensures Changes(x, Moved(x, f, dest), x.frames[f].obj, dest, x.frames[f].pn, f)
  {
    hide Hash, Without;
  }

  lemma MovedChain(x: Index, f: Fid, dest: Oid, h: nat)
    requires IndexOk(x) && f in x.frames && dest in x.lists && h < |x.chains|
    ensures ChainOk(Moved(x, f, dest), h)
  {
    var h0 := Hash(|x.chains|, x.frames[f]);
    assert ChainOk(x, h0) && ChainOk(x, h);
    WithoutIs(x.chains[h0], f);
    hide IndexOk, Hash, Without;
  }

  lemma MovedList(x: Index, f: Fid, dest: Oid, p: Oid)
    requires IndexOk(x) && f in x.frames && dest in x.lists && p in x.lists
    ensures ListOk(Moved(x, f, dest), p)
  {
    var src := x.frames[f].obj;
    assert ListOk(x, src) && ListOk(x, p);
    WithoutIs(x.lists[src], f);
    hide Hash, Without, ChainOk;
  }

  // ------------------------------------------------------------------- class

  class Pframes {
    const hash: array<seq<Fid>>
    var frames: map<Fid, Frame>
    var lists: map<Oid, seq<Fid>>
    var counts: map<Oid, int>
    var alloc: seq<Fid>
    var nalloc: int

    function Now(): Index
      reads this, hash
    {
      Index(frames, hash[..], lists, counts, alloc, nalloc)
    }

    /** pframe_init. */
    constructor (size: nat)
      requires size > 0
      ensures IndexOk(Now()) && frames == map[] && fresh(hash) && hash.Length == size
    {
      hash := new seq<Fid>[size](_ => []);
      frames, lists, counts, alloc, nalloc := map[], map[], map[], [], 0;
    }

    /** A new object has no resident pages. */
    method AddObject(o: Oid)
      requires IndexOk(Now()) && o !in lists
      modifies this`lists, this`counts
      ensures IndexOk(Now()) && frames == old(frames) && lists == old(lists)[o := []] && counts == old(counts)[o := 0]
    {
      ghost var x := Now();
      lists, counts := lists[o := []], counts[o := 0];
      forall h: nat | h < |Now().chains| ensures ChainOk(Now(), h) { assert ChainOk(x, h); }
      forall p | p in Now().lists ensures ListOk(Now(), p) { if p != o { assert ListOk(x, p); } }
    }

    /** pframe_get_resident: the page's frame, found on its hash chain, or none. */
    method GetResident(o: Oid, pn: nat) returns (r: Option<Fid>)
      requires IndexOk(Now())
      modifies this`alloc
      ensures IndexOk(Now()) && frames == old(frames)
      ensures r.None? ==> NotResident(Now(), o, pn) && Now() == old(Now())
      ensures r.Some? ==> Resident(Now(), o, pn, r.value) && Now() == Touched(old(Now()), r.value)
      ensures r.Some? ==> alloc != [] && alloc[|alloc| - 1] == r.value && alloc[..|alloc| - 1] == Without(old(alloc), r.value)
    {
      ghost var x := Now();
      var chain := hash[Hash(hash.Length, Frame(o, pn))];
      OnChain(x, o, pn);
      hide Hash, Touched;
      for i := 0 to |chain|
        invariant Now() == x && forall k :: 0 <= k < i ==> frames[chain[k]] != Frame(o, pn)
      {
        if frames[chain[i]] == Frame(o, pn) {
          TouchedOk(x, chain[i]);
          TouchedIs(x, chain[i]);
          alloc := Without(alloc, chain[i]) + [chain[i]];
          return Some(chain[i]);
        }
      }
      r := None;
    }

    /** pframe_alloc with the new frame f. */
    method Alloc(o: Oid, pn: nat, f: Fid)
      requires IndexOk(Now()) && o in lists && f !in frames && NotResident(Now(), o, pn)
      modifies this, hash
      ensures IndexOk(Now()) && Now() == Added(old(Now()), o, pn, f)
      ensures Enters(old(Now()), Now(), o, pn, f)
    {
      hide Hash, ChainOk, ListOk, AllocOk, Enters;
      AddedOk(Now(), o, pn, f);
      AddedEnters(Now(), o, pn, f);
      nalloc, alloc := nalloc + 1, alloc + [f];
      frames := frames[f := Frame(o, pn)];
      var h := Hash(hash.Length, Frame(o, pn));
      hash[h] := [f] + hash[h];
      counts := counts[o := counts[o] + 1];
      lists := lists[o := [f] + lists[o]];
    }

    /** pframe_free. */
    method Free(f: Fid)
      requires IndexOk(Now()) && f in frames
      modifies this, hash
      ensures IndexOk(Now()) && Now() == Dropped(old(Now()), f)
      ensures Leaves(old(Now()), Now(), old(frames)[f].obj, f)
    {
      hide Hash, ChainOk, ListOk, AllocOk, Without, Leaves;
      DroppedOk(Now(), f);
      DroppedLeaves(Now(), f);
      var o, h := frames[f].obj, Hash(hash.Length, frames[f]);
      hash[h] := Without(hash[h], f);
      frames := frames - {f};
      nalloc, alloc := nalloc - 1, Without(alloc, f);
      counts := counts[o := counts[o] - 1];
      lists := lists[o := Without(lists[o], f)];
    }

    /** The move in pframe_migrate. */
    method Move(f: Fid, dest: Oid)
      requires IndexOk(Now()) && f in frames && dest in lists && NotResident(Now(), dest, frames[f].pn)
      modifies this, hash
      ensures IndexOk(Now()) && Now() == Moved(old(Now()), f, dest)
      ensures Changes(old(Now()), Now(), old(frames)[f].obj, dest, old(frames)[f].pn, f)
    {
      hide Hash, ChainOk, ListOk, AllocOk, Without, Changes;
      MovedOk(Now(), f, dest);
      MovedChanges(Now(), f, dest);
      var src, pn := frames[f].obj, frames[f].pn;
      var h := Hash(hash.Length, frames[f]);
      frames := frames[f := Frame(dest, pn)];
      hash[h] := Without(hash[h], f);
      lists := lists[src := Without(lists[src], f)];
      counts := counts[src := counts[src] - 1];
      var h' := Hash(hash.Length, Frame(dest, pn));
      hash[h'] := [f] + hash[h'];
      lists := lists[dest := [f] + lists[dest]];
      counts := counts[dest := counts[dest] + 1];
    }

    /** pframe_migrate: the frame goes to dest, unless dest has the page, when it is freed. */
    method Migrate(f: Fid, dest: Oid) returns (newer: Option<Fid>)
      requires IndexOk(Now()) && f in frames && dest in lists && dest != frames[f].obj
      modifies this, hash
      ensures IndexOk(Now())
      ensures newer.None? ==>
        && NotResident(old(Now()), dest, old(frames)[f].pn) && Now() == Moved(old(Now()), f, dest)
        && Changes(old(Now()), Now(), old(frames)[f].obj, dest, old(frames)[f].pn, f)
      ensures newer.Some? ==>
        && Resident(old(Now()), dest, old(frames)[f].pn, newer.value) && frames == old(frames) - {f}
        && Now() == Dropped(Touched(old(Now()), newer.value), f)
        && Leaves(old(Now()), Now(), old(frames)[f].obj, f)
    {
      hide IndexOk, Hash, Moved, Dropped, Touched, Changes, Leaves;
      newer := GetResident(dest, frames[f].pn);
      if newer.Some? { Free(f); } else { Move(f, dest); }
      DroppedFrames(old(Now()), newer, f);
      if newer.Some? { TouchedLeaves(old(Now()), newer.value, Now(), old(frames)[f].obj, f); }
    }
  }

  lemma OnChain(x: Index, o: Oid, pn: nat)
    requires IndexOk(x)
    ensures var chain := x.chains[Hash(|x.chains|, Frame(o, pn))];
      && (forall k :: 0 <= k < |chain| ==> chain[k] in x.frames)
      && (forall f :: f in x.frames && x.frames[f] == Frame(o, pn) ==> f in chain)
  {
    assert ChainOk(x, Hash(|x.chains|, Frame(o, pn)));
    hide Hash;
  }

  lemma TouchedIs(x: Index, f: Fid)
    ensures Touched(x, f) == x.(alloc := Without(x.alloc, f) + [f])
  {
  }

  lemma TouchedLeaves(x: Index, g: Fid, x': Index, o: Oid, f: Fid)
    requires Leaves(Touched(x, g), x', o, f)
    ensures Leaves(x, x', o, f)
  {
    forall h: Fid, p: Oid, pn: nat | h != f ensures Resident(x', p, pn, h) <==> Resident(x, p, pn, h) {
      assert Resident(Touched(x, g), p, pn, h) <==> Resident(x, p, pn, h);
    }
  }

  lemma DroppedFrames(x: Index, g: Option<Fid>, f: Fid)
    requires IndexOk(x) && f in x.frames
    ensures |x.chains| > 0 && x.frames[f].obj in x.lists && x.frames[f].obj in x.counts
    ensures Dropped(x, f).frames == x.frames - {f}
    ensures g.Some? ==> Dropped(Touched(x, g.value), f).frames == x.frames - {f}
  {
    hide Hash, Without;
  }
}
