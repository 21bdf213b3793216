/**
 * The file system's operations carried out on its tables, with the slot and
 * inode searches as loops (kernel/fs/ramfs/ramfs.c:131-563,
 * kernel/fs/vnode.c:109-298).
 */
module RamfsDisk {
  import opened Basics
  import opened Ramfs
  import opened RamfsRuns
  import opened RamfsNames

  class Disk {
    const max: nat
    const slots: nat
    const nameLen: nat
    var inodes: map<Ino, Inode>
    var vnodes: map<Ino, nat>

    function Now(): Fs
      reads this
    {
      Fs(max, slots, nameLen, inodes, vnodes)
    }

    /** ramfs_mount. */
    constructor (max: nat, slots: nat, nameLen: nat)
      requires max > 0 && slots >= 2
      ensures Now() == Mounted(max, slots, nameLen)
    {
      this.max, this.slots, this.nameLen := max, slots, nameLen;
      inodes := map[ROOT := Inode(Dir, 2, NewSlots(Dir, slots, ROOT, ROOT))];
      vnodes := map[ROOT := 1];
    }

    /** The search for a name in a directory. */
    method FindEntry(d: Ino, name: string) returns (r: Option<nat>)
      requires d in inodes
      ensures r == FindName(inodes[d].slots, name)
    {
      var dir := inodes[d].slots;
      for i := 0 to |dir|
        invariant FindName(dir, name) == Shift(FindName(dir[i..], name), i)
      {
        if dir[i].Entry? && dir[i].name == name { return Some(i); }
        assert dir[i..][1..] == dir[i + 1..];
      }
      r := None;
    }

    /** The search for a free slot in a directory. */
    method FindSpace(d: Ino) returns (r: Option<nat>)
      requires d in inodes
      ensures r == FindFree(inodes[d].slots)
    {
      var dir := inodes[d].slots;
      for i := 0 to |dir|
        invariant FindFree(dir) == Shift(FindFree(dir[i..]), i)
      {
        if dir[i].Free? { return Some(i); }
        assert dir[i..][1..] == dir[i + 1..];
      }
      r := None;
    }

    /** The search of ramfs_alloc_inode. */
    method FindIno() returns (r: Option<Ino>)
      ensures r == FreeIno(Now(), 0)
    {
      for i := 0 to max
        invariant FreeIno(Now(), 0) == FreeIno(Now(), i)
      {
        if i !in inodes { return Some(i); }
      }
      r := None;
    }

    /** The emptiness check of ramfs_rmdir. */
    method IsEmpty(d: Ino) returns (r: bool)
      requires d in inodes
      ensures r == Bare(inodes[d].slots)
    {
      var dir := inodes[d].slots;
      for i := 0 to |dir|
        invariant forall k :: 0 <= k < i ==> dir[k].Free? || Dot(dir[k].name)
      {
        if dir[i].Entry? && dir[i].name != "." && dir[i].name != ".." { return false; }
      }
      r := true;
    }

    /** vget. */
    method Get(i: Ino)
      requires i in inodes
      modifies this
      ensures Now() == Vget(old(Now()), i)
      ensures FsInv(old(Now())) ==> FsInv(Now())
      ensures i in vnodes && i in inodes && vnodes[i] == (if i in old(vnodes) then old(vnodes)[i] else 0) + 1
    {
      hide FsInv;
      if FsInv(Now()) { VgetInv(Now(), i); }
      if i in vnodes {
        vnodes := vnodes[i := vnodes[i] + 1];
      } else {
        inodes := inodes[i := inodes[i].(links := inodes[i].links + 1)];
        vnodes := vnodes[i := 1];
      }
    }

    /** vput, with ramfs_delete_vnode when the last reference goes. */
    method Put(i: Ino)
      requires i in inodes && i in vnodes && vnodes[i] > 0
      modifies this
      ensures Now() == Vput(old(Now()), i)
      ensures FsInv(old(Now())) && !FreesNames(old(Now()), i) ==> FsInv(Now())
      ensures FsInv(old(Now())) && FreesNames(old(Now()), i) ==> !CountsRight(Now())
    {
      hide FsInv, Bare, CountsRight;
      if FsInv(Now()) { VputInv(Now(), i); }
      if vnodes[i] > 1 {
        vnodes := vnodes[i := vnodes[i] - 1];
        return;
      }
      inodes := inodes[i := inodes[i].(links := inodes[i].links - 1)];
      if inodes[i].links == 0 {
        inodes := inodes - {i};
        assert inodes == old(inodes) - {i};
      }
      vnodes := vnodes - {i};
    }

    /** The common part of ramfs_create, ramfs_mknod and ramfs_mkdir. */
    method MakeEntry(d: Ino, name: string, kind: Kind) returns (r: Option<Ino>)
      requires d in inodes && slots >= 2
      modifies this`inodes
      ensures (Now(), r) == Make(old(Now()), d, name, kind)
    {
      hide NewSlots;
      FindFreeIs(inodes[d].slots);
      var k := FindSpace(d);
      if k.None? { return None; }
      r := FindIno();
      if r.None? { return; }
      var i := r.value;
      inodes := inodes[d := inodes[d].(slots := inodes[d].slots[k.value := Entry(name, i)])];
      inodes := inodes[i := Inode(kind, 1, NewSlots(kind, slots, i, d))];
    }

    /** ramfs_create. */
    method CreateFile(d: Ino, name: string) returns (r: Result)
      requires Enabled(Now(), Create(d, name))
      modifies this
      ensures (Now(), r) == Apply(old(Now()), Create(d, name))
      ensures FsInv(old(Now())) ==> FsInv(Now())
      ensures r == if HasSpace(old(Now()), d) && HasIno(old(Now())) then Done else NoSpace
      ensures FsInv(old(Now())) && r == Done ==> NewName(old(Now()), Now(), d, name, Data)
    {
      hide FsInv, Make, Vget, Target;
      if FsInv(Now()) { StepExactly(Now(), Create(d, name)); Makes(Now(), Create(d, name), d, name, Data); }
      StepResult(Now(), Create(d, name));
      MakeKeeps(Now(), d, name, Data);
      var i := MakeEntry(d, name, Data);
      if i.None? { return NoSpace; }
      Get(i.value);
      r := Done;
    }

    /** ramfs_mknod. */
    method MakeNode(d: Ino, name: string) returns (r: Result)
      requires Enabled(Now(), Mknod(d, name))
      modifies this
      ensures (Now(), r) == Apply(old(Now()), Mknod(d, name))
      ensures FsInv(old(Now())) ==> FsInv(Now())
      ensures r == if HasSpace(old(Now()), d) && HasIno(old(Now())) then Done else NoSpace
      ensures FsInv(old(Now())) && r == Done ==> NewName(old(Now()), Now(), d, name, Device)
    {
      hide FsInv, Make, Target;
      if FsInv(Now()) { StepExactly(Now(), Mknod(d, name)); Makes(Now(), Mknod(d, name), d, name, Device); }
      StepResult(Now(), Mknod(d, name));
      MakeKeeps(Now(), d, name, Device);
      var i := MakeEntry(d, name, Device);
      r := if i.None? then NoSpace else Done;
    }

    /** ramfs_mkdir. */
    method MakeDir(d: Ino, name: string) returns (r: Result)
      requires Enabled(Now(), Mkdir(d, name))
      modifies this
      ensures (Now(), r) == Apply(old(Now()), Mkdir(d, name))
      ensures FsInv(old(Now())) ==> FsInv(Now())
      ensures r == if HasSpace(old(Now()), d) && HasIno(old(Now())) then Done else NoSpace
      ensures FsInv(old(Now())) && r == Done ==> NewName(old(Now()), Now(), d, name, Dir)
    {
      hide FsInv, Make, Target;
      if FsInv(Now()) { StepExactly(Now(), Mkdir(d, name)); Makes(Now(), Mkdir(d, name), d, name, Dir); }
      StepResult(Now(), Mkdir(d, name));
      MakeKeeps(Now(), d, name, Dir);
      var i := MakeEntry(d, name, Dir);
      r := if i.None? then NoSpace else Done;
    }

    /** ramfs_link. */
    method LinkName(c: Ino, d: Ino, name: string) returns (r: Result)
      requires Enabled(Now(), Link(c, d, name))
      modifies this
      ensures (Now(), r) == Apply(old(Now()), Link(c, d, name))
      ensures FsInv(old(Now())) ==> FsInv(Now())
      ensures r == if HasSpace(old(Now()), d) then Done else NoSpace
      ensures FsInv(old(Now())) && r == Done ==> Look(Now(), d, name) == Some(c) && Links(Now(), c) == Links(old(Now()), c) + 1
    {
      hide FsInv, Target;
      if FsInv(Now()) {
        StepExactly(Now(), Link(c, d, name));
        StepNames(Now(), Link(c, d, name), d, name);
        StepNode(Now(), Link(c, d, name), c);
      }
      StepResult(Now(), Link(c, d, name));
      FindFreeIs(inodes[d].slots);
      var k := FindSpace(d);
      if k.None? { return NoSpace; }
      inodes := inodes[d := inodes[d].(slots := inodes[d].slots[k.value := Entry(name, c)])];
      inodes := inodes[c := inodes[c].(links := inodes[c].links + 1)];
      r := Done;
    }

    /** ramfs_lookup. */
    method LookupName(d: Ino, name: string) returns (r: Option<Ino>)
      requires Enabled(Now(), Lookup(d, name))
      modifies this
      ensures Now() == Apply(old(Now()), Lookup(d, name)).0 && r == Target(old(Now()), d, name)
      ensures FsInv(old(Now())) ==> FsInv(Now())
    {
      hide FsInv, Vget;
      if FsInv(Now()) { StepExactly(Now(), Lookup(d, name)); }
      FindNameIs(inodes[d].slots, name);
      var k := FindEntry(d, name);
      if k.None? { return None; }
      r := Some(inodes[d].slots[k.value].ino);
      Get(r.value);
    }

    /** The last steps of ramfs_unlink and ramfs_rmdir, the looked-up vnode being held. */
    method RemoveEntry(d: Ino, name: string, c: Ino)
      requires d in inodes && c in inodes && c in vnodes && vnodes[c] > 0 && FindName(inodes[d].slots, name).Some?
      requires FindName(inodes[d].slots, name).value < |inodes[d].slots|
      modifies this
      ensures Now() == Vput(Unnamed(old(Now()), d, FindName(old(inodes[d].slots), name).value, c), c)
    {
      hide Vput;
      var k := FindEntry(d, name);
      inodes := inodes[d := inodes[d].(slots := inodes[d].slots[k.value := Free])];
      inodes := inodes[c := inodes[c].(links := inodes[c].links - 1)];
      Put(c);
    }

    /** ramfs_unlink. */
    method UnlinkName(d: Ino, name: string)
      requires Enabled(Now(), Unlink(d, name))
      modifies this
      ensures Now() == Apply(old(Now()), Unlink(d, name)).0
      ensures FsInv(old(Now())) ==> FsInv(Now()) && NameGone(old(Now()), Now(), d, name)
    {
      hide FsInv, Vget, Vput, Unnamed;
      if FsInv(Now()) { StepExactly(Now(), Unlink(d, name)); Unlinks(Now(), Unlink(d, name), d, name); }
      FindNameIs(inodes[d].slots, name);
      ghost var s := Now();
      var k := FindEntry(d, name);
      var c := inodes[d].slots[k.value].ino;
      VgetSlots(s, c);
      Get(c);
      RemoveEntry(d, name, c);
    }

    /** ramfs_rmdir. */
    method RemoveDir(d: Ino, name: string) returns (r: Result)
      requires Enabled(Now(), Rmdir(d, name))
      modifies this
      ensures (Now(), r) == Apply(old(Now()), Rmdir(d, name))
      ensures FsInv(old(Now())) ==> FsInv(Now())
      ensures r == NotFound <==> Look(old(Now()), d, name).None?
      ensures r == NotDir <==> !r.NotFound? && KindAt(old(Now()), Look(old(Now()), d, name).value) != Some(Dir)
      ensures r == NotEmpty <==> !r.NotFound? && !r.NotDir? && !Empty(old(Now()), Look(old(Now()), d, name).value)
      ensures FsInv(old(Now())) && r == Done ==> NameGone(old(Now()), Now(), d, name)
    {
      hide FsInv, Vget, Vput, Unnamed, Bare;
      if FsInv(Now()) { StepExactly(Now(), Rmdir(d, name)); Unlinks(Now(), Rmdir(d, name), d, name); }
      StepResult(Now(), Rmdir(d, name));
      FindNameIs(inodes[d].slots, name);
      ghost var s := Now();
      var k := FindEntry(d, name);
      if k.None? { return NotFound; }
      var c := inodes[d].slots[k.value].ino;
      VgetSlots(s, c);
      VgetKinds(s, c);
      Get(c);
      if inodes[c].kind != Dir {
        Put(c);
        return NotDir;
      }
      var empty := IsEmpty(c);
      if !empty {
        Put(c);
        return NotEmpty;
      }
      RemoveEntry(d, name, c);
      r := Done;
    }
  }

  /** The name stands for a new inode, the first whose number was free, and no other name is touched. */
  ghost predicate NewName(s: Fs, e: Fs, p: Ino, name: string, kind: Kind) {
    && FreeIno(s, 0).Some? && Look(e, p, name) == FreeIno(s, 0) && KindAt(e, FreeIno(s, 0).value) == Some(kind)
    && forall d, n :: (d != p || n != name) && FreeIno(s, 0) != Some(d) ==> Look(e, d, n) == Look(s, d, n)
  }

  /** The name is gone, and with it one link of what it stood for; the inode goes with its last link. */
  ghost predicate NameGone(s: Fs, e: Fs, p: Ino, name: string) {
    && Look(s, p, name).Some? && Look(e, p, name).None?
    && var c := Look(s, p, name).value;
    && Links(e, c) == Links(s, c) - 1 && (c in e.inodes <==> Links(s, c) > 1)
    && forall d, n :: (d != p || n != name) && d in e.inodes ==> Look(e, d, n) == Look(s, d, n)
  }

  lemma Makes(s: Fs, a: Action, d: Ino, name: string, kind: Kind)
    requires FsInv(s) && Enabled(s, a) && (a == Create(d, name) || a == Mknod(d, name) || a == Mkdir(d, name))
    requires kind == match a case Create(_, _) => Data case Mknod(_, _) => Device case _ => Dir
    ensures Apply(s, a).1 == Done ==> NewName(s, Apply(s, a).0, d, name, kind)
  {
    hide FsInv, Make, Look, FreeIno, Apply, Enabled;
    if Apply(s, a).1 == Done {
      SomeIno(s, a);
      StepNode(s, a, FreeIno(s, 0).value);
      forall p, n ensures Look(Apply(s, a).0, p, n) == NameAfter(s, a, true, p, n) { StepNames(s, a, p, n); }
    }
  }

  lemma SomeIno(s: Fs, a: Action)
    requires FsInv(s) && Enabled(s, a) && (a.Create? || a.Mknod? || a.Mkdir?) && Apply(s, a).1 == Done
    ensures FreeIno(s, 0).Some?
  {
    hide FsInv, Target, FindFree, FreeIno, Made, Vget;
  }

  lemma Unlinks(s: Fs, a: Action, d: Ino, name: string)
    requires FsInv(s) && Enabled(s, a) && (a == Unlink(d, name) || a == Rmdir(d, name))
    ensures Apply(s, a).1 == Done ==> NameGone(s, Apply(s, a).0, d, name)
  {
    hide FsInv, Look, Apply;
    if Apply(s, a).1 == Done {
      StepResult(s, a);
      Known(s, a, d, name);
      StepNode(s, a, Look(s, d, name).value);
      LinksPositive(s, Look(s, d, name).value);
      forall p, n ensures Look(Apply(s, a).0, p, n) == NameAfter(s, a, true, p, n) { StepNames(s, a, p, n); }
    }
  }

  lemma Known(s: Fs, a: Action, d: Ino, name: string)
    requires Enabled(s, a) && (a == Unlink(d, name) || (a == Rmdir(d, name) && Look(s, d, name).Some?))
    ensures Look(s, d, name).Some? && Look(s, d, name).value in s.inodes
  {
    hide Dot;
  }

  function Shift(r: Option<nat>, i: nat): Option<nat> {
    match r case None => None case Some(k) => Some(k + i)
  }

  lemma MakeKeeps(s: Fs, d: Ino, name: string, kind: Kind)
    requires d in s.inodes && s.slots >= 2
    ensures Make(s, d, name, kind).1.None? ==> Make(s, d, name, kind).0 == s
    ensures Make(s, d, name, kind).1.Some? ==> Make(s, d, name, kind).1.value in Make(s, d, name, kind).0.inodes
  {
  }

  lemma VgetKinds(s: Fs, c: Ino)
    requires c in s.inodes
    ensures c in Vget(s, c).inodes && Vget(s, c).inodes[c].kind == s.inodes[c].kind
  {
  }
}
