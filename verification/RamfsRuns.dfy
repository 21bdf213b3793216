/**
 * The file system's operations and every run of them
 * (kernel/fs/ramfs/ramfs.c:306-563, kernel/fs/vnode.c:109-298).
 */
module RamfsRuns {
  import opened Basics
  import opened Ramfs

  datatype Action =
    | Create(d: Ino, name: string)
    | Mknod(d: Ino, name: string)
    | Mkdir(d: Ino, name: string)
    | Link(c: Ino, d: Ino, name: string)
    | Lookup(d: Ino, name: string)
    | Unlink(d: Ino, name: string)
    | Rmdir(d: Ino, name: string)
    | Reference(i: Ino)
    | Release(i: Ino)

  /** The caller has a vnode of directory d, and the name is neither empty nor cut off. */
  predicate DirOk(s: Fs, d: Ino, name: string) {
    d in s.vnodes && d in s.inodes && s.inodes[d].kind == Dir && 0 < |name| < s.nameLen && s.slots >= 2
  }

  /** The inode that a name in a directory stands for. */
  function Target(s: Fs, d: Ino, name: string): Option<Ino>
    requires d in s.inodes
  {
    FindNameIs(s.inodes[d].slots, name);
    match FindName(s.inodes[d].slots, name) case None => None case Some(k) => Some(s.inodes[d].slots[k].ino)
  }

  /** The assertions that the operations make. */
  ghost predicate Enabled(s: Fs, a: Action) {
    match a
    case Create(d, name) => DirOk(s, d, name) && Target(s, d, name).None?
    case Mknod(d, name) => DirOk(s, d, name) && Target(s, d, name).None?
    case Mkdir(d, name) => DirOk(s, d, name) && Target(s, d, name).None?
    case Link(c, d, name) => DirOk(s, d, name) && Target(s, d, name).None? && c in s.vnodes && c in s.inodes
    case Lookup(d, name) => DirOk(s, d, name) && (Target(s, d, name).Some? ==> Target(s, d, name).value in s.inodes)
    case Unlink(d, name) => DirOk(s, d, name) && !Dot(name) && Target(s, d, name).Some? && Target(s, d, name).value in s.inodes
                            && s.inodes[Target(s, d, name).value].kind != Dir
    case Rmdir(d, name) => DirOk(s, d, name) && !Dot(name) && (Target(s, d, name).Some? ==> Target(s, d, name).value in s.inodes)
    case Reference(i) => i in s.vnodes && i in s.inodes && s.vnodes[i] > 0
    case Release(i) => i in s.vnodes && i in s.inodes && s.vnodes[i] > 0
  }

  /** The step drops the last reference to a removed directory in which there are names. */
  predicate Loses(s: Fs, a: Action) { a.Release? && FreesNames(s, a.i) }

  datatype Result = Done | NoSpace | NotFound | NotDir | NotEmpty

  /** Create, mknod and mkdir up to their last step: a new inode with a name in d. */
  function Make(s: Fs, d: Ino, name: string, kind: Kind): (Fs, Option<Ino>)
    requires d in s.inodes && s.slots >= 2
  {
    FindFreeIs(s.inodes[d].slots);
    match FindFree(s.inodes[d].slots)
    case None => (s, None)
    case Some(k) =>
      match FreeIno(s, 0)
      case None => (s, None)
      case Some(i) => (Made(s, d, k, name, i, kind), Some(i))
  }

  /** The end of ramfs_unlink and ramfs_rmdir, with the reference that the lookup took. */
  function Drop(s: Fs, d: Ino, k: nat, c: Ino): Fs
    requires d in s.inodes && k < |s.inodes[d].slots| && c in s.inodes
  {
    Vput(Unnamed(Vget(s, c), d, k, c), c)
  }

  /** A lookup that is given up at once: the reference is taken and dropped. */
  function Peek(s: Fs, c: Ino): Fs
    requires c in s.inodes
  {
    Vput(Vget(s, c), c)
  }

  function LinkTo(s: Fs, c: Ino, d: Ino, name: string): (Fs, Result)
    requires d in s.inodes && c in s.inodes
  {
    FindFreeIs(s.inodes[d].slots);
    match FindFree(s.inodes[d].slots)
    case None => (s, NoSpace)
    case Some(k) => (Named(s, d, k, name, c), Done)
  }

  function UnlinkFrom(s: Fs, d: Ino, name: string): Fs
    requires d in s.inodes && Target(s, d, name).Some? && Target(s, d, name).value in s.inodes
  {
    FindNameIs(s.inodes[d].slots, name);
    Drop(s, d, FindName(s.inodes[d].slots, name).value, Target(s, d, name).value)
  }

  function RmdirFrom(s: Fs, d: Ino, name: string): (Fs, Result)
    requires d in s.inodes && (Target(s, d, name).Some? ==> Target(s, d, name).value in s.inodes)
  {
    if Target(s, d, name).None? then (s, NotFound)
    else
      var c := Target(s, d, name).value;
      if s.inodes[c].kind != Dir then (Peek(s, c), NotDir)
      else if !Bare(s.inodes[c].slots) then (Peek(s, c), NotEmpty)
      else (UnlinkFrom(s, d, name), Done)
  }

  function Apply(s: Fs, a: Action): (Fs, Result)
    requires Enabled(s, a)
  {
    match a
    case Create(d, name) =>
      var (s1, i) := Make(s, d, name, Data);
      if i.None? then (s, NoSpace) else (Vget(s1, i.value), Done)
    case Mknod(d, name) =>
      var (s1, i) := Make(s, d, name, Device);
      if i.None? then (s, NoSpace) else (s1, Done)
    case Mkdir(d, name) =>
      var (s1, i) := Make(s, d, name, Dir);
      if i.None? then (s, NoSpace) else (s1, Done)
    case Link(c, d, name) => LinkTo(s, c, d, name)
    case Lookup(d, name) =>
      if Target(s, d, name).None? then (s, NotFound) else (Vget(s, Target(s, d, name).value), Done)
    case Unlink(d, name) => (UnlinkFrom(s, d, name), Done)
    case Rmdir(d, name) => RmdirFrom(s, d, name)
    case Reference(i) => (s.(vnodes := s.vnodes[i := s.vnodes[i] + 1]), Done)
    case Release(i) => (Vput(s, i), Done)
  }

  // -------------------------------------------------------------------- steps

  /** A name that is not in a directory is not one of the dots. */
  lemma NotDot(s: Fs, d: Ino, name: string)
    requires FsInv(s) && DirOk(s, d, name) && Target(s, d, name).None?
    ensures !Dot(name) && !HasEntry(s.inodes[d].slots, name)
  {
    At(s, d);
    FindNameIs(s.inodes[d].slots, name);
    hide FsInv, LinksOk, FindName, OneEach;
  }

  lemma MakeInvariant(s: Fs, d: Ino, name: string, kind: Kind)
    requires FsInv(s) && DirOk(s, d, name) && Target(s, d, name).None?
    ensures FsInv(Make(s, d, name, kind).0)
    ensures Make(s, d, name, kind).1.Some? ==> Make(s, d, name, kind).1.value in Make(s, d, name, kind).0.inodes
  {
    hide FsInv, Dot, Target, FindFree, FreeIno, HasEntry;
    NotDot(s, d, name);
    FindFreeIs(s.inodes[d].slots);
    FreeInoIs(s, 0);
    if FindFree(s.inodes[d].slots).Some? && FreeIno(s, 0).Some? {
      MadeInv(s, d, FindFree(s.inodes[d].slots).value, name, FreeIno(s, 0).value, kind);
    }
  }

  lemma LinkInvariant(s: Fs, c: Ino, d: Ino, name: string)
    requires FsInv(s) && Enabled(s, Link(c, d, name))
    ensures FsInv(LinkTo(s, c, d, name).0)
  {
    hide FsInv, Dot, Target, FindFree, HasEntry;
    NotDot(s, d, name);
    FindFreeIs(s.inodes[d].slots);
    if FindFree(s.inodes[d].slots).Some? { NamedInv(s, d, FindFree(s.inodes[d].slots).value, name, c); }
  }

  lemma VgetSlots(s: Fs, c: Ino)
    requires c in s.inodes
    ensures Vget(s, c).inodes.Keys == s.inodes.Keys && c in Vget(s, c).vnodes && Vget(s, c).vnodes[c] > 0
    ensures forall d :: d in s.inodes ==> Vget(s, c).inodes[d].slots == s.inodes[d].slots
  {
  }

  lemma DropInvariant(s: Fs, d: Ino, k: nat, c: Ino)
    requires FsInv(s) && IsName(s, c, d, k) && c in s.inodes && Bare(s.inodes[c].slots)
    ensures FsInv(Drop(s, d, k, c))
  {
    hide FsInv, Vget, Vput, Dot;
    VgetInv(s, c);
    VgetSlots(s, c);
    UnnamedInv(Vget(s, c), d, k, c);
    VputInv(Unnamed(Vget(s, c), d, k, c), c);
  }

  /** An inode that is only looked at is not freed. */
  lemma PeekInvariant(s: Fs, c: Ino)
    requires FsInv(s) && c in s.inodes
    ensures FsInv(Peek(s, c))
  {
    hide FsInv, Vput, Bare;
    VgetInv(s, c);
    LinksPositive(s, c);
    VnodesAt(s);
    VputInv(Vget(s, c), c);
  }

  lemma UnlinkInvariant(s: Fs, d: Ino, name: string)
    requires FsInv(s) && d in s.inodes && !Dot(name) && Target(s, d, name).Some? && Target(s, d, name).value in s.inodes
    requires Bare(s.inodes[Target(s, d, name).value].slots)
    ensures FsInv(UnlinkFrom(s, d, name))
  {
    hide FsInv, Bare, Drop, Dot;
    FindNameIs(s.inodes[d].slots, name);
    DropInvariant(s, d, FindName(s.inodes[d].slots, name).value, Target(s, d, name).value);
  }

  /** What is not a directory has no slots. */
  lemma FileBare(s: Fs, c: Ino)
    requires FsInv(s) && c in s.inodes && s.inodes[c].kind != Dir
    ensures Bare(s.inodes[c].slots)
  {
    At(s, c);
    hide FsInv, LinksOk;
  }

  lemma RmdirInvariant(s: Fs, d: Ino, name: string)
    requires FsInv(s) && Enabled(s, Rmdir(d, name))
    ensures FsInv(RmdirFrom(s, d, name).0)
  {
    hide FsInv, Bare, Peek, UnlinkFrom, Target, Dot;
    if Target(s, d, name).Some? {
      var c := Target(s, d, name).value;
      PeekInvariant(s, c);
      if s.inodes[c].kind == Dir && Bare(s.inodes[c].slots) { UnlinkInvariant(s, d, name); }
    }
  }

  lemma ReferenceInvariant(s: Fs, i: Ino)
    requires FsInv(s) && Enabled(s, Reference(i))
    ensures FsInv(Apply(s, Reference(i)).0)
  {
    hide FsInv;
    VgetInv(s, i);
  }

  /**
   * Every operation, on any directory, removed or not, keeps the link counts
   * right exactly when it does not free a directory with names in it.
   */
  lemma StepExactly(s: Fs, a: Action)
    requires FsInv(s) && Enabled(s, a)
    ensures !Loses(s, a) ==> FsInv(Apply(s, a).0)
    ensures Loses(s, a) ==> !CountsRight(Apply(s, a).0)
  {
    hide FsInv, CountsRight, Make, LinkTo, UnlinkFrom, RmdirFrom, Vput, Vget, Target, Bare, Dot, FreesNames;
    match a
    case Create(d, name) =>
      MakeInvariant(s, d, name, Data);
      var (s1, i) := Make(s, d, name, Data);
      if i.Some? { VgetInv(s1, i.value); }
    case Mknod(d, name) => MakeInvariant(s, d, name, Device);
    case Mkdir(d, name) => MakeInvariant(s, d, name, Dir);
    case Link(c, d, name) => LinkInvariant(s, c, d, name);
    case Lookup(d, name) => if Target(s, d, name).Some? { VgetInv(s, Target(s, d, name).value); }
    case Unlink(d, name) =>
      FileBare(s, Target(s, d, name).value);
      UnlinkInvariant(s, d, name);
    case Rmdir(d, name) => RmdirInvariant(s, d, name);
    case Reference(i) => ReferenceInvariant(s, i);
    case Release(i) => VputInv(s, i);
  }

  /** Every name but ".." stands for an inode in the table. */
  lemma TargetKnown(s: Fs, d: Ino, name: string)
    requires FsInv(s) && DirOk(s, d, name) && name != ".." && Target(s, d, name).Some?
    ensures Target(s, d, name).value in s.inodes
  {
    hide FsInv, LinksOk, HasDots, OneEach, FindName;
    At(s, d);
    VnodesAt(s);
    FindNameIs(s.inodes[d].slots, name);
    var k := FindName(s.inodes[d].slots, name).value;
    if name != "." { assert IsName(s, Target(s, d, name).value, d, k); }
  }

  ghost predicate Legal(s: Fs, acts: seq<Action>)
    decreases |acts|
  {
    acts != [] ==> Enabled(s, acts[0]) && Legal(Apply(s, acts[0]).0, acts[1..])
  }

  ghost function Run(s: Fs, acts: seq<Action>): Fs
    requires Legal(s, acts)
    decreases |acts|
  {
    if acts == [] then s else Run(Apply(s, acts[0]).0, acts[1..])
  }

  /** No step of the run loses a name. */
  ghost predicate NoneLost(s: Fs, acts: seq<Action>)
    requires Legal(s, acts)
    decreases |acts|
  {
    acts != [] ==> !Loses(s, acts[0]) && NoneLost(Apply(s, acts[0]).0, acts[1..])
  }

  lemma {:induction false} RunInv(s: Fs, acts: seq<Action>)
    requires FsInv(s) && Legal(s, acts) && NoneLost(s, acts)
    ensures FsInv(Run(s, acts))
    decreases |acts|
  {
    if acts != [] {
      hide FsInv, Enabled, Apply, Loses;
      StepExactly(s, acts[0]);
      RunInv(Apply(s, acts[0]).0, acts[1..]);
    }
  }

  /** The link counts are right in every state of the run. */
  ghost predicate AlwaysRight(s: Fs, acts: seq<Action>)
    requires Legal(s, acts)
    decreases |acts|
  {
    CountsRight(s) && (acts != [] ==> AlwaysRight(Apply(s, acts[0]).0, acts[1..]))
  }

  /** The exact condition: the link counts are right throughout a run if and only if no step frees a directory with names in it. */
  lemma {:induction false} RunExactly(s: Fs, acts: seq<Action>)
    requires FsInv(s) && Legal(s, acts)
    ensures AlwaysRight(s, acts) <==> NoneLost(s, acts)
    decreases |acts|
  {
    hide Enabled, Apply, Loses, LinksOk, InodeOk, NamesExist;
    if acts != [] {
      StepExactly(s, acts[0]);
      if !Loses(s, acts[0]) { RunExactly(Apply(s, acts[0]).0, acts[1..]); }
    }
  }

  /** ramfs_mount: the root with its two entries, and its vnode in core. */
  function Mounted(max: nat, slots: nat, nameLen: nat): Fs
    requires max > 0 && slots >= 2
  {
    Fs(max, slots, nameLen, map[ROOT := Inode(Dir, 2, NewSlots(Dir, slots, ROOT, ROOT))], map[ROOT := 1])
  }

  lemma MountedInv(max: nat, slots: nat, nameLen: nat)
    requires max > 0 && slots >= 2
    ensures FsInv(Mounted(max, slots, nameLen))
  {
    var s := Mounted(max, slots, nameLen);
    NewSlotsBare(Dir, slots, ROOT, ROOT);
    forall i: Ino, d: Ino, k: nat ensures !IsName(s, i, d, k) {}
    assert Names(s, ROOT) == {} by {
      forall d: Ino, k: nat ensures (d, k) !in Names(s, ROOT) { NameIn(s, ROOT, d, k); }
    }
    hide NewSlots, HasDots, OneEach, SelfDot;
  }

  /**
   * In every state of every run from the mount that frees no directory with
   * names in it, whatever is added where: the link count of an inode is
   * the number of its names, plus one for a vnode in core and one for the
   * root; and an inode number is free exactly when it has no name, no vnode
   * and is not the root.
   */
  lemma LinkCounts(max: nat, slots: nat, nameLen: nat, acts: seq<Action>, i: Ino)
    requires max > 0 && slots >= 2 && Legal(Mounted(max, slots, nameLen), acts) && NoneLost(Mounted(max, slots, nameLen), acts)
    ensures var e := Run(Mounted(max, slots, nameLen), acts);
      && (i in e.inodes ==>
            e.inodes[i].links == |Names(e, i)| + (if i in e.vnodes then 1 else 0) + (if i == ROOT then 1 else 0))
      && (i in e.inodes <==> Names(e, i) != {} || i in e.vnodes || i == ROOT)
  {
    hide FsInv, Mounted, Names;
    MountedInv(max, slots, nameLen);
    RunInv(Mounted(max, slots, nameLen), acts);
    var e := Run(Mounted(max, slots, nameLen), acts);
    FreedExactly(e, i);
    if i in e.inodes { At(e, i); }
  }
}
