/**
 * The in-memory file system: an inode table, directories of named slots, link
 * counts and the vnodes in core (kernel/fs/ramfs/ramfs.c, kernel/fs/vnode.c).
 */
module Ramfs {
  import opened Basics

  type Ino = nat

  const ROOT: Ino := 0

  datatype Kind = Data | Dir | Device

  /** A directory slot; a name that begins with the null character marks it free. */
  datatype Slot = Free | Entry(name: string, ino: Ino)

  datatype Inode = Inode(kind: Kind, links: int, slots: seq<Slot>)

  /**
   * max is RAMFS_MAX_FILES, slots RAMFS_MAX_DIRENT and nameLen NAME_LEN;
   * vnodes gives the reference counts of the vnodes in core.
   */
  datatype Fs = Fs(max: nat, slots: nat, nameLen: nat, inodes: map<Ino, Inode>, vnodes: map<Ino, nat>)

  predicate Dot(name: string) { name == "." || name == ".." }

  // ------------------------------------------------------------------- names

  /** Slot k of directory d is a name, other than "." and "..", of inode i. */
  predicate IsName(s: Fs, i: Ino, d: Ino, k: nat) {
    && d in s.inodes && k < |s.inodes[d].slots| && s.inodes[d].slots[k].Entry?
    && !Dot(s.inodes[d].slots[k].name) && s.inodes[d].slots[k].ino == i
  }

  /** All the names of inode i, as directory and slot. */
  ghost function Names(s: Fs, i: Ino): set<(Ino, nat)> {
    set d, k: nat | d in s.inodes && 0 <= k < |s.inodes[d].slots| && IsName(s, i, d, k) :: (d, k)
  }

  lemma NameIn(s: Fs, i: Ino, d: Ino, k: nat)
    ensures (d, k) in Names(s, i) <==> IsName(s, i, d, k)
  {
  }

  // --------------------------------------------------------------- invariant

  /** The link count: the names, one for a vnode in core, one for the root. */
  ghost predicate LinksOk(s: Fs, i: Ino)
    requires i in s.inodes
  {
    && s.inodes[i].links == |Names(s, i)| + (if i in s.vnodes then 1 else 0) + (if i == ROOT then 1 else 0)
    && s.inodes[i].links >= 1
  }

  /** Every link count is right. */
  ghost predicate CountsRight(s: Fs) { forall i :: i in s.inodes ==> LinksOk(s, i) }

  ghost predicate HasDots(slots: seq<Slot>) {
    && (exists k :: 0 <= k < |slots| && slots[k].Entry? && slots[k].name == ".")
    && (exists k :: 0 <= k < |slots| && slots[k].Entry? && slots[k].name == "..")
  }

  /** No two entries have the same name. */
  ghost predicate OneEach(slots: seq<Slot>) {
    forall i, j :: 0 <= i < j < |slots| && slots[i].Entry? && slots[j].Entry? ==> slots[i].name != slots[j].name
  }

  predicate HasEntry(slots: seq<Slot>, name: string) {
    exists k :: 0 <= k < |slots| && slots[k].Entry? && slots[k].name == name
  }

  /** The entry "." is the directory's own. */
  ghost predicate SelfDot(slots: seq<Slot>, i: Ino) {
    forall k :: 0 <= k < |slots| && slots[k].Entry? && slots[k].name == "." ==> slots[k].ino == i
  }

  /** A directory has its two dot entries, "." its own, and no name twice; anything else has no slots. */
  ghost predicate InodeOk(s: Fs, i: Ino)
    requires i in s.inodes
  {
    && i < s.max
    && var slots := s.inodes[i].slots;
    && (if s.inodes[i].kind == Dir then |slots| == s.slots && HasDots(slots) && OneEach(slots) && SelfDot(slots, i)
        else slots == [])
  }

  /** No name but the dots. */
  predicate Bare(slots: seq<Slot>) {
    forall k :: 0 <= k < |slots| ==> slots[k].Free? || Dot(slots[k].name)
  }

  /** Every name names an inode. */
  ghost predicate NamesExist(s: Fs) {
    forall i: Ino, d: Ino, k: nat :: IsName(s, i, d, k) ==> i in s.inodes
  }

  ghost predicate FsInv(s: Fs) {
    && ROOT in s.inodes && s.inodes[ROOT].kind == Dir
    && s.vnodes.Keys <= s.inodes.Keys && (forall i :: i in s.vnodes ==> s.vnodes[i] > 0)
    && (forall i :: i in s.inodes ==> LinksOk(s, i) && InodeOk(s, i))
    && NamesExist(s)
  }

  /** An inode is in the table exactly when it has a name, has a vnode in core, or is the root. */
  lemma FreedExactly(s: Fs, i: Ino)
    requires FsInv(s)
    ensures i in s.inodes <==> Names(s, i) != {} || i in s.vnodes || i == ROOT
  {
    if i in s.inodes { assert LinksOk(s, i); }
    if p :| p in Names(s, i) { NameIn(s, i, p.0, p.1); }
  }

  // -------------------------------------------------------------- operations

  function SetInode(s: Fs, i: Ino, n: Inode): Fs { s.(inodes := s.inodes[i := n]) }

  function AddLinks(s: Fs, i: Ino, d: int): Fs
    requires i in s.inodes
  {
    SetInode(s, i, s.inodes[i].(links := s.inodes[i].links + d))
  }

  /** vget: a reference to the vnode, which is read in if it is not in core. */
  function Vget(s: Fs, i: Ino): Fs
    requires i in s.inodes
  {
    if i in s.vnodes then s.(vnodes := s.vnodes[i := s.vnodes[i] + 1])
    else AddLinks(s, i, 1).(vnodes := s.vnodes[i := 1])
  }

  /** vput: when the last reference goes so does the vnode, and with its last link the inode. */
  function Vput(s: Fs, i: Ino): Fs
    requires i in s.inodes && i in s.vnodes && s.vnodes[i] > 0
  {
    if s.vnodes[i] > 1 then s.(vnodes := s.vnodes[i := s.vnodes[i] - 1])
    else if s.inodes[i].links == 1 then s.(vnodes := s.vnodes - {i}, inodes := s.inodes - {i})
    else AddLinks(s, i, -1).(vnodes := s.vnodes - {i})
  }

  function SetSlot(s: Fs, d: Ino, k: nat, e: Slot): Fs
    requires d in s.inodes && k < |s.inodes[d].slots|
  {
    SetInode(s, d, s.inodes[d].(slots := s.inodes[d].slots[k := e]))
  }

  /** The first slot with the given name. */
  function FindName(slots: seq<Slot>, name: string): Option<nat> {
    if slots == [] then None
    else if slots[0].Entry? && slots[0].name == name then Some(0)
    else match FindName(slots[1..], name) case None => None case Some(k) => Some(k + 1)
  }

  /** The first free slot. */
  function FindFree(slots: seq<Slot>): Option<nat> {
    if slots == [] then None
    else if slots[0].Free? then Some(0)
    else match FindFree(slots[1..]) case None => None case Some(k) => Some(k + 1)
  }

  /** The first free inode number from i on. */
  function FreeIno(s: Fs, i: nat): Option<Ino>
    requires i <= s.max
    decreases s.max - i
  {
    if i == s.max then None else if i !in s.inodes then Some(i) else FreeIno(s, i + 1)
  }

  lemma {:induction false} FindNameIs(slots: seq<Slot>, name: string)
    ensures var r := FindName(slots, name);
      && (r.Some? ==> r.value < |slots| && slots[r.value].Entry? && slots[r.value].name == name)
      && (r.None? ==> forall k :: 0 <= k < |slots| ==> slots[k].Free? || slots[k].name != name)
  {
    if slots != [] { FindNameIs(slots[1..], name); }
  }

  lemma {:induction false} FindFreeIs(slots: seq<Slot>)
    ensures var r := FindFree(slots);
      && (r.Some? ==> r.value < |slots| && slots[r.value].Free?)
      && (r.None? ==> forall k :: 0 <= k < |slots| ==> slots[k].Entry?)
  {
    if slots != [] { FindFreeIs(slots[1..]); }
  }

  lemma {:induction false} FreeInoIs(s: Fs, i: nat)
    requires i <= s.max
    ensures var r := FreeIno(s, i);
      && (r.Some? ==> i <= r.value < s.max && r.value !in s.inodes && forall j :: i <= j < r.value ==> j in s.inodes)
      && (r.None? ==> forall j :: i <= j < s.max ==> j in s.inodes)
    decreases s.max - i
  {
    if i < s.max && i in s.inodes { FreeInoIs(s, i + 1); }
  }

  // ------------------------------------------------------- how names change

  /** Tables whose directories have the same slots have the same names. */
  lemma SameNames(s: Fs, s': Fs, i: Ino)
    requires s'.inodes.Keys == s.inodes.Keys && forall d :: d in s.inodes ==> s'.inodes[d].slots == s.inodes[d].slots
    ensures Names(s', i) == Names(s, i)
  {
    forall d: Ino, k: nat ensures (d, k) in Names(s', i) <==> (d, k) in Names(s, i) {
      NameIn(s, i, d, k);
      NameIn(s', i, d, k);
    }
  }

  /** A free slot becomes a name of c. */
  lemma AddedNames(s: Fs, d: Ino, k: nat, name: string, c: Ino, i: Ino)
    requires d in s.inodes && k < |s.inodes[d].slots| && s.inodes[d].slots[k].Free? && !Dot(name)
    ensures Names(SetSlot(s, d, k, Entry(name, c)), i) == if i == c then Names(s, i) + {(d, k)} else Names(s, i)
    ensures (d, k) !in Names(s, i)
  {
    var s' := SetSlot(s, d, k, Entry(name, c));
    NameIn(s, i, d, k);
    forall e: Ino, j: nat ensures (e, j) in Names(s', i) <==> (e, j) in Names(s, i) || (i == c && (e, j) == (d, k)) {
      NameIn(s, i, e, j);
      NameIn(s', i, e, j);
    }
    hide Names, Dot;
  }

  /** A name of c becomes a free slot. */
  lemma RemovedNames(s: Fs, d: Ino, k: nat, c: Ino, i: Ino)
    requires IsName(s, c, d, k)
    ensures Names(SetSlot(s, d, k, Free), i) == if i == c then Names(s, i) - {(d, k)} else Names(s, i)
    ensures (d, k) in Names(s, i) <==> i == c
  {
    var s' := SetSlot(s, d, k, Free);
    NameIn(s, i, d, k);
    forall e: Ino, j: nat ensures (e, j) in Names(s', i) <==> (e, j) in Names(s, i) && !(i == c && (e, j) == (d, k)) {
      NameIn(s, i, e, j);
      NameIn(s', i, e, j);
    }
    hide Names, Dot;
  }

  /** A new inode without names in it changes no names. */
  lemma NewNames(s: Fs, j: Ino, n: Inode, i: Ino)
    requires j !in s.inodes && Bare(n.slots)
    ensures Names(SetInode(s, j, n), i) == Names(s, i)
  {
    var s' := SetInode(s, j, n);
    forall e: Ino, k: nat ensures (e, k) in Names(s', i) <==> (e, k) in Names(s, i) {
      NameIn(s, i, e, k);
      NameIn(s', i, e, k);
    }
    hide Names, Dot;
  }

  /** Nor does taking such an inode out of the table. */
  lemma GoneNames(s: Fs, s': Fs, j: Ino, i: Ino)
    requires j in s.inodes && Bare(s.inodes[j].slots) && s'.inodes == s.inodes - {j}
    ensures Names(s', i) == Names(s, i)
  {
    forall e: Ino, k: nat ensures (e, k) in Names(s', i) <==> (e, k) in Names(s, i) {
      NameIn(s, i, e, k);
      NameIn(s', i, e, k);
    }
    hide Names, Dot;
  }

  // ------------------------------------------------------------------ vnodes

  lemma At(s: Fs, i: Ino)
    requires FsInv(s) && i in s.inodes
    ensures LinksOk(s, i) && InodeOk(s, i)
  {
  }

  ghost predicate VnodesOk(s: Fs) {
    && ROOT in s.inodes && s.inodes[ROOT].kind == Dir
    && s.vnodes.Keys <= s.inodes.Keys && (forall i :: i in s.vnodes ==> s.vnodes[i] > 0)
  }

  lemma VnodesAt(s: Fs)
    requires FsInv(s)
    ensures VnodesOk(s) && NamesExist(s)
  {
  }

  lemma MakeInv(s: Fs)
    requires VnodesOk(s) && NamesExist(s) && forall i :: i in s.inodes ==> LinksOk(s, i) && InodeOk(s, i)
    ensures FsInv(s)
  {
  }

  /** The links of i follow its vnode; everything else about i is as before. */
  ghost predicate SameBut(s: Fs, s': Fs, i: Ino)
    requires i in s.inodes && i in s'.inodes
  {
    && s'.inodes[i].slots == s.inodes[i].slots && s'.inodes[i].kind == s.inodes[i].kind && s'.inodes[i].links >= 1
    && s'.inodes[i].links - (if i in s'.vnodes then 1 else 0) == s.inodes[i].links - (if i in s.vnodes then 1 else 0)
  }

  lemma SameAt(s: Fs, s': Fs, i: Ino)
    requires i in s.inodes && i in s'.inodes && LinksOk(s, i) && InodeOk(s, i) && SameBut(s, s', i)
    requires Names(s', i) == Names(s, i) && s'.max == s.max && s'.slots == s.slots
    ensures LinksOk(s', i) && InodeOk(s', i)
  {
    hide Names, HasDots, OneEach, SelfDot;
  }

  lemma SameExist(s: Fs, s': Fs)
    requires NamesExist(s) && s'.inodes.Keys == s.inodes.Keys && forall d :: d in s.inodes ==> s'.inodes[d].slots == s.inodes[d].slots
    ensures NamesExist(s')
  {
    forall i: Ino, d: Ino, k: nat | IsName(s', i, d, k) ensures i in s'.inodes { assert IsName(s, i, d, k); }
  }

  /** Only the counts change. */
  lemma CountsOnly(s: Fs, s': Fs)
    requires FsInv(s) && s'.max == s.max && s'.slots == s.slots && s'.inodes.Keys == s.inodes.Keys && VnodesOk(s')
    requires forall i :: i in s.inodes ==> SameBut(s, s', i)
    ensures FsInv(s')
  {
    hide FsInv, Names, LinksOk, InodeOk, NamesExist, VnodesOk;
    VnodesAt(s);
    forall i | i in s'.inodes ensures LinksOk(s', i) && InodeOk(s', i) {
      At(s, i);
      SameNames(s, s', i);
      SameAt(s, s', i);
    }
    SameExist(s, s');
    MakeInv(s');
  }

  lemma LinksPositive(s: Fs, i: Ino)
    requires FsInv(s) && i in s.inodes
    ensures s.inodes[i].links >= 1
  {
    At(s, i);
    hide FsInv, Names;
  }

  lemma VgetInv(s: Fs, i: Ino)
    requires FsInv(s) && i in s.inodes
    ensures FsInv(Vget(s, i)) && i in Vget(s, i).vnodes && i in Vget(s, i).inodes
  {
    hide FsInv, NamesExist;
    VnodesAt(s);
    var s' := Vget(s, i);
    forall j | j in s.inodes ensures SameBut(s, s', j) { LinksPositive(s, j); }
    CountsOnly(s, s');
  }

  /** Dropping a reference that is not the last link's. */
  lemma VputKept(s: Fs, i: Ino)
    requires FsInv(s) && i in s.vnodes && i in s.inodes && s.vnodes[i] > 0 && !(s.vnodes[i] == 1 && s.inodes[i].links == 1)
    ensures FsInv(Vput(s, i))
  {
    hide FsInv, NamesExist;
    VnodesAt(s);
    var s' := Vput(s, i);
    forall j | j in s.inodes ensures SameBut(s, s', j) { LinksPositive(s, j); }
    CountsOnly(s, s');
  }

  lemma LastLink(s: Fs, i: Ino)
    requires FsInv(s) && i in s.vnodes && i in s.inodes && s.inodes[i].links == 1
    ensures Names(s, i) == {} && i != ROOT
  {
    At(s, i);
    hide FsInv;
  }

  /** Dropping the last: the inode has neither a name nor, now, a vnode, and is freed. */
  lemma VputFreed(s: Fs, i: Ino)
    requires FsInv(s) && i in s.vnodes && i in s.inodes && s.vnodes[i] == 1 && s.inodes[i].links == 1
    requires Bare(s.inodes[i].slots)
    ensures FsInv(Vput(s, i))
  {
    hide FsInv, Names, LinksOk, InodeOk, NamesExist, Bare;
    VnodesAt(s);
    LastLink(s, i);
    var s' := Vput(s, i);
    forall j | j in s'.inodes ensures LinksOk(s', j) && InodeOk(s', j) {
      At(s, j);
      LinksPositive(s, j);
      GoneNames(s, s', i, j);
      SameAt(s, s', j);
    }
    FreedUnnamed(s, i);
    SameExist(s.(inodes := s.inodes - {i}), s');
    MakeInv(s');
  }

  lemma FreedUnnamed(s: Fs, i: Ino)
    requires FsInv(s) && i in s.inodes && Names(s, i) == {}
    ensures NamesExist(s.(inodes := s.inodes - {i}))
  {
    VnodesAt(s);
    hide FsInv;
    var s' := s.(inodes := s.inodes - {i});
    forall j: Ino, d: Ino, k: nat | IsName(s', j, d, k) ensures j in s'.inodes {
      assert IsName(s, j, d, k);
      NameIn(s, j, d, k);
    }
  }

  /** Dropping the vnode's last reference frees a directory that still has names in it. */
  predicate FreesNames(s: Fs, i: Ino) {
    i in s.inodes && i in s.vnodes && s.vnodes[i] == 1 && s.inodes[i].links == 1 && !Bare(s.inodes[i].slots)
  }

  /** The inodes such a directory names keep a link for a name that is gone. */
  lemma NameLost(s: Fs, i: Ino)
    requires FsInv(s) && FreesNames(s, i)
    ensures !CountsRight(Vput(s, i))
  {
    hide FsInv, Names;
    VnodesAt(s);
    LastLink(s, i);
    var k: nat :| k < |s.inodes[i].slots| && !s.inodes[i].slots[k].Free? && !Dot(s.inodes[i].slots[k].name);
    var j := s.inodes[i].slots[k].ino;
    assert IsName(s, j, i, k);
    NameIn(s, j, i, k);
    At(s, j);
    var s' := Vput(s, i);
    FewerNames(s, s', i, k, j);
    assert j in s'.inodes && !LinksOk(s', j);
  }

  lemma FewerNames(s: Fs, s': Fs, i: Ino, k: nat, j: Ino)
    requires IsName(s, j, i, k) && s'.inodes == s.inodes - {i}
    ensures |Names(s', j)| < |Names(s, j)|
  {
    forall p | p in Names(s', j) ensures p in Names(s, j) - {(i, k)} {
      NameIn(s', j, p.0, p.1);
      NameIn(s, j, p.0, p.1);
    }
    NameIn(s, j, i, k);
    hide Names;
    Smaller(Names(s', j), Names(s, j) - {(i, k)});
  }

  lemma {:induction false} Smaller<T>(a: set<T>, b: set<T>)
    requires a <= b
    ensures |a| <= |b|
  {
    assert b == a + (b - a);
    assert |b| == |a| + |b - a|;
  }

  /** Dropping a reference keeps every link count right exactly when it does not free a directory with names in it. */
  lemma VputInv(s: Fs, i: Ino)
    requires FsInv(s) && i in s.vnodes
    ensures i in s.inodes && s.vnodes[i] > 0
    ensures !FreesNames(s, i) ==> FsInv(Vput(s, i))
    ensures FreesNames(s, i) ==> !CountsRight(Vput(s, i))
  {
    hide FsInv, NamesExist, Vput, Bare, CountsRight;
    VnodesAt(s);
    if FreesNames(s, i) { NameLost(s, i); }
    else if s.vnodes[i] == 1 && s.inodes[i].links == 1 { VputFreed(s, i); }
    else { VputKept(s, i); }
  }

  // ------------------------------------------------------ names come and go

  /** ramfs_link's effect: a free slot names c, which gains a link. */
  function Named(s: Fs, d: Ino, k: nat, name: string, c: Ino): Fs
    requires d in s.inodes && k < |s.inodes[d].slots| && c in s.inodes
  {
    AddLinks(SetSlot(s, d, k, Entry(name, c)), c, 1)
  }

  lemma NamedNames(s: Fs, d: Ino, k: nat, name: string, c: Ino, i: Ino)
    requires d in s.inodes && k < |s.inodes[d].slots| && s.inodes[d].slots[k].Free? && !Dot(name) && c in s.inodes
    ensures Names(Named(s, d, k, name, c), i) == if i == c then Names(s, i) + {(d, k)} else Names(s, i)
    ensures |Names(Named(s, d, k, name, c), i)| == |Names(s, i)| + if i == c then 1 else 0
  {
    hide Names, Dot;
    AddedNames(s, d, k, name, c, i);
    SameNames(SetSlot(s, d, k, Entry(name, c)), Named(s, d, k, name, c), i);
  }

  /** A directory keeps its dots and one entry for each name when a slot changes to a new name or to none. */
  lemma DotsStay(slots: seq<Slot>, k: nat, e: Slot, i: Ino)
    requires HasDots(slots) && OneEach(slots) && SelfDot(slots, i) && k < |slots| && (slots[k].Free? || !Dot(slots[k].name))
    requires e.Entry? ==> !HasEntry(slots, e.name) && !Dot(e.name)
    ensures HasDots(slots[k := e]) && OneEach(slots[k := e]) && SelfDot(slots[k := e], i)
  {
    var a :| 0 <= a < |slots| && slots[a].Entry? && slots[a].name == ".";
    var b :| 0 <= b < |slots| && slots[b].Entry? && slots[b].name == "..";
    assert slots[k := e][a].name == "." && slots[k := e][b].name == "..";
  }

  lemma NamedAt(s: Fs, d: Ino, k: nat, name: string, c: Ino, i: Ino)
    requires FsInv(s) && d in s.inodes && k < |s.inodes[d].slots| && s.inodes[d].slots[k].Free? && !Dot(name) && c in s.inodes
    requires i in s.inodes && !HasEntry(s.inodes[d].slots, name)
    ensures LinksOk(Named(s, d, k, name, c), i) && InodeOk(Named(s, d, k, name, c), i)
  {
    hide FsInv, Names, Dot, HasDots, OneEach, SelfDot, HasEntry;
    At(s, i);
    NamedNames(s, d, k, name, c, i);
    if i == d && s.inodes[d].kind == Dir { DotsStay(s.inodes[d].slots, k, Entry(name, c), d); }
  }

  lemma NamedInv(s: Fs, d: Ino, k: nat, name: string, c: Ino)
    requires FsInv(s) && d in s.inodes && k < |s.inodes[d].slots| && s.inodes[d].slots[k].Free? && !Dot(name) && c in s.inodes
    requires !HasEntry(s.inodes[d].slots, name)
    ensures FsInv(Named(s, d, k, name, c))
  {
    hide FsInv, LinksOk, InodeOk, Dot, HasEntry;
    VnodesAt(s);
    var s' := Named(s, d, k, name, c);
    forall i | i in s'.inodes ensures LinksOk(s', i) && InodeOk(s', i) { NamedAt(s, d, k, name, c, i); }
    forall i: Ino, e: Ino, j: nat | IsName(s', i, e, j) ensures i in s'.inodes {
      if (e, j) != (d, k) { assert IsName(s, i, e, j); }
    }
    MakeInv(s');
  }

  /** The middle of ramfs_unlink and ramfs_rmdir: the slot is cleared and c loses a link. */
  function Unnamed(s: Fs, d: Ino, k: nat, c: Ino): Fs
    requires d in s.inodes && k < |s.inodes[d].slots| && c in s.inodes
  {
    AddLinks(SetSlot(s, d, k, Free), c, -1)
  }

  lemma UnnamedNames(s: Fs, d: Ino, k: nat, c: Ino, i: Ino)
    requires IsName(s, c, d, k) && c in s.inodes
    ensures Names(Unnamed(s, d, k, c), i) == if i == c then Names(s, i) - {(d, k)} else Names(s, i)
    ensures |Names(Unnamed(s, d, k, c), i)| == |Names(s, i)| - if i == c then 1 else 0
  {
    hide Names, Dot;
    RemovedNames(s, d, k, c, i);
    SameNames(SetSlot(s, d, k, Free), Unnamed(s, d, k, c), i);
  }

  lemma UnnamedAt(s: Fs, d: Ino, k: nat, c: Ino, i: Ino)
    requires FsInv(s) && IsName(s, c, d, k) && c in s.inodes && c in s.vnodes && i in s.inodes
    ensures LinksOk(Unnamed(s, d, k, c), i) && InodeOk(Unnamed(s, d, k, c), i)
  {
    hide FsInv, Names, HasDots, OneEach, SelfDot;
    At(s, i);
    UnnamedNames(s, d, k, c, i);
    if i == d && s.inodes[d].kind == Dir { DotsStay(s.inodes[d].slots, k, Free, d); }
  }

  /** A name goes, while the vnode of what it named is in core. */
  lemma UnnamedInv(s: Fs, d: Ino, k: nat, c: Ino)
    requires FsInv(s) && IsName(s, c, d, k) && c in s.inodes && c in s.vnodes
    ensures FsInv(Unnamed(s, d, k, c))
  {
    hide FsInv, LinksOk, InodeOk, Dot;
    VnodesAt(s);
    var s' := Unnamed(s, d, k, c);
    forall i | i in s'.inodes ensures LinksOk(s', i) && InodeOk(s', i) { UnnamedAt(s, d, k, c, i); }
    forall i: Ino, e: Ino, j: nat | IsName(s', i, e, j) ensures i in s'.inodes { assert IsName(s, i, e, j); }
    MakeInv(s');
  }

  /** The slots of a new inode: none, or those of a new directory below parent. */
  function NewSlots(kind: Kind, n: nat, i: Ino, parent: Ino): seq<Slot>
    requires n >= 2
  {
    if kind == Dir then [Entry(".", i), Entry("..", parent)] + seq(n - 2, _ => Free) else []
  }

  /** ramfs_alloc_inode and the entry in the parent, as in create, mknod and mkdir. */
  function Made(s: Fs, d: Ino, k: nat, name: string, i: Ino, kind: Kind): Fs
    requires d in s.inodes && k < |s.inodes[d].slots| && s.slots >= 2
  {
    SetInode(SetSlot(s, d, k, Entry(name, i)), i, Inode(kind, 1, NewSlots(kind, s.slots, i, d)))
  }

  lemma NewSlotsBare(kind: Kind, n: nat, i: Ino, parent: Ino)
    requires n >= 2
    ensures Bare(NewSlots(kind, n, i, parent))
    ensures kind == Dir ==> |NewSlots(kind, n, i, parent)| == n && HasDots(NewSlots(kind, n, i, parent)) && OneEach(NewSlots(kind, n, i, parent)) && SelfDot(NewSlots(kind, n, i, parent), i)
    ensures kind != Dir ==> NewSlots(kind, n, i, parent) == []
  {
    if kind == Dir {
      var slots := NewSlots(kind, n, i, parent);
      assert slots[0] == Entry(".", i) && slots[1] == Entry("..", parent);
    }
  }

  /** An inode number that is not in use has no name. */
  lemma Unused(s: Fs, i: Ino)
    requires NamesExist(s) && i !in s.inodes
    ensures Names(s, i) == {}
  {
    forall d: Ino, k: nat ensures (d, k) !in Names(s, i) { NameIn(s, i, d, k); }
  }

  lemma MadeNames(s: Fs, d: Ino, k: nat, name: string, i: Ino, kind: Kind, j: Ino)
    requires d in s.inodes && k < |s.inodes[d].slots| && s.inodes[d].slots[k].Free? && !Dot(name) && s.slots >= 2 && i !in s.inodes
    ensures Names(Made(s, d, k, name, i, kind), j) == if j == i then Names(s, j) + {(d, k)} else Names(s, j)
  {
    hide Names, Dot, NewSlots;
    AddedNames(s, d, k, name, i, j);
    NewSlotsBare(kind, s.slots, i, d);
    NewNames(SetSlot(s, d, k, Entry(name, i)), i, Inode(kind, 1, NewSlots(kind, s.slots, i, d)), j);
  }

  lemma MadeAt(s: Fs, d: Ino, k: nat, name: string, i: Ino, kind: Kind, j: Ino)
    requires FsInv(s) && d in s.inodes && k < |s.inodes[d].slots| && s.inodes[d].slots[k].Free? && !Dot(name)
    requires s.slots >= 2 && i !in s.inodes && i < s.max && (j in s.inodes || j == i)
    requires !HasEntry(s.inodes[d].slots, name)
    ensures LinksOk(Made(s, d, k, name, i, kind), j) && InodeOk(Made(s, d, k, name, i, kind), j)
  {
    hide FsInv, Names, Dot, HasDots, Bare, NewSlots, OneEach, SelfDot, HasEntry;
    VnodesAt(s);
    MadeNames(s, d, k, name, i, kind, j);
    NewSlotsBare(kind, s.slots, i, d);
    if j == i {
      Unused(s, i);
    } else {
      At(s, j);
      if j == d && s.inodes[d].kind == Dir { DotsStay(s.inodes[d].slots, k, Entry(name, i), d); }
    }
  }

  lemma MadeInv(s: Fs, d: Ino, k: nat, name: string, i: Ino, kind: Kind)
    requires FsInv(s) && d in s.inodes && k < |s.inodes[d].slots| && s.inodes[d].slots[k].Free? && !Dot(name)
    requires s.slots >= 2 && i !in s.inodes && i < s.max && !HasEntry(s.inodes[d].slots, name)
    ensures FsInv(Made(s, d, k, name, i, kind))
  {
    hide FsInv, LinksOk, InodeOk, HasEntry;
    VnodesAt(s);
    var s' := Made(s, d, k, name, i, kind);
    forall j | j in s'.inodes ensures LinksOk(s', j) && InodeOk(s', j) { MadeAt(s, d, k, name, i, kind, j); }
    NewSlotsBare(kind, s.slots, i, d);
    hide NewSlots;
    forall j: Ino, e: Ino, m: nat | IsName(s', j, e, m) ensures j in s'.inodes {
      if (e, m) != (d, k) { assert IsName(s, j, e, m); }
    }
    MakeInv(s');
  }
}
