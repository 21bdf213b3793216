/**
 * What each operation of the file system does, told from outside: which result
 * it returns, what every name in every directory stands for afterwards, and
 * what becomes of every inode's kind, link count and references
 * (kernel/fs/ramfs/ramfs.c:306-563, kernel/fs/vnode.c:109-298).
 */
module RamfsNames {
  import opened Basics
  import opened Ramfs
  import opened RamfsRuns

  // -------------------------------------------------------------- what is seen

  /** The inode that a name in directory d stands for, if there is such a directory and such a name. */
  function Look(s: Fs, d: Ino, name: string): Option<Ino> {
    if d in s.inodes then Target(s, d, name) else None
  }

  function KindAt(s: Fs, i: Ino): Option<Kind> {
    if i in s.inodes then Some(s.inodes[i].kind) else None
  }

  function Links(s: Fs, i: Ino): int {
    if i in s.inodes then s.inodes[i].links else 0
  }

  function Refs(s: Fs, i: Ino): nat {
    if i in s.vnodes then s.vnodes[i] else 0
  }

  ghost predicate HasSpace(s: Fs, d: Ino) {
    d in s.inodes && exists k :: 0 <= k < |s.inodes[d].slots| && s.inodes[d].slots[k].Free?
  }

  ghost predicate HasIno(s: Fs) { exists i: Ino :: i < s.max && i !in s.inodes }

  /** The directory has no names but the dots. */
  ghost predicate Empty(s: Fs, d: Ino) { forall name :: !Dot(name) ==> Look(s, d, name).None? }

  // ------------------------------------------------------------------- results

  lemma SpaceIs(s: Fs, d: Ino)
    requires d in s.inodes
    ensures FindFree(s.inodes[d].slots).Some? <==> HasSpace(s, d)
  {
    FindFreeIs(s.inodes[d].slots);
  }

  lemma InoIs(s: Fs)
    ensures FreeIno(s, 0).Some? <==> HasIno(s)
  {
    FreeInoIs(s, 0);
  }

  lemma EmptyIs(s: Fs, d: Ino)
    requires d in s.inodes
    ensures Bare(s.inodes[d].slots) <==> Empty(s, d)
  {
    var slots := s.inodes[d].slots;
    if Bare(slots) {
      forall name | !Dot(name) ensures Look(s, d, name).None? { FindNameIs(slots, name); }
    } else {
      var k :| 0 <= k < |slots| && !slots[k].Free? && !Dot(slots[k].name);
      FindNameIs(slots, slots[k].name);
      assert Look(s, d, slots[k].name).Some?;
    }
  }

  /** The result of every operation. */
  lemma StepResult(s: Fs, a: Action)
    requires Enabled(s, a)
    ensures Apply(s, a).1 ==
      match a
      case Create(d, _) => if HasSpace(s, d) && HasIno(s) then Done else NoSpace
      case Mknod(d, _) => if HasSpace(s, d) && HasIno(s) then Done else NoSpace
      case Mkdir(d, _) => if HasSpace(s, d) && HasIno(s) then Done else NoSpace
      case Link(_, d, _) => if HasSpace(s, d) then Done else NoSpace
      case Lookup(d, name) => if Look(s, d, name).Some? then Done else NotFound
      case Rmdir(d, name) =>
        if Look(s, d, name).None? then NotFound
        else if KindAt(s, Look(s, d, name).value) != Some(Dir) then NotDir
        else if !Empty(s, Look(s, d, name).value) then NotEmpty
        else Done
      case _ => Done
  {
    hide HasSpace, HasIno, Empty, Target, Made, Vget, Vput, UnlinkFrom, Bare, FindFree, FreeIno;
    match a
    case Create(d, _) => SpaceIs(s, d); InoIs(s);
    case Mknod(d, _) => SpaceIs(s, d); InoIs(s);
    case Mkdir(d, _) => SpaceIs(s, d); InoIs(s);
    case Link(_, d, _) => SpaceIs(s, d);
    case Rmdir(d, name) => if Look(s, d, name).Some? { EmptyIs(s, Look(s, d, name).value); }
    case _ =>
  }

  // --------------------------------------------------------- slots and lookups

  /** What a name stands for, given the slots of a directory. */
  function Value(slots: seq<Slot>, n: string): Option<Ino> {
    FindNameIs(slots, n);
    match FindName(slots, n) case None => None case Some(k) => Some(slots[k].ino)
  }

  /** With no name twice, an entry is the one found. */
  lemma FoundAt(slots: seq<Slot>, k: nat)
    requires OneEach(slots) && k < |slots| && slots[k].Entry?
    ensures FindName(slots, slots[k].name) == Some(k) && Value(slots, slots[k].name) == Some(slots[k].ino)
  {
    FindNameIs(slots, slots[k].name);
    hide FindName;
  }

  /** A name put into a free slot is found, and every other name is as before. */
  lemma FilledSlot(slots: seq<Slot>, k: nat, name: string, c: Ino, n: string)
    requires OneEach(slots) && k < |slots| && slots[k].Free? && !HasEntry(slots, name)
    ensures Value(slots[k := Entry(name, c)], n) == if n == name then Some(c) else Value(slots, n)
  {
    hide FindName;
    var slots' := slots[k := Entry(name, c)];
    assert OneEach(slots');
    FindNameIs(slots, n);
    FindNameIs(slots', n);
    if n == name { FoundAt(slots', k); }
    else if FindName(slots, n).Some? { FoundAt(slots', FindName(slots, n).value); }
  }

  /** The name of a cleared slot is gone, and every other name is as before. */
  lemma ClearedSlot(slots: seq<Slot>, k: nat, n: string)
    requires OneEach(slots) && k < |slots| && slots[k].Entry?
    ensures Value(slots[k := Free], n) == if n == slots[k].name then None else Value(slots, n)
  {
    hide FindName;
    var slots' := slots[k := Free];
    FindNameIs(slots, n);
    FindNameIs(slots', n);
    if FindName(slots', n).Some? { FoundAt(slots, FindName(slots', n).value); }
    forall j | 0 <= j < |slots| && j != k && slots[j].Entry? && FindName(slots', n).None? ensures slots[j].name != n {
      assert slots'[j] == slots[j];
    }
  }

  /** What a new inode shows: a directory its two dots, anything else nothing. */
  function NewLook(kind: Kind, i: Ino, parent: Ino, n: string): Option<Ino> {
    if kind == Dir && n == "." then Some(i) else if kind == Dir && n == ".." then Some(parent) else None
  }

  lemma NewSlotsLook(kind: Kind, len: nat, i: Ino, parent: Ino, n: string)
    requires len >= 2
    ensures Value(NewSlots(kind, len, i, parent), n) == NewLook(kind, i, parent, n)
  {
    hide FindName;
    var slots := NewSlots(kind, len, i, parent);
    NewSlotsBare(kind, len, i, parent);
    FindNameIs(slots, n);
    if kind == Dir {
      assert slots[0] == Entry(".", i) && slots[1] == Entry("..", parent);
      FoundAt(slots, 0);
      FoundAt(slots, 1);
    }
  }

  // ---------------------------------------------------------- one inode at a time

  /** All there is to see of one inode number. */
  datatype Seen = Seen(kind: Option<Kind>, links: int, slots: seq<Slot>, refs: nat)

  const GONE := Seen(None, 0, [], 0)

  function See(s: Fs, i: Ino): Seen {
    Seen(KindAt(s, i), Links(s, i), if i in s.inodes then s.inodes[i].slots else [], Refs(s, i))
  }

  lemma LookSeen(s: Fs, d: Ino, n: string)
    ensures Look(s, d, n) == Value(See(s, d).slots, n)
  {
  }

  lemma SeeVget(s: Fs, c: Ino, i: Ino)
    requires c in s.inodes && VnodesOk(s)
    ensures See(Vget(s, c), i) ==
      if i == c then See(s, c).(links := Links(s, c) + (if Refs(s, c) == 0 then 1 else 0), refs := Refs(s, c) + 1) else See(s, i)
  {
  }

  lemma SeeVput(s: Fs, c: Ino, i: Ino)
    requires c in s.inodes && c in s.vnodes && s.vnodes[c] > 0
    ensures See(Vput(s, c), i) ==
      if i != c then See(s, i)
      else if Refs(s, c) > 1 then See(s, c).(refs := Refs(s, c) - 1)
      else if Links(s, c) == 1 then GONE
      else See(s, c).(links := Links(s, c) - 1, refs := 0)
  {
  }

  lemma SeeNamed(s: Fs, p: Ino, k: nat, name: string, c: Ino, i: Ino)
    requires p in s.inodes && k < |s.inodes[p].slots| && c in s.inodes
    ensures See(Named(s, p, k, name, c), i) ==
      See(s, i).(links := Links(s, i) + (if i == c then 1 else 0),
                 slots := if i == p then s.inodes[p].slots[k := Entry(name, c)] else See(s, i).slots)
  {
  }

  lemma SeeUnnamed(s: Fs, p: Ino, k: nat, c: Ino, i: Ino)
    requires p in s.inodes && k < |s.inodes[p].slots| && c in s.inodes
    ensures See(Unnamed(s, p, k, c), i) ==
      See(s, i).(links := Links(s, i) - (if i == c then 1 else 0),
                 slots := if i == p then s.inodes[p].slots[k := Free] else See(s, i).slots)
  {
  }

  lemma SeeMade(s: Fs, p: Ino, k: nat, name: string, j: Ino, kind: Kind, i: Ino)
    requires p in s.inodes && k < |s.inodes[p].slots| && s.slots >= 2 && j !in s.inodes
    ensures See(Made(s, p, k, name, j, kind), i) ==
      if i == j then Seen(Some(kind), 1, NewSlots(kind, s.slots, j, p), Refs(s, j))
      else See(s, i).(slots := if i == p then s.inodes[p].slots[k := Entry(name, j)] else See(s, i).slots)
  {
    hide NewSlots;
  }

  /** An inode with a name and a vnode in core has two links at least. */
  lemma NamedAndCached(s: Fs, p: Ino, k: nat, c: Ino)
    requires FsInv(s) && IsName(s, c, p, k) && c in s.inodes
    ensures s.inodes[c].links >= if c in s.vnodes then 2 else 1
  {
    At(s, c);
    NameIn(s, c, p, k);
    hide FsInv, IsName, InodeOk;
  }

  /** What a removal of a name leaves: one link less, and nothing of an inode that had no other. */
  lemma SeeDrop(s: Fs, p: Ino, k: nat, c: Ino, i: Ino)
    requires FsInv(s) && IsName(s, c, p, k) && c in s.inodes
    ensures See(Drop(s, p, k, c), i) ==
      if i == c && Links(s, c) == 1 then GONE
      else See(s, i).(links := Links(s, i) - (if i == c then 1 else 0),
                      slots := if i == p then s.inodes[p].slots[k := Free] else See(s, i).slots)
  {
    hide FsInv, Dot, Vget, Vput, Unnamed, See, Links;
    VnodesAt(s);
    NamedAndCached(s, p, k, c);
    VgetSlots(s, c);
    SeeVget(s, c, i);
    SeeVget(s, c, c);
    var s1 := Vget(s, c);
    SeeUnnamed(s1, p, k, c, i);
    SeeUnnamed(s1, p, k, c, c);
    SeeParts(s, c);
    SeeParts(s, i);
    SeeParts(s1, c);
    SeeParts(s1, i);
    SeeParts(Unnamed(s1, p, k, c), c);
    SeeVput(Unnamed(s1, p, k, c), c, i);
  }

  lemma SeeParts(s: Fs, i: Ino)
    ensures See(s, i).kind == KindAt(s, i) && See(s, i).links == Links(s, i) && See(s, i).refs == Refs(s, i)
    ensures i in s.inodes ==> Links(s, i) == s.inodes[i].links && See(s, i).slots == s.inodes[i].slots
    ensures i in s.inodes <==> See(s, i).kind.Some?
  {
  }

  /** A reference taken and dropped again leaves no trace. */
  lemma SeePeek(s: Fs, c: Ino, i: Ino)
    requires FsInv(s) && c in s.inodes
    ensures See(Peek(s, c), i) == See(s, i)
  {
    hide FsInv, Vget, Vput, See, Links;
    VnodesAt(s);
    LinksPositive(s, c);
    VgetSlots(s, c);
    SeeVget(s, c, i);
    SeeVget(s, c, c);
    SeeParts(s, c);
    SeeParts(Vget(s, c), c);
    SeeVput(Vget(s, c), c, i);
  }

  // ------------------------------------------------------------- every inode

  /** An inode as a caller knows it; NONE is a free number. */
  datatype Node = Node(kind: Option<Kind>, links: int, refs: nat)

  const NONE := Node(None, 0, 0)

  function NodeAt(s: Fs, i: Ino): Node { Node(KindAt(s, i), Links(s, i), Refs(s, i)) }

  /** With one more reference: the first brings the vnode into core, which counts as a link. */
  function Held(n: Node): Node { n.(links := if n.refs == 0 then n.links + 1 else n.links, refs := n.refs + 1) }

  /** With one link less: the inode goes with its last. */
  function Less(n: Node): Node { if n.links == 1 then NONE else n.(links := n.links - 1) }

  /** With one reference less: the last takes the vnode's link away. */
  function Let(n: Node): Node {
    if n.refs > 1 then n.(refs := n.refs - 1) else if n.links == 1 then NONE else n.(links := n.links - 1, refs := 0)
  }

  lemma NodeSeen(s: Fs, i: Ino)
    ensures NodeAt(s, i) == Node(See(s, i).kind, See(s, i).links, See(s, i).refs)
  {
  }

  /** The free number that is used is in no use. */
  lemma NewIno(s: Fs)
    requires FsInv(s) && FreeIno(s, 0).Some?
    ensures FreeIno(s, 0).value !in s.inodes && FreeIno(s, 0).value !in s.vnodes
  {
    FreeInoIs(s, 0);
    VnodesAt(s);
    hide FsInv, FreeIno;
  }

  /** A new inode and its name. */
  lemma MakeNodes(s: Fs, p: Ino, name: string, kind: Kind, i: Ino)
    requires FsInv(s) && DirOk(s, p, name) && Make(s, p, name, kind).1.Some?
    ensures Make(s, p, name, kind).1 == FreeIno(s, 0) && FreeIno(s, 0).Some?
    ensures NodeAt(Make(s, p, name, kind).0, i) == if FreeIno(s, 0) == Some(i) then Node(Some(kind), 1, 0) else NodeAt(s, i)
  {
    hide FsInv, FindFree, FreeIno, Made, NewSlots;
    FindFreeIs(s.inodes[p].slots);
    NewIno(s);
    SeeMade(s, p, FindFree(s.inodes[p].slots).value, name, FreeIno(s, 0).value, kind, i);
  }

  lemma MakeLooks(s: Fs, p: Ino, name: string, kind: Kind, d: Ino, n: string)
    requires FsInv(s) && DirOk(s, p, name) && Target(s, p, name).None? && Make(s, p, name, kind).1.Some?
    ensures FreeIno(s, 0).Some?
    ensures Look(Make(s, p, name, kind).0, d, n) ==
      if d == p && n == name then FreeIno(s, 0)
      else if FreeIno(s, 0) == Some(d) then NewLook(kind, d, p, n)
      else Look(s, d, n)
  {
    hide FsInv, FindFree, FreeIno, Made, NewSlots, Value, See, HasEntry, OneEach, Look, Target, NewLook;
    FindFreeIs(s.inodes[p].slots);
    var k, j := FindFree(s.inodes[p].slots).value, FreeIno(s, 0).value;
    NewIno(s);
    NotDot(s, p, name);
    DirSlots(s, p);
    SeeMade(s, p, k, name, j, kind, d);
    LookSeen(s, d, n);
    LookSeen(Made(s, p, k, name, j, kind), d, n);
    SeeParts(s, p);
    if d == p { FilledSlot(s.inodes[p].slots, k, name, j, n); }
    if d == j { NewSlotsLook(kind, s.slots, j, p, n); }
  }

  lemma DirSlots(s: Fs, d: Ino)
    requires FsInv(s) && d in s.inodes && s.inodes[d].slots != []
    ensures OneEach(s.inodes[d].slots)
  {
    At(s, d);
    hide FsInv, LinksOk, OneEach;
  }

  lemma LinkEffect(s: Fs, c: Ino, p: Ino, name: string, d: Ino, n: string)
    requires FsInv(s) && Enabled(s, Link(c, p, name)) && LinkTo(s, c, p, name).1 == Done
    ensures NodeAt(LinkTo(s, c, p, name).0, d) == if d == c then NodeAt(s, c).(links := Links(s, c) + 1) else NodeAt(s, d)
    ensures Look(LinkTo(s, c, p, name).0, d, n) == if d == p && n == name then Some(c) else Look(s, d, n)
  {
    hide FsInv, FindFree, Named, Value, See, HasEntry, OneEach, Look, Target;
    FindFreeIs(s.inodes[p].slots);
    var k := FindFree(s.inodes[p].slots).value;
    NotDot(s, p, name);
    DirSlots(s, p);
    SeeNamed(s, p, k, name, c, d);
    NodeSeen(s, d);
    NodeSeen(Named(s, p, k, name, c), d);
    LookSeen(s, d, n);
    LookSeen(Named(s, p, k, name, c), d, n);
    SeeParts(s, p);
    if d == p { FilledSlot(s.inodes[p].slots, k, name, c, n); }
  }

  lemma UnlinkEffect(s: Fs, p: Ino, name: string, d: Ino, n: string)
    requires FsInv(s) && DirOk(s, p, name) && !Dot(name) && Target(s, p, name).Some? && Target(s, p, name).value in s.inodes
    ensures var c := Target(s, p, name).value;
      && NodeAt(UnlinkFrom(s, p, name), d) == (if d == c then Less(NodeAt(s, c)) else NodeAt(s, d))
      && Look(UnlinkFrom(s, p, name), d, n) ==
           if d == c && Links(s, c) == 1 then None else if d == p && n == name then None else Look(s, d, n)
  {
    hide FsInv, FindName, Value, See, OneEach, Look, Drop, Dot;
    FindNameIs(s.inodes[p].slots, name);
    var k, c := FindName(s.inodes[p].slots, name).value, Target(s, p, name).value;
    VnodesAt(s);
    NamedAndCached(s, p, k, c);
    DirSlots(s, p);
    SeeDrop(s, p, k, c, d);
    NodeSeen(s, d);
    NodeSeen(Drop(s, p, k, c), d);
    LookSeen(s, d, n);
    LookSeen(Drop(s, p, k, c), d, n);
    SeeParts(s, p);
    NothingThere(n);
    if d == p { ClearedSlot(s.inodes[p].slots, k, n); }
  }

  lemma NothingThere(n: string)
    ensures Value([], n) == None
  {
  }

  /** What inode number i becomes, when the operation succeeds or fails. */
  function NodeAfter(s: Fs, a: Action, done: bool, i: Ino): Node {
    var n := NodeAt(s, i);
    match a
    case Create(_, _) => if done && FreeIno(s, 0) == Some(i) then Node(Some(Data), 2, 1) else n
    case Mknod(_, _) => if done && FreeIno(s, 0) == Some(i) then Node(Some(Device), 1, 0) else n
    case Mkdir(_, _) => if done && FreeIno(s, 0) == Some(i) then Node(Some(Dir), 1, 0) else n
    case Link(c, _, _) => if done && i == c then Node(n.kind, n.links + 1, n.refs) else n
    case Lookup(d, name) => if Look(s, d, name) == Some(i) then Held(n) else n
    case Unlink(d, name) => if Look(s, d, name) == Some(i) then Less(n) else n
    case Rmdir(d, name) => if done && Look(s, d, name) == Some(i) then Less(n) else n
    case Reference(j) => if i == j then Held(n) else n
    case Release(j) => if i == j then Let(n) else n
  }

  /** What every operation does to every inode. */
  lemma StepNode(s: Fs, a: Action, i: Ino)
    requires FsInv(s) && Enabled(s, a)
    ensures NodeAt(Apply(s, a).0, i) == NodeAfter(s, a, Apply(s, a).1 == Done, i)
  {
    hide FsInv, Make, LinkTo, UnlinkFrom, Vget, Vput, Peek, FreeIno, See, Target, Dot, Bare;
    VnodesAt(s);
    NodeSeen(s, i);
    NodeSeen(Apply(s, a).0, i);
    match a
    case Create(d, name) => CreateNodes(s, d, name, i);
    case Mknod(d, name) => if Apply(s, a).1 == Done { MakeNodes(s, d, name, Device, i); }
    case Mkdir(d, name) => if Apply(s, a).1 == Done { MakeNodes(s, d, name, Dir, i); }
    case Link(c, d, name) => LinkSame(s, c, d, name); if Apply(s, a).1 == Done { LinkEffect(s, c, d, name, i, name); }
    case Lookup(d, name) => if Target(s, d, name).Some? { SeeVget(s, Target(s, d, name).value, i); SeeParts(s, i); }
    case Unlink(d, name) => UnlinkEffect(s, d, name, i, name);
    case Rmdir(d, name) =>
      if Target(s, d, name).Some? {
        SeePeek(s, Target(s, d, name).value, i);
        UnlinkEffect(s, d, name, i, name);
      }
    case Reference(j) => ReferenceNode(s, j, i);
    case Release(j) => SeeVput(s, j, i); SeeParts(s, i);
  }

  lemma CreateNodes(s: Fs, d: Ino, name: string, i: Ino)
    requires FsInv(s) && Enabled(s, Create(d, name))
    ensures var e := Apply(s, Create(d, name));
      NodeAt(e.0, i) == if e.1 == Done && FreeIno(s, 0) == Some(i) then Node(Some(Data), 2, 1) else NodeAt(s, i)
  {
    hide FsInv, Make, Vget, FreeIno, Target;
    var (s1, j) := Make(s, d, name, Data);
    if j.Some? {
      MakeNodes(s, d, name, Data, i);
      MakeNodes(s, d, name, Data, j.value);
      MakeInvariant(s, d, name, Data);
      VnodesAt(s1);
      SeeVget(s1, j.value, i);
    }
  }

  lemma LinkSame(s: Fs, c: Ino, d: Ino, name: string)
    requires d in s.inodes && c in s.inodes
    ensures LinkTo(s, c, d, name).1 != Done ==> LinkTo(s, c, d, name).0 == s
  {
  }

  lemma ReferenceNode(s: Fs, j: Ino, i: Ino)
    requires Enabled(s, Reference(j))
    ensures NodeAt(Apply(s, Reference(j)).0, i) == if i == j then Held(NodeAt(s, i)) else NodeAt(s, i)
  {
  }

  // -------------------------------------------------------------- every name

  /** The names of inodes are told by their slots alone. */
  lemma LookKept(s: Fs, s': Fs, d: Ino, n: string)
    requires See(s', d).slots == See(s, d).slots
    ensures Look(s', d, n) == Look(s, d, n)
  {
    LookSeen(s, d, n);
    LookSeen(s', d, n);
    hide Look, Value;
  }

  /** What name n in directory d comes to stand for, when the operation succeeds or fails. */
  function NameAfter(s: Fs, a: Action, done: bool, d: Ino, n: string): Option<Ino> {
    match a
    case Create(p, name) => if done then MadeName(s, Data, p, name, d, n) else Look(s, d, n)
    case Mknod(p, name) => if done then MadeName(s, Device, p, name, d, n) else Look(s, d, n)
    case Mkdir(p, name) => if done then MadeName(s, Dir, p, name, d, n) else Look(s, d, n)
    case Link(c, p, name) => if done && d == p && n == name then Some(c) else Look(s, d, n)
    case Unlink(p, name) => if d == p && n == name then None else Look(s, d, n)
    case Rmdir(p, name) =>
      if done && ((d == p && n == name) || (Look(s, p, name) == Some(d) && Links(s, d) == 1)) then None else Look(s, d, n)
    case Release(i) => if d == i && Refs(s, i) == 1 && Links(s, i) == 1 then None else Look(s, d, n)
    case _ => Look(s, d, n)
  }

  /** What every name in every directory stands for after every operation. */
  lemma StepNames(s: Fs, a: Action, d: Ino, n: string)
    requires FsInv(s) && Enabled(s, a)
    ensures Look(Apply(s, a).0, d, n) == NameAfter(s, a, Apply(s, a).1 == Done, d, n)
  {
    hide FsInv, Make, LinkTo, UnlinkFrom, Vget, Vput, Peek, FreeIno, See, Dot, Bare, MadeName, Value;
    VnodesAt(s);
    match a
    case Create(p, name) => CreateNames(s, p, name, d, n);
    case Mknod(p, name) => if Apply(s, a).1 == Done { MadeNames(s, p, name, Device, d, n); }
    case Mkdir(p, name) => if Apply(s, a).1 == Done { MadeNames(s, p, name, Dir, d, n); }
    case Link(c, p, name) => LinkSame(s, c, p, name); if Apply(s, a).1 == Done { LinkEffect(s, c, p, name, d, n); }
    case Lookup(p, name) =>
      if Target(s, p, name).Some? {
        SeeVget(s, Target(s, p, name).value, d);
        LookKept(s, Apply(s, a).0, d, n);
      }
    case Unlink(p, name) => UnlinkEffect(s, p, name, d, n); FileShows(s, Target(s, p, name).value, n);
    case Rmdir(p, name) =>
      if Target(s, p, name).Some? {
        SeePeek(s, Target(s, p, name).value, d);
        LookKept(s, Peek(s, Target(s, p, name).value), d, n);
        UnlinkEffect(s, p, name, d, n);
      }
    case Reference(j) =>
    case Release(j) => ReleaseNames(s, j, d, n);
  }

  /** The name and the new inode's own names, on top of what was there. */
  function MadeName(s: Fs, kind: Kind, p: Ino, name: string, d: Ino, n: string): Option<Ino> {
    if d == p && n == name then FreeIno(s, 0)
    else if FreeIno(s, 0) == Some(d) then NewLook(kind, d, p, n)
    else Look(s, d, n)
  }

  lemma MadeNames(s: Fs, p: Ino, name: string, kind: Kind, d: Ino, n: string)
    requires FsInv(s) && DirOk(s, p, name) && Target(s, p, name).None? && Make(s, p, name, kind).1.Some?
    ensures Look(Make(s, p, name, kind).0, d, n) == MadeName(s, kind, p, name, d, n)
  {
    hide FsInv, Make, Look, Target, FreeIno;
    MakeLooks(s, p, name, kind, d, n);
  }

  lemma CreateNames(s: Fs, p: Ino, name: string, d: Ino, n: string)
    requires FsInv(s) && Enabled(s, Create(p, name))
    ensures var e := Apply(s, Create(p, name));
      Look(e.0, d, n) == if e.1 == Done then MadeName(s, Data, p, name, d, n) else Look(s, d, n)
  {
    hide FsInv, Make, Vget, FreeIno, MadeName, See, Look, Target;
    var (s1, j) := Make(s, p, name, Data);
    if j.Some? {
      MadeNames(s, p, name, Data, d, n);
      MakeInvariant(s, p, name, Data);
      VnodesAt(s1);
      SeeVget(s1, j.value, d);
      LookKept(s1, Vget(s1, j.value), d, n);
    }
  }

  /** What is not a directory shows no names. */
  lemma FileShows(s: Fs, c: Ino, n: string)
    requires FsInv(s) && c in s.inodes && s.inodes[c].kind != Dir
    ensures Look(s, c, n) == None
  {
    At(s, c);
    hide FsInv, LinksOk;
  }

  lemma ReleaseNames(s: Fs, i: Ino, d: Ino, n: string)
    requires FsInv(s) && Enabled(s, Release(i))
    ensures Look(Apply(s, Release(i)).0, d, n) ==
      if d == i && Refs(s, i) == 1 && Links(s, i) == 1 then None else Look(s, d, n)
  {
    hide FsInv, Vput, See, Look, Value;
    SeeVput(s, i, d);
    SeeParts(s, i);
    LookSeen(s, d, n);
    LookSeen(Vput(s, i), d, n);
    NothingThere(n);
  }

  /** The mount: the root directory alone, referenced once, with its dots for names. */
  lemma MountedShows(max: nat, slots: nat, nameLen: nat, i: Ino, n: string)
    requires max > 0 && slots >= 2
    ensures NodeAt(Mounted(max, slots, nameLen), i) == if i == ROOT then Node(Some(Dir), 2, 1) else NONE
    ensures Look(Mounted(max, slots, nameLen), i, n) == if i == ROOT then NewLook(Dir, ROOT, ROOT, n) else None
  {
    hide NewSlots, FindName, Value, NewLook;
    LookSeen(Mounted(max, slots, nameLen), i, n);
    NewSlotsLook(Dir, slots, ROOT, ROOT, n);
    NothingThere(n);
  }
}
