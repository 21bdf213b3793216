/**
 * Two runs with a directory that has been removed but is still in core
 * (kernel/fs/ramfs/ramfs.c:218-253, 306-405, 517-563, kernel/fs/vnode.c).  In
 * the first a file is added to it: when the directory goes, the file's inode
 * stays in the table for good, without a name and without a vnode.  In the
 * second its parent is freed, and its entry ".." stands for no inode.
 */
module RemovedDirectory {
  import opened Basics
  import opened Ramfs
  import opened RamfsRuns

  /** Three inodes at most, three slots in a directory. */
  function Disk(inodes: map<Ino, Inode>, vnodes: map<Ino, nat>): Fs { Fs(3, 3, 3, inodes, vnodes) }

  /** A directory i below p with one more slot. */
  function Folder(links: int, i: Ino, p: Ino, slot: Slot): Inode { Inode(Dir, links, [Entry(".", i), Entry("..", p), slot]) }

  const ACTS: seq<Action> := [Mkdir(0, "a"), Lookup(0, "a"), Rmdir(0, "a"), Create(1, "f"), Release(1), Release(2)]

  /** The state before step i. */
  function Before(i: nat): Fs
    requires i <= |ACTS|
  {
    var root := Folder(2, 0, 0, Free);
    if i == 0 then Disk(map[0 := root], map[0 := 1])
    else if i == 1 then Disk(map[0 := Folder(2, 0, 0, Entry("a", 1)), 1 := Folder(1, 1, 0, Free)], map[0 := 1])
    else if i == 2 then Disk(map[0 := Folder(2, 0, 0, Entry("a", 1)), 1 := Folder(2, 1, 0, Free)], map[0 := 1, 1 := 1])
    else if i == 3 then Disk(map[0 := root, 1 := Folder(1, 1, 0, Free)], map[0 := 1, 1 := 1])
    else if i == 4 then Disk(map[0 := root, 1 := Folder(1, 1, 0, Entry("f", 2)), 2 := Inode(Data, 2, [])], map[0 := 1, 1 := 1, 2 := 1])
    else if i == 5 then Disk(map[0 := root, 2 := Inode(Data, 2, [])], map[0 := 1, 2 := 1])
    else Disk(map[0 := root, 2 := Inode(Data, 1, [])], map[0 := 1])
  }

  /** What the searches find in a directory with one slot to spare. */
  lemma Found(links: int, i: Ino, p: Ino, slot: Slot, name: string)
    requires !Dot(name)
    ensures var slots := Folder(links, i, p, slot).slots;
      && FindFree(slots) == (if slot.Free? then Some(2) else None)
      && FindName(slots, name) == (if slot.Entry? && slot.name == name then Some(2) else None)
  {
    var slots := Folder(links, i, p, slot).slots;
    var two := [Entry("..", p), slot];
    assert slots[1..] == two && two[1..] == [slot] && [slot][1..] == [];
    assert FindFree([slot]) == if slot.Free? then Some(0) else None;
    assert FindName([slot], name) == if slot.Entry? && slot.name == name then Some(0) else None;
    assert FindFree(two) == if slot.Free? then Some(1) else None;
    assert FindName(two, name) == if slot.Entry? && slot.name == name then Some(1) else None;
  }

  /** Filling the spare slot. */
  lemma Filled(links: int, i: Ino, p: Ino, slot: Slot, e: Slot)
    ensures Folder(links, i, p, slot).slots[2 := e] == Folder(links, i, p, e).slots
  {
  }

  lemma Mounts()
    ensures Before(0) == Mounted(3, 3, 3)
  {
    assert NewSlots(Dir, 3, 0, 0) == Folder(2, 0, 0, Free).slots;
  }

  lemma Makes()
    ensures Enabled(Before(0), Mkdir(0, "a")) && Apply(Before(0), Mkdir(0, "a")).0 == Before(1)
  {
    assert FreeIno(Before(0), 0) == Some(1);
    hide FindName, FindFree, FreeIno;
    Found(2, 0, 0, Free, "a");
    Filled(2, 0, 0, Free, Entry("a", 1));
    assert NewSlots(Dir, 3, 1, 0) == Folder(1, 1, 0, Free).slots;
    assert Make(Before(0), 0, "a", Dir).0 == Made(Before(0), 0, 2, "a", 1, Dir);
    assert Made(Before(0), 0, 2, "a", 1, Dir).inodes == Before(1).inodes;
  }

  lemma Finds()
    ensures Enabled(Before(1), Lookup(0, "a")) && Apply(Before(1), Lookup(0, "a")).0 == Before(2)
  {
    hide FindName;
    Found(2, 0, 0, Entry("a", 1), "a");
  }

  lemma Removes()
    ensures Enabled(Before(2), Rmdir(0, "a")) && Apply(Before(2), Rmdir(0, "a")).0 == Before(3)
  {
    hide FindName;
    Found(2, 0, 0, Entry("a", 1), "a");
    Filled(2, 0, 0, Entry("a", 1), Free);
    var s := Vget(Before(2), 1);
    var u := Unnamed(s, 0, 2, 1);
    assert u.inodes == Before(3).inodes;
    assert Vput(u, 1) == Before(3);
    assert Bare(Before(2).inodes[1].slots);
  }

  lemma Fills()
    ensures Enabled(Before(3), Create(1, "f")) && Apply(Before(3), Create(1, "f")).0 == Before(4)
  {
    assert FreeIno(Before(3), 0) == Some(2);
    hide FindName, FindFree, FreeIno;
    Found(1, 1, 0, Free, "f");
    Filled(1, 1, 0, Free, Entry("f", 2));
    var m := Made(Before(3), 1, 2, "f", 2, Data);
    assert Make(Before(3), 1, "f", Data) == (m, Some(2));
    assert Vget(m, 2).inodes == Before(4).inodes;
  }

  lemma Releases()
    ensures Enabled(Before(4), Release(1)) && Apply(Before(4), Release(1)).0 == Before(5)
    ensures Enabled(Before(5), Release(2)) && Apply(Before(5), Release(2)).0 == Before(6)
  {
    assert Apply(Before(4), Release(1)).0.inodes == Before(5).inodes;
    assert Apply(Before(5), Release(2)).0.vnodes == Before(6).vnodes;
  }

  lemma {:induction false} Onwards(i: nat)
    requires i <= |ACTS|
    ensures Legal(Before(i), ACTS[i..]) && Run(Before(i), ACTS[i..]) == Before(|ACTS|)
    decreases |ACTS| - i
  {
    hide Enabled, Apply, Before;
    if i < |ACTS| {
      Onwards(i + 1);
      assert ACTS[i..][1..] == ACTS[i + 1..];
      if i == 0 { Makes(); } else if i == 1 { Finds(); } else if i == 2 { Removes(); } else if i == 3 { Fills(); } else { Releases(); }
    }
  }

  /** From the mount: an inode ends up in the table with neither a name nor a vnode, so that nothing will ever free it. */
  lemma InodeLost()
    ensures Legal(Mounted(3, 3, 3), ACTS)
    ensures var e := Run(Mounted(3, 3, 3), ACTS); 2 in e.inodes && 2 != ROOT && Names(e, 2) == {} && 2 !in e.vnodes
  {
    hide Legal, Run, Mounted, Names;
    Mounts();
    Onwards(0);
    assert ACTS[0..] == ACTS;
    forall p | p in Names(Before(6), 2) ensures false { NameIn(Before(6), 2, p.0, p.1); }
    assert Names(Before(6), 2) == {};
  }

  // -------------------------------------------------------- a parent that is gone

  const ORPHAN: seq<Action> := [Mkdir(0, "a"), Lookup(0, "a"), Mkdir(1, "b"), Lookup(1, "b"), Rmdir(1, "b"), Rmdir(0, "a"), Release(1)]

  /** The state before step i of the second run. */
  function Then(i: nat): Fs
    requires i <= |ORPHAN|
  {
    var root, named := Folder(2, 0, 0, Free), Folder(2, 0, 0, Entry("a", 1));
    if i <= 2 then Before(i)
    else if i == 3 then Disk(map[0 := named, 1 := Folder(2, 1, 0, Entry("b", 2)), 2 := Folder(1, 2, 1, Free)], map[0 := 1, 1 := 1])
    else if i == 4 then Disk(map[0 := named, 1 := Folder(2, 1, 0, Entry("b", 2)), 2 := Folder(2, 2, 1, Free)], map[0 := 1, 1 := 1, 2 := 1])
    else if i == 5 then Disk(map[0 := named, 1 := Folder(2, 1, 0, Free), 2 := Folder(1, 2, 1, Free)], map[0 := 1, 1 := 1, 2 := 1])
    else if i == 6 then Disk(map[0 := root, 1 := Folder(1, 1, 0, Free), 2 := Folder(1, 2, 1, Free)], map[0 := 1, 1 := 1, 2 := 1])
    else Disk(map[0 := root, 2 := Folder(1, 2, 1, Free)], map[0 := 1, 2 := 1])
  }

  lemma MakesBelow()
    ensures Enabled(Then(2), Mkdir(1, "b")) && Apply(Then(2), Mkdir(1, "b")).0 == Then(3)
  {
    assert FreeIno(Then(2), 0) == Some(2);
    hide FindName, FindFree, FreeIno;
    Found(2, 1, 0, Free, "b");
    Filled(2, 1, 0, Free, Entry("b", 2));
    assert NewSlots(Dir, 3, 2, 1) == Folder(1, 2, 1, Free).slots;
    assert Make(Then(2), 1, "b", Dir).0 == Made(Then(2), 1, 2, "b", 2, Dir);
    assert Made(Then(2), 1, 2, "b", 2, Dir).inodes == Then(3).inodes;
  }

  lemma FindsBelow()
    ensures Enabled(Then(3), Lookup(1, "b")) && Apply(Then(3), Lookup(1, "b")).0 == Then(4)
  {
    hide FindName;
    Found(2, 1, 0, Entry("b", 2), "b");
    assert Vget(Then(3), 2).inodes == Then(4).inodes;
  }

  lemma RemovesBelow()
    ensures Enabled(Then(4), Rmdir(1, "b")) && Apply(Then(4), Rmdir(1, "b")).0 == Then(5)
  {
    hide FindName;
    Found(2, 1, 0, Entry("b", 2), "b");
    Filled(2, 1, 0, Entry("b", 2), Free);
    var u := Unnamed(Vget(Then(4), 2), 1, 2, 2);
    assert u.inodes == Then(5).inodes;
    assert Vput(u, 2) == Then(5);
    assert Bare(Then(4).inodes[2].slots);
  }

  lemma RemovesAbove()
    ensures Enabled(Then(5), Rmdir(0, "a")) && Apply(Then(5), Rmdir(0, "a")).0 == Then(6)
  {
    hide FindName;
    Found(2, 0, 0, Entry("a", 1), "a");
    Filled(2, 0, 0, Entry("a", 1), Free);
    var u := Unnamed(Vget(Then(5), 1), 0, 2, 1);
    assert u.inodes == Then(6).inodes;
    assert Vput(u, 1) == Then(6);
    assert Bare(Then(5).inodes[1].slots);
  }

  lemma Frees()
    ensures Enabled(Then(6), Release(1)) && Apply(Then(6), Release(1)).0 == Then(7)
  {
    assert Apply(Then(6), Release(1)).0.inodes == Then(7).inodes;
  }

  lemma {:induction false} OnwardsBelow(i: nat)
    requires i <= |ORPHAN|
    ensures Legal(Then(i), ORPHAN[i..]) && Run(Then(i), ORPHAN[i..]) == Then(|ORPHAN|)
    decreases |ORPHAN| - i
  {
    hide Enabled, Apply, Before, Disk, Folder;
    if i < |ORPHAN| {
      OnwardsBelow(i + 1);
      assert ORPHAN[i..][1..] == ORPHAN[i + 1..];
      if i == 0 { Makes(); } else if i == 1 { Finds(); } else if i == 2 { MakesBelow(); } else if i == 3 { FindsBelow(); }
      else if i == 4 { RemovesBelow(); } else if i == 5 { RemovesAbove(); } else { Frees(); }
    }
  }

  lemma UpGone()
    ensures DirOk(Then(7), 2, "..") && Target(Then(7), 2, "..") == Some(1) && 1 !in Then(7).inodes
  {
    var slots := Then(7).inodes[2].slots;
    assert slots[1..][0] == Entry("..", 1);
    assert FindName(slots[1..], "..") == Some(0);
  }

  /** From the mount: ".." in a directory that the caller holds stands for no inode, so that looking it up fails an assertion. */
  lemma ParentGone()
    ensures Legal(Mounted(3, 3, 3), ORPHAN)
    ensures var e := Run(Mounted(3, 3, 3), ORPHAN); DirOk(e, 2, "..") && Target(e, 2, "..") == Some(1) && 1 !in e.inodes
  {
    hide Legal, Run, Mounted, Target;
    Mounts();
    OnwardsBelow(0);
    assert ORPHAN[0..] == ORPHAN;
    UpGone();
  }
}
