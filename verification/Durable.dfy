/** Crash-durable file replacement in one directory, with an explicit page cache.
    Only the destination and one other name of its directory matter: the deterministic
    temporary file of `AtomicWrite`, or the prepared file of `CommitPrepared`. */
module Durable {
  import opened Options
  import opened World

  type Bytes = seq<bv8>

  /** What a reader finds under a name. `plain` means a regular file of the current user. */
  datatype File = File(content: Bytes, mode: nat, plain: bool)

  /** `modes` are the modes a crash may leave behind until the next fsync of the file. */
  datatype Inode = Inode(file: File, synced: bool, modes: set<nat>)

  /** A directory entry now, and the older values a crash may bring back. */
  datatype Entry = Entry(now: Option<nat>, past: set<Option<nat>>)

  datatype Disk = Disk(inodes: map<nat, Inode>, next: nat, target: Entry, temp: Entry) {
    function Create(mode: nat): Disk {
      this.(inodes := inodes[next := Inode(File([], mode, true), false, {mode})], next := next + 1,
            temp := Entry(Some(next), temp.past + {temp.now}))
    }

    function Chmod(i: nat, mode: nat): Disk
      requires i in inodes
    {
      var n := inodes[i];
      this.(inodes := inodes[i := Inode(n.file.(mode := mode), false, n.modes + {mode})])
    }

    function Append(i: nat, more: Bytes): Disk
      requires i in inodes
    {
      var n := inodes[i];
      this.(inodes := inodes[i := n.(file := n.file.(content := n.file.content + more), synced := false)])
    }

    function Sync(i: nat): Disk
      requires i in inodes
    {
      var n := inodes[i];
      this.(inodes := inodes[i := n.(synced := true, modes := {n.file.mode})])
    }

    function Rename(): Disk {
      this.(target := Entry(temp.now, target.past + {target.now}), temp := Entry(None, temp.past + {temp.now}))
    }

    function Unlink(): Disk {
      this.(temp := Entry(None, temp.past + {temp.now}))
    }

    function SyncDirectory(): Disk {
      this.(target := Entry(target.now, {}), temp := Entry(temp.now, {}))
    }
  }

  predicate Entered(d: Disk, e: Entry) {
    forall o :: o in e.past + {e.now} ==> o.None? || o.value in d.inodes
  }

  predicate WellFormed(d: Disk) {
    && (forall i :: i in d.inodes ==> i < d.next && d.inodes[i].file.mode in d.inodes[i].modes)
    && Entered(d, d.target) && Entered(d, d.temp)
  }

  /** What a crash may leave of an inode: all of it once synced, else any content whatsoever. */
  predicate Shows(n: Inode, f: File) {
    if n.synced then f == n.file else f.plain == n.file.plain && f.mode in n.modes
  }

  predicate Surfaces(d: Disk, o: Option<nat>, f: Option<File>) {
    if o.None? then f.None? else o.value in d.inodes && f.Some? && Shows(d.inodes[o.value], f.value)
  }

  /** A crash now may leave `f` under the name. */
  ghost predicate MayHold(d: Disk, e: Entry, f: Option<File>) {
    exists o :: o in e.past + {e.now} && Surfaces(d, o, f)
  }

  ghost function Targets(d: Disk): iset<Option<File>> { iset f | MayHold(d, d.target, f) }
  ghost function Temps(d: Disk): iset<Option<File>> { iset f | MayHold(d, d.temp, f) }

  /** What a running process sees. */
  function Seen(d: Disk, e: Entry): Option<File>
    requires WellFormed(d) && Entered(d, e)
  {
    if e.now.None? then None else Some(d.inodes[e.now.value].file)
  }

  /** After a crash the surviving files are all there is. */
  function Rebooted(target: Option<File>, temp: Option<File>): (d: Disk)
    ensures WellFormed(d) && Targets(d) == iset{target} && Temps(d) == iset{temp}
    ensures Seen(d, d.target) == target && Seen(d, d.temp) == temp
  {
    var inodes: map<nat, Inode> :=
      (if target.Some? then map[0 := Inode(target.value, true, {target.value.mode})] else map[]) +
      (if temp.Some? then map[1 := Inode(temp.value, true, {temp.value.mode})] else map[]);
    var d := Disk(inodes, 2, Entry(if target.Some? then Some(0) else None, {}), Entry(if temp.Some? then Some(1) else None, {}));
    assert Surfaces(d, d.target.now, target) && Surfaces(d, d.temp.now, temp);
    d
  }

  /** Changing inodes the target cannot name changes nothing about it. */
  lemma TargetsAgree(d: Disk, e: Disk)
    requires d.target == e.target && Entered(d, d.target)
    requires forall o :: o in d.target.past + {d.target.now} && o.Some? ==> o.value in e.inodes && e.inodes[o.value] == d.inodes[o.value]
    ensures Targets(d) == Targets(e)
  {
    forall f ensures MayHold(d, d.target, f) <==> MayHold(e, e.target, f) {
      assert forall o :: o in d.target.past + {d.target.now} ==> (Surfaces(d, o, f) <==> Surfaces(e, o, f));
    }
  }

  /** Renaming a synced file adds it, whole, to what the destination may hold. */
  lemma RenameAdds(d: Disk, f: File)
    requires WellFormed(d) && d.temp.now.Some? && d.inodes[d.temp.now.value].synced && d.inodes[d.temp.now.value].file == f
    ensures Targets(d.Rename()) == Targets(d) + iset{Some(f)}
  {
    var e := d.Rename();
    forall g ensures MayHold(e, e.target, g) <==> MayHold(d, d.target, g) || g == Some(f) {
      assert Surfaces(e, d.temp.now, g) <==> g == Some(f);
      assert forall o :: Surfaces(e, o, g) <==> Surfaces(d, o, g);
      assert d.temp.now in e.target.past + {e.target.now};
      if MayHold(d, d.target, g) {
        var o :| o in d.target.past + {d.target.now} && Surfaces(d, o, g);
        assert o in e.target.past + {e.target.now};
      }
    }
  }

  datatype Stage = BeforeWrite | AfterWrite | AfterFileSync | AfterRename | AfterDirectorySync

  /** The disk as it was at a named stage. */
  datatype Mark = Mark(stage: Stage, disk: Disk)

  /** A temporary file that a later attempt removes rather than refuses. */
  predicate Removable(f: Option<File>, mode: nat) { f.None? || (f.value.plain && f.value.mode == mode) }

  predicate Replaceable(f: Option<File>, mode: nat, maximum: nat) {
    Removable(f, mode) && (f.Some? ==> |f.value.content| <= maximum)
  }

  /** Exactly when an attempt that meets no I/O error succeeds. */
  predicate Acceptable(d: Disk, payload: Bytes, mode: nat, maximum: nat)
    requires WellFormed(d)
  {
    |payload| <= maximum && Replaceable(Seen(d, d.target), mode, maximum) && Removable(Seen(d, d.temp), mode)
  }

  /** The temporary files one attempt may leave. `created` is `mode` under the process umask. */
  ghost function Drafts(created: nat, mode: nat): iset<Option<File>> {
    iset f: Option<File> | f.Some? && f.value.plain && f.value.mode in {created, mode}
  }

  /** Since `d`, only the new inode `d.next` has been written, and only the temporary names it. */
  ghost predicate Drafting(d: Disk, e: Disk, created: nat, mode: nat) {
    && WellFormed(d) && WellFormed(e)
    && e.target == d.target && e.temp == Entry(Some(d.next), d.temp.past + {d.temp.now})
    && d.next in e.inodes && (forall i :: i in d.inodes ==> i in e.inodes && e.inodes[i] == d.inodes[i])
    && e.inodes[d.next].file.plain && e.inodes[d.next].modes <= {created, mode}
  }

  lemma DraftingIsSafe(d: Disk, e: Disk, created: nat, mode: nat)
    requires Drafting(d, e, created, mode)
    ensures Targets(e) == Targets(d)
    ensures Temps(e) <= Temps(d) + Drafts(created, mode)
  {
    TargetsAgree(d, e);
    forall f | MayHold(e, e.temp, f) ensures f in Temps(d) + Drafts(created, mode) {
      var o :| o in e.temp.past + {e.temp.now} && Surfaces(e, o, f);
      if o != Some(d.next) { assert o in d.temp.past + {d.temp.now} && Surfaces(d, o, f); }
    }
  }

  /** Unlinking and syncing the directory lose nothing of the destination. */
  lemma UnlinkIsSafe(d: Disk)
    requires WellFormed(d)
    ensures WellFormed(d.Unlink()) && Targets(d.Unlink()) == Targets(d)
    ensures Temps(d.Unlink()) == Temps(d) + iset{None}
  {
    var e := d.Unlink();
    TargetsAgree(d, e);
    forall f ensures MayHold(e, e.temp, f) <==> MayHold(d, d.temp, f) || f == None {
      assert forall o :: Surfaces(e, o, f) <==> Surfaces(d, o, f);
      assert Surfaces(e, None, f) <==> f == None;
      assert e.temp.past + {e.temp.now} == d.temp.past + {d.temp.now, None};
    }
  }

  lemma SyncIsSafe(d: Disk)
    requires WellFormed(d)
    ensures WellFormed(d.SyncDirectory())
    ensures Targets(d.SyncDirectory()) <= Targets(d) && Temps(d.SyncDirectory()) <= Temps(d)
    ensures d.temp.now.None? ==> Temps(d.SyncDirectory()) == iset{None}
    ensures d.target.now.Some? && d.inodes[d.target.now.value].synced
            ==> Targets(d.SyncDirectory()) == iset{Some(d.inodes[d.target.now.value].file)}
  {
    var e := d.SyncDirectory();
    assert forall o, f :: Surfaces(e, o, f) <==> Surfaces(d, o, f);
    assert Surfaces(e, None, None);
    if d.target.now.Some? && d.inodes[d.target.now.value].synced {
      assert Surfaces(e, e.target.now, Some(d.inodes[d.target.now.value].file));
    }
  }

  /** When an attempt is accepted, spelled out: the payload fits, the destination is absent or a plain
      file of the exact mode within the limit, and the temporary is absent or plain with that mode. */
  lemma AcceptedExactly(d: Disk, payload: Bytes, mode: nat, maximum: nat)
    requires WellFormed(d)
    ensures Acceptable(d, payload, mode, maximum) <==>
            && |payload| <= maximum
            && (d.target.now.Some? ==>
                  var f := d.inodes[d.target.now.value].file;
                  f.plain && f.mode == mode && |f.content| <= maximum)
            && (d.temp.now.Some? ==>
                  var f := d.inodes[d.temp.now.value].file;
                  f.plain && f.mode == mode)
  {
  }

  /** The disk is free to lose what was not synced: a crash may leave any content at all in an
      unsynced file, and bring back any directory entry since the last sync of the directory. */
  lemma UnsyncedIsLost(d: Disk, i: nat, content: Bytes)
    requires i in d.inodes && !d.inodes[i].synced && d.inodes[i].file.mode in d.inodes[i].modes
    ensures d.target.now == Some(i) ==> Some(d.inodes[i].file.(content := content)) in Targets(d)
    ensures Some(i) in d.target.past ==> Some(d.inodes[i].file.(content := content)) in Targets(d)
    ensures d.temp.now == Some(i) ==> Some(d.inodes[i].file.(content := content)) in Temps(d)
  {
    assert Surfaces(d, Some(i), Some(d.inodes[i].file.(content := content)));
  }

  /** No call but a sync makes a file durable: a created file may come back with anything in it, and
      so may one that was written to; a changed mode may be either of the two. */
  lemma CallsAreNotDurable(d: Disk, i: nat, mode: nat, content: Bytes, more: Bytes)
    requires WellFormed(d) && i in d.inodes && d.temp.now == Some(i)
    ensures Some(File(content, mode, true)) in Temps(d.Create(mode)) && d.Create(mode).temp.now == Some(d.next)
    ensures Some(d.inodes[i].file.(content := content)) in Temps(d.Append(i, more))
    ensures Some(d.inodes[i].file.(content := content, mode := mode)) in Temps(d.Chmod(i, mode))
    ensures Some(d.inodes[i].file.(content := content)) in Temps(d.Chmod(i, mode))
    ensures Temps(d.Sync(i)) <= Temps(d)
  {
    var file := d.inodes[i].file;
    assert Surfaces(d.Create(mode), Some(d.next), Some(File(content, mode, true)));
    assert Surfaces(d.Append(i, more), Some(i), Some(file.(content := content)));
    assert Surfaces(d.Chmod(i, mode), Some(i), Some(file.(content := content, mode := mode)));
    assert Surfaces(d.Chmod(i, mode), Some(i), Some(file.(content := content)));
    SyncFileShrinks(d, i);
  }

  lemma EntriesComeBack(d: Disk, i: nat)
    requires i in d.inodes && d.inodes[i].synced
    ensures d.target.now == Some(i) ==>
              Some(d.inodes[i].file) in Targets(d.Rename()) && Some(d.inodes[i].file) in Targets(d)
    ensures d.temp.now == Some(i) ==> Some(d.inodes[i].file) in Temps(d.Unlink()) && None in Temps(d.Unlink())
    ensures d.target.past == {} && d.target.now == Some(i) ==> Targets(d) == iset{Some(d.inodes[i].file)}
  {
    assert Surfaces(d, Some(i), Some(d.inodes[i].file));
    assert Surfaces(d.Rename(), Some(i), Some(d.inodes[i].file));
    assert Surfaces(d.Unlink(), Some(i), Some(d.inodes[i].file)) && Surfaces(d.Unlink(), None, None);
    if d.target.now == Some(i) { assert d.target.now in d.Rename().target.past; }
    if d.temp.now == Some(i) { assert d.temp.now in d.Unlink().temp.past; }
  }

  /** A later attempt is accepted on the disk as it was at this mark. */
  predicate Retryable(m: Mark, mode: nat, maximum: nat) { WellFormed(m.disk) && Acceptable(m.disk, [], mode, maximum) }

  ghost predicate AllRetryable(marks: seq<Mark>, mode: nat, maximum: nat) {
    forall k :: 0 <= k < |marks| ==> Retryable(marks[k], mode, maximum)
  }

  /** After an interruption at a marked stage, an attempt with any payload that fits is accepted. */
  lemma RetryIsAccepted(marks: seq<Mark>, k: nat, payload: Bytes, mode: nat, maximum: nat)
    requires AllRetryable(marks, mode, maximum) && k < |marks| && |payload| <= maximum
    ensures WellFormed(marks[k].disk) && Acceptable(marks[k].disk, payload, mode, maximum)
  {
    assert Retryable(marks[k], mode, maximum);
  }

  /** The disk at this mark shows the renamed file under its new name only. */
  predicate Renamed(m: Mark, file: Option<File>) {
    && (m.stage == AfterRename || m.stage == AfterDirectorySync)
    && WellFormed(m.disk) && m.disk.temp.now.None? && Seen(m.disk, m.disk.target) == file
  }

  /** A prepared file is committed before its rename and gone after it. */
  predicate Recommittable(m: Mark, mode: nat, maximum: nat) {
    WellFormed(m.disk) && (Committable(m.disk, mode, maximum) <==> m.stage == AfterWrite || m.stage == AfterFileSync)
  }

  function StagesOf(marks: seq<Mark>): seq<Stage> { seq(|marks|, k requires 0 <= k < |marks| => marks[k].stage) }

  lemma StagesJoin(a: seq<Mark>, b: seq<Mark>, c: seq<Mark>)
    requires a <= b <= c
    ensures c[|a|..] == b[|a|..] + c[|b|..] && StagesOf(c[|a|..]) == StagesOf(b[|a|..]) + StagesOf(c[|b|..])
  {
    assert c[|a|..] == b[|a|..] + c[|b|..];
  }

  lemma MarksJoin(a: seq<Mark>, b: seq<Mark>, c: seq<Mark>, mode: nat, maximum: nat, file: Option<File>)
    requires a <= b <= c && AllRetryable(b[|a|..], mode, maximum) && Replaceable(file, mode, maximum)
    requires forall k :: |b| <= k < |c| ==> Renamed(c[k], file)
    ensures AllRetryable(c[|a|..], mode, maximum) && StagesOf(c[|a|..]) == StagesOf(b[|a|..]) + StagesOf(c[|b|..])
  {
    StagesJoin(a, b, c);
    forall k | 0 <= k < |c[|b|..]| ensures Retryable(c[|b|..][k], mode, maximum) {
      assert Renamed(c[|b| + k], file);
    }
  }

  class Volume {
    var disk: Disk
    /** Everything a crash may have left under either name at any moment so far. */
    ghost var targets: iset<Option<File>>
    ghost var temps: iset<Option<File>>
    ghost var marks: seq<Mark>

    ghost predicate Valid()
      reads this
    {
      WellFormed(disk) && Targets(disk) <= targets && Temps(disk) <= temps
    }

    constructor (disk: Disk)
      requires WellFormed(disk)
      ensures Valid() && this.disk == disk && targets == Targets(disk) && temps == Temps(disk) && marks == []
    {
      this.disk := disk;
      targets, temps, marks := Targets(disk), Temps(disk), [];
    }

    /** One system call: it happens as a whole or fails without effect. */
    method Attempt(after: Disk, obliging: bool) returns (ok: bool)
      requires Valid() && WellFormed(after)
      modifies this`disk, this`targets, this`temps
      ensures Valid() && disk == if ok then after else old(disk)
      ensures targets == old(targets) + Targets(disk) && temps == old(temps) + Temps(disk)
      ensures obliging ==> ok
    {
      ok := GoesWell(obliging);
      if ok { disk := after; }
      targets, temps := targets + Targets(disk), temps + Temps(disk);
    }

    ghost method Hook(stage: Stage)
      modifies this`marks
      ensures marks == old(marks) + [Mark(stage, disk)]
    {
      marks := marks + [Mark(stage, disk)];
    }

    /** Remove a leftover temporary file, or refuse one that is not ours. */
    method RemoveStale(mode: nat, obliging: bool) returns (ok: bool)
      requires Valid()
      modifies this`disk, this`targets, this`temps
      ensures Valid() && targets == old(targets) && temps <= old(temps) + iset{None}
      ensures disk.inodes == old(disk.inodes) && disk.next == old(disk.next) && disk.target.now == old(disk.target.now)
      ensures ok ==> disk.temp.now.None? && Removable(Seen(old(disk), old(disk.temp)), mode)
      ensures !ok && !Removable(Seen(old(disk), old(disk.temp)), mode) ==> disk == old(disk)
      ensures disk.temp.now == old(disk.temp.now) || disk.temp.now.None?
      ensures obliging ==> (ok <==> Removable(Seen(old(disk), old(disk.temp)), mode))
    {
      if disk.temp.now.None? { return true; }
      if !Removable(Seen(disk, disk.temp), mode) { return false; }
      UnlinkIsSafe(disk);
      ok := Attempt(disk.Unlink(), obliging);
      if !ok { return; }
      SyncIsSafe(disk);
      ok := Attempt(disk.SyncDirectory(), obliging);
    }

    /** One write call, which may accept any part of the view; 0 stands for no progress or an error. */
    method WriteSome(i: nat, view: Bytes, ghost d: Disk, created: nat, mode: nat, obliging: bool) returns (written: nat)
      requires Valid() && i == d.next && Drafting(d, disk, created, mode) && view != []
      requires targets >= Targets(d) && temps >= Temps(d)
      modifies this`disk, this`targets, this`temps
      ensures Valid() && Drafting(d, disk, created, mode) && targets == old(targets)
      ensures old(temps) <= temps <= old(temps) + Drafts(created, mode)
      ensures disk.inodes[i].file.mode == old(disk.inodes[i].file.mode)
      ensures written <= |view| && disk.inodes[i].file.content == old(disk.inodes[i].file.content) + view[..written]
      ensures obliging ==> written > 0
    {
      var some: int := *;
      written := if 0 < some <= |view| then some else if obliging then 1 else 0;
      DraftingIsSafe(d, disk, created, mode);
      DraftingIsSafe(d, disk.Append(i, view[..written]), created, mode);
      var ok := Attempt(disk.Append(i, view[..written]), obliging);
      if !ok { written := 0; }
    }

    /** Write the whole view, however little each call accepts. */
    method WriteAll(i: nat, payload: Bytes, ghost d: Disk, created: nat, mode: nat, obliging: bool) returns (ok: bool)
      requires Valid() && i == d.next && Drafting(d, disk, created, mode) && disk.inodes[i].file.content == []
      requires targets >= Targets(d) && temps >= Temps(d)
      modifies this`disk, this`targets, this`temps
      ensures Valid() && Drafting(d, disk, created, mode) && targets == old(targets)
      ensures old(temps) <= temps <= old(temps) + Drafts(created, mode)
      ensures disk.inodes[i].file.mode == old(disk.inodes[i].file.mode)
      ensures ok ==> disk.inodes[i].file.content == payload
      ensures obliging ==> ok
    {
      var view := payload;
      while view != []
        invariant Valid() && Drafting(d, disk, created, mode) && targets == old(targets)
        invariant old(temps) <= temps <= old(temps) + Drafts(created, mode)
        invariant disk.inodes[i].file.mode == old(disk.inodes[i].file.mode)
        invariant disk.inodes[i].file.content + view == payload
        decreases |view|
      {
        var written := WriteSome(i, view, d, created, mode, obliging);
        if written == 0 { return false; }
        assert view == view[..written] + view[written..];
        view := view[written..];
      }
      ok := true;
    }

    /** Create the temporary file and give it its exact mode. */
    method Open(created: nat, mode: nat, obliging: bool) returns (ok: bool)
      requires Valid() && disk.temp.now.None?
      modifies this`disk, this`targets, this`temps
      ensures Valid() && targets == old(targets) && old(temps) <= temps <= old(temps) + Drafts(created, mode)
      ensures disk == old(disk) || Drafting(old(disk), disk, created, mode)
      ensures ok ==> Drafting(old(disk), disk, created, mode)
                     && disk.inodes[old(disk.next)].file == File([], mode, true)
      ensures obliging ==> ok
    {
      ghost var d := disk;
      DraftingIsSafe(d, disk.Create(created), created, mode);
      ok := Attempt(disk.Create(created), obliging);
      if !ok { return; }
      DraftingIsSafe(d, disk.Chmod(d.next, mode), created, mode);
      ok := Attempt(disk.Chmod(disk.next - 1, mode), obliging);
    }

    /** Sync the temporary file and look at it once more. */
    method Seal(i: nat, size: nat, ghost d: Disk, created: nat, mode: nat, obliging: bool) returns (ok: bool)
      requires Valid() && i == d.next && Drafting(d, disk, created, mode)
      requires targets >= Targets(d) && temps >= Temps(d)
      modifies this
      ensures Valid() && Drafting(d, disk, created, mode) && targets == old(targets)
      ensures old(temps) <= temps <= old(temps) + Drafts(created, mode)
      ensures disk.inodes[i].file == old(disk.inodes[i].file)
      ensures ok ==> disk.inodes[i].synced && disk.inodes[i].modes == {disk.inodes[i].file.mode}
      ensures ok ==> disk.inodes[i].file.mode == mode && |disk.inodes[i].file.content| == size
      ensures marks == old(marks) + (if |marks| > |old(marks)| then [Mark(AfterFileSync, disk)] else [])
      ensures ok ==> |marks| > |old(marks)|
      ensures obliging && disk.inodes[i].file.mode == mode && |disk.inodes[i].file.content| == size ==> ok
    {
      DraftingIsSafe(d, disk.Sync(i), created, mode);
      DraftingIsSafe(d, disk, created, mode);
      ok := Attempt(disk.Sync(i), obliging);
      if !ok { return; }
      Hook(AfterFileSync);
      var known: bool := *;
      var file := disk.inodes[i].file;
      ok := (known || obliging) && file.plain && file.mode == mode && |file.content| == size;
    }

    /** Create the temporary file with its final mode and content, and sync it. */
    method Draft(payload: Bytes, created: nat, mode: nat, maximum: nat, obliging: bool) returns (ok: bool)
      requires Valid() && disk.temp.now.None? && Replaceable(Seen(disk, disk.target), mode, maximum)
      modifies this
      ensures Valid() && targets == old(targets) && old(temps) <= temps <= old(temps) + Drafts(created, mode)
      ensures disk == old(disk) || Drafting(old(disk), disk, created, mode)
      ensures ok ==> Drafting(old(disk), disk, created, mode)
                     && disk.inodes[old(disk.next)] == Inode(File(payload, mode, true), true, {mode})
      ensures old(marks) <= marks && AllRetryable(marks[|old(marks)|..], mode, maximum)
      ensures ok ==> StagesOf(marks[|old(marks)|..]) == [BeforeWrite, AfterWrite, AfterFileSync]
      ensures obliging ==> ok
    {
      ghost var d := disk;
      var i := disk.next;
      ok := Open(created, mode, obliging);
      if !ok { return; }
      Hook(BeforeWrite);
      ok := WriteAll(i, payload, d, created, mode, obliging);
      if !ok { return; }
      Hook(AfterWrite);
      ok := Seal(i, |payload|, d, created, mode, obliging);
    }

    /** Rename a synced file over the destination and sync the directory. */
    method Publish(obliging: bool) returns (renamed: bool, ok: bool)
      requires Valid() && disk.temp.now.Some? && disk.inodes[disk.temp.now.value].synced
      modifies this
      ensures Valid() && targets <= old(targets) + iset{Seen(old(disk), old(disk.temp))} && temps <= old(temps) + iset{None}
      ensures renamed ==> disk.temp.now.None? && Seen(disk, disk.target) == Seen(old(disk), old(disk.temp))
      ensures !renamed ==> disk == old(disk)
      ensures ok ==> renamed && Targets(disk) == iset{Seen(old(disk), old(disk.temp))} && Temps(disk) == iset{None}
      ensures old(marks) <= marks
      ensures forall k :: |old(marks)| <= k < |marks| ==> Renamed(marks[k], Seen(old(disk), old(disk.temp)))
      ensures ok ==> StagesOf(marks[|old(marks)|..]) == [AfterRename, AfterDirectorySync]
      ensures obliging ==> ok
    {
      ghost var file := disk.inodes[disk.temp.now.value].file;
      RenameAdds(disk, file);
      UnlinkIsSafe(disk);
      RenamedTemps(disk);
      renamed := Attempt(disk.Rename(), obliging);
      if !renamed { return false, false; }
      Hook(AfterRename);
      SyncIsSafe(disk);
      ok := Attempt(disk.SyncDirectory(), obliging);
      if ok { Hook(AfterDirectorySync); }
    }

    /** Replace the destination, whatever an earlier attempt left behind. */
    method AtomicWrite(payload: Bytes, created: nat, mode: nat, maximum: nat, obliging: bool) returns (ok: bool)
      requires Valid()
      modifies this
      ensures Valid()
      ensures targets <= old(targets) + iset{Some(File(payload, mode, true))}
      ensures temps <= old(temps) + iset{None} + Drafts(created, mode)
      ensures ok ==> Targets(disk) == iset{Some(File(payload, mode, true))} && Temps(disk) == iset{None}
      ensures !ok ==> Seen(disk, disk.target) == Seen(old(disk), old(disk.target))
                      || Seen(disk, disk.target) == Some(File(payload, mode, true))
      ensures ok ==> Acceptable(old(disk), payload, mode, maximum)
      ensures obliging && Acceptable(old(disk), payload, mode, maximum) ==> ok
      ensures obliging && |payload| <= maximum && Removable(Seen(old(disk), old(disk.temp)), mode) ==> disk.temp.now.None?
      ensures old(marks) <= marks && AllRetryable(marks[|old(marks)|..], mode, maximum)
      ensures ok ==> StagesOf(marks[|old(marks)|..])
                     == [BeforeWrite, AfterWrite, AfterFileSync, AfterRename, AfterDirectorySync]
    {
      if |payload| > maximum { return false; }
      var renamed := false;
      ok := Replaceable(Seen(disk, disk.target), mode, maximum);
      if ok { ok := RemoveStale(mode, obliging); }
      if ok { renamed, ok := DraftAndPublish(payload, created, mode, maximum, obliging); }
      if !renamed {
        var removed := RemoveStale(mode, obliging);
      }
    }

    /** Write the temporary file and rename it, marking every stage. */
    method DraftAndPublish(payload: Bytes, created: nat, mode: nat, maximum: nat, obliging: bool) returns (renamed: bool, ok: bool)
      requires Valid() && disk.temp.now.None? && Replaceable(Seen(disk, disk.target), mode, maximum) && |payload| <= maximum
      modifies this
      ensures Valid()
      ensures targets <= old(targets) + iset{Some(File(payload, mode, true))}
      ensures temps <= old(temps) + iset{None} + Drafts(created, mode)
      ensures ok ==> renamed && Targets(disk) == iset{Some(File(payload, mode, true))} && Temps(disk) == iset{None}
      ensures renamed ==> disk.temp.now.None? && Seen(disk, disk.target) == Some(File(payload, mode, true))
      ensures !renamed ==> Seen(disk, disk.target) == Seen(old(disk), old(disk.target))
      ensures old(marks) <= marks && AllRetryable(marks[|old(marks)|..], mode, maximum)
      ensures ok ==> StagesOf(marks[|old(marks)|..])
                     == [BeforeWrite, AfterWrite, AfterFileSync, AfterRename, AfterDirectorySync]
      ensures obliging ==> ok
    {
      renamed := false;
      ok := Draft(payload, created, mode, maximum, obliging);
      if !ok { return; }
      ghost var drafted := marks;
      renamed, ok := Publish(obliging);
      MarksJoin(old(marks), drafted, marks, mode, maximum, Some(File(payload, mode, true)));
    }

    /** Rename an already written file of the same directory over the destination. */
    method CommitPrepared(mode: nat, maximum: nat, obliging: bool) returns (ok: bool)
      requires Valid()
      modifies this
      ensures Valid()
      ensures targets <= old(targets) + iset{Seen(old(disk), old(disk.temp))} && temps <= old(temps) + iset{None}
      ensures ok ==> Targets(disk) == iset{Seen(old(disk), old(disk.temp))} && Temps(disk) == iset{None}
      ensures !ok ==> Seen(disk, disk.target) == Seen(old(disk), old(disk.target))
                      || Seen(disk, disk.target) == Seen(old(disk), old(disk.temp))
      ensures ok ==> Committable(old(disk), mode, maximum)
      ensures obliging && Committable(old(disk), mode, maximum) ==> ok
      ensures old(marks) <= marks
      ensures forall k :: |old(marks)| <= k < |marks| ==> Recommittable(marks[k], mode, maximum)
      ensures ok ==> StagesOf(marks[|old(marks)|..]) == [AfterWrite, AfterFileSync, AfterRename, AfterDirectorySync]
    {
      if !Replaceable(Seen(disk, disk.target), mode, maximum) || disk.temp.now.None? { return false; }
      var i := disk.temp.now.value;
      if !Replaceable(Some(disk.inodes[i].file), mode, maximum) { return false; }
      Hook(AfterWrite);
      SyncFileShrinks(disk, i);
      ok := Attempt(disk.Sync(i), obliging);
      if !ok { return; }
      Hook(AfterFileSync);
      ghost var before := marks;
      var renamed;
      renamed, ok := Publish(obliging);
      StagesJoin(old(marks), before, marks);
      assert StagesOf(before[|old(marks)|..]) == [AfterWrite, AfterFileSync];
    }
  }

  predicate Committable(d: Disk, mode: nat, maximum: nat)
    requires WellFormed(d)
  {
    && Replaceable(Seen(d, d.target), mode, maximum)
    && d.temp.now.Some? && Replaceable(Seen(d, d.temp), mode, maximum)
  }

  /** Syncing a file only rules surprises out, even when both names share it. */
  lemma SyncFileShrinks(d: Disk, i: nat)
    requires WellFormed(d) && i in d.inodes
    ensures WellFormed(d.Sync(i)) && Targets(d.Sync(i)) <= Targets(d) && Temps(d.Sync(i)) <= Temps(d)
  {
    var e := d.Sync(i);
    forall o, f | Surfaces(e, o, f) ensures Surfaces(d, o, f) {
    }
  }

  lemma RenamedTemps(d: Disk)
    requires WellFormed(d)
    ensures Temps(d.Rename()) == Temps(d.Unlink())
  {
    forall f ensures MayHold(d.Rename(), d.Rename().temp, f) <==> MayHold(d.Unlink(), d.Unlink().temp, f) {
      assert forall o :: Surfaces(d.Rename(), o, f) <==> Surfaces(d.Unlink(), o, f);
    }
  }

  /** What one crash may leave of the two names. */
  datatype Boot = Boot(target: Option<File>, temp: Option<File>)

  /** `after` is a crash image of an `AtomicWrite` of `payload` begun on `before`. */
  ghost predicate Survives(before: Boot, payload: Bytes, created: nat, mode: nat, after: Boot) {
    && after.target in iset{before.target, Some(File(payload, mode, true))}
    && after.temp in iset{before.temp, None} + Drafts(created, mode)
  }

  /** One attempt on a freshly booted machine, cut short anywhere, leaves only surviving images. */
  method WriteAfterBoot(before: Boot, payload: Bytes, created: nat, mode: nat, maximum: nat, obliging: bool)
      returns (volume: Volume, ok: bool)
    ensures fresh(volume) && volume.Valid()
    ensures forall target, temp :: target in volume.targets && temp in volume.temps ==>
              Survives(before, payload, created, mode, Boot(target, temp))
    ensures ok ==> Targets(volume.disk) == iset{Some(File(payload, mode, true))} && Temps(volume.disk) == iset{None}
    ensures obliging && Acceptable(Rebooted(before.target, before.temp), payload, mode, maximum) ==> ok
  {
    volume := new Volume(Rebooted(before.target, before.temp));
    ok := volume.AtomicWrite(payload, created, mode, maximum, obliging);
  }

  /** Over any number of attempts, each cut short by a crash anywhere, the destination holds its
      first contents or one whole payload; and as long as the umask takes nothing from the mode,
      the next attempt is accepted. */
  lemma {:induction false} CrashesAreHarmless(boots: seq<Boot>, payloads: seq<Bytes>, created: nat, mode: nat, maximum: nat)
    requires |boots| == |payloads| + 1
    requires forall i :: 0 <= i < |payloads| ==> Survives(boots[i], payloads[i], created, mode, boots[i + 1])
    ensures var last := boots[|payloads|];
            last.target == boots[0].target || exists i :: 0 <= i < |payloads| && last.target == Some(File(payloads[i], mode, true))
    ensures created == mode && Removable(boots[0].temp, mode) && Replaceable(boots[0].target, mode, maximum)
            && (forall i :: 0 <= i < |payloads| ==> |payloads[i]| <= maximum)
            ==> var last := boots[|payloads|];
                forall payload :: |payload| <= maximum ==> Acceptable(Rebooted(last.target, last.temp), payload, mode, maximum)
    decreases |payloads|
  {
    var n := |payloads|;
    if n > 0 {
      CrashesAreHarmless(boots[..n], payloads[..n - 1], created, mode, maximum);
      assert Survives(boots[n - 1], payloads[n - 1], created, mode, boots[n]);
      var last := boots[n];
      if last.target == boots[n - 1].target && last.target != boots[0].target {
        var i :| 0 <= i < n - 1 && boots[n - 1].target == Some(File(payloads[..n - 1][i], mode, true));
        assert payloads[i] == payloads[..n - 1][i];
      }
      var d := Rebooted(boots[n - 1].target, boots[n - 1].temp);
      assert created == mode && Removable(boots[0].temp, mode) && Replaceable(boots[0].target, mode, maximum)
             && (forall i :: 0 <= i < |payloads| ==> |payloads[i]| <= maximum)
             ==> Acceptable(d, payloads[n - 1], mode, maximum);
    }
  }

  /** The umask is the whole failing family: a crash between creation and `fchmod` leaves a file
      that every later attempt refuses exactly when the created mode differs from the wanted one. */
  lemma RetryableExactly(target: Option<File>, payload: Bytes, created: nat, mode: nat, maximum: nat)
    requires Replaceable(target, mode, maximum) && |payload| <= maximum
    ensures created == mode <==>
            forall temp :: temp in Temps(Rebooted(target, None).Create(created)) ==>
              Acceptable(Rebooted(target, temp), payload, mode, maximum)
  {
    var d := Rebooted(target, None);
    var e := d.Create(created);
    var stale := Some(File([], created, true));
    assert stale in Temps(e) by { assert Surfaces(e, e.temp.now, stale); }
    assert Acceptable(Rebooted(target, stale), payload, mode, maximum) <==> created == mode;
    forall temp | temp in Temps(e) ensures temp == None || (temp.Some? && temp.value.plain && temp.value.mode == created) {
      var o :| o in e.temp.past + {e.temp.now} && Surfaces(e, o, temp);
    }
  }
}
