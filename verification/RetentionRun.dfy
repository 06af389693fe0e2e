/** Running retention on a directory whose unlinks a crash may undo until the next fsync. */
module RetentionRun {
  import opened Options
  import opened World
  import opened Sorting
  import opened Retention

  /** What a scan learns about one set. */
  datatype Found = Found(present: set<Part>, unsafe: bool, record: Option<Record>) {
    predicate Committed() { Manifest in present }
    predicate Complete(slot: Slot) {
      !unsafe && present == {Ciphertext, Checksum, Manifest} && record.Some? && record.value.names == slot
    }
  }

  function Parts(r: Root, slot: Slot): set<Part> {
    set part | part in {Ciphertext, Checksum, Manifest} && Entry(slot, part) in r.entries
  }

  predicate Scanned(keyed: bool, slot: Slot) { keyed || slot.series == Backups }

  ghost predicate Describes(found: map<Slot, Found>, r: Root, keyed: bool) {
    && (forall slot :: slot in found <==> slot in r.Slots() && Scanned(keyed, slot))
    && (forall slot :: slot in found ==>
          found[slot] == Found(Parts(r, slot), r.Unsafe(slot), r.Reading(slot)))
  }

  /** As `Describes`, before any manifest is read. */
  ghost predicate Tallied(found: map<Slot, Found>, r: Root, keyed: bool) {
    && (forall slot :: slot in found <==> slot in r.Slots() && Scanned(keyed, slot))
    && (forall slot :: slot in found ==> found[slot] == Found(Parts(r, slot), r.Unsafe(slot), None))
  }

  function Tally(found: map<Slot, Found>, unsafe: set<Entry>, keyed: bool, e: Entry): map<Slot, Found> {
    if !Scanned(keyed, e.slot) then found
    else
      var seen := if e.slot in found then found[e.slot] else Found({}, false, None);
      found[e.slot := Found(seen.present + {e.part}, seen.unsafe || e in unsafe, None)]
  }

  function ReadManifests(found: map<Slot, Found>, records: map<Slot, Record>): map<Slot, Found> {
    map slot | slot in found ::
      if found[slot].Committed() && !found[slot].unsafe && slot in records
      then found[slot].(record := Some(records[slot])) else found[slot]
  }

  lemma ReadingDescribes(found: map<Slot, Found>, r: Root, keyed: bool)
    requires Tallied(found, r, keyed)
    ensures Describes(ReadManifests(found, r.records), r, keyed)
  {
    forall slot | slot in found ensures Manifest in Parts(r, slot) <==> r.Committed(slot) {
      PartsAgree(r, slot, Manifest);
    }
  }

  lemma TallyOne(found: map<Slot, Found>, r: Root, keyed: bool, e: Entry)
    requires Tallied(found, r, keyed)
    ensures Tallied(Tally(found, r.unsafe, keyed, e), r.(entries := r.entries + {e}), keyed)
  {
    OneMore(r, e);
    assert e.slot !in r.Slots() ==> Parts(r, e.slot) == {} && !r.Unsafe(e.slot) by {
      if e.slot !in r.Slots() {
        assert forall part :: Entry(e.slot, part) in r.entries ==> Entry(e.slot, part).slot in r.Slots();
      }
    }
  }

  lemma FoundAgrees(r: Root, slot: Slot)
    ensures var f := Found(Parts(r, slot), r.Unsafe(slot), r.Reading(slot));
            f.Committed() == r.Committed(slot) && f.Complete(slot) == r.Complete(slot)
  {
    PartsAgree(r, slot, Ciphertext);
    PartsAgree(r, slot, Checksum);
    PartsAgree(r, slot, Manifest);
    forall part ensures part in Parts(r, slot) <==> Entry(slot, part) in r.entries { PartsAgree(r, slot, part); }
    if Parts(r, slot) == {Ciphertext, Checksum, Manifest} {
      forall part ensures Entry(slot, part) in r.entries { PartsAgree(r, slot, part); }
    } else {
      assert Entry(slot, Ciphertext) !in r.entries || Entry(slot, Checksum) !in r.entries || Entry(slot, Manifest) !in r.entries;
    }
  }

  lemma PartsAgree(r: Root, slot: Slot, part: Part)
    ensures part in Parts(r, slot) <==> Entry(slot, part) in r.entries
    ensures part in {Ciphertext, Checksum, Manifest}
  {
    match part case Ciphertext => case Checksum => case Manifest =>
  }

  /** No set keeps its manifest but lacks a member it had, and no committed, safe and readable
      backup lacks a member of the key archive it references. */
  ghost predicate Intact(start: Root, image: set<Entry>) {
    && (forall slot :: Entry(slot, Manifest) in image ==> KeepsAll(start, slot, image))
    && (forall x, k :: References(start, x, k) && Entry(Slot(Backups, x), Manifest) in image ==>
          KeepsAll(start, Slot(KeyArchives, k), image))
  }

  ghost predicate KeepsAll(start: Root, slot: Slot, image: set<Entry>) {
    forall part :: Entry(slot, part) in start.entries ==> Entry(slot, part) in image
  }

  ghost predicate References(r: Root, x: int, k: int) {
    r.Reading(Slot(Backups, x)).Some? && r.Reading(Slot(Backups, x)).value.sourceKeys == Some(k)
  }

  /** An image with one set partly removed, its manifest first. */
  ghost predicate Midway(entries: set<Entry>, durable: set<Entry>, slot: Slot, image: set<Entry>) {
    && image <= durable
    && (forall e :: e in entries && e.slot != slot ==> e in image)
    && (Entry(slot, Manifest) in image ==> forall part :: Entry(slot, part) in entries ==> Entry(slot, part) in image)
  }

  /** No unlinked manifest can come back: the disk commits no set that the directory does not. */
  ghost predicate Uncommitted(start: Root, durable: set<Entry>) {
    forall slot :: Entry(slot, Manifest) in durable ==> start.Committed(slot)
  }

  /** The sets in `gone` are removed, durably uncommitted, and needed by no committed backup. */
  ghost predicate Removed(start: Root, entries: set<Entry>, durable: set<Entry>, gone: set<Slot>) {
    && entries == start.Without(gone).entries && Uncommitted(start, durable)
    && (forall slot :: slot in gone ==> Entry(slot, Manifest) !in durable)
    && (forall slot :: slot in gone && slot.series == KeyArchives ==> Unreferenced(start, slot.stamp, durable))
  }

  ghost predicate Unreferenced(start: Root, k: int, durable: set<Entry>) {
    forall x :: References(start, x, k) ==> Entry(Slot(Backups, x), Manifest) !in durable
  }

  /** An image that lacks nothing but members of the sets in `gone`. */
  ghost predicate Between(start: Root, gone: set<Slot>, image: set<Entry>) {
    start.Without(gone).entries <= image
  }

  /** Everything that survives the policy is there. */
  ghost predicate Spares(start: Root, p: Policy, image: set<Entry>) {
    Survivors(start, p).entries <= image
  }

  lemma BetweenSpares(start: Root, p: Policy, gone: set<Slot>, image: set<Entry>)
    requires Between(start, gone, image)
    requires gone <= DoomedBackups(start, p) + DoomedArchives(AfterBackups(start, p), p)
    ensures Spares(start, p, image)
  {
  }

  lemma MidwayIsIntact(start: Root, entries: set<Entry>, durable: set<Entry>, gone: set<Slot>, slot: Slot, image: set<Entry>)
    requires Removed(start, entries, durable, gone) && slot !in gone && Midway(entries, durable, slot, image)
    requires slot.series == KeyArchives ==> Unreferenced(start, slot.stamp, durable)
    ensures Intact(start, image)
  {
    forall other | other !in gone && other != slot ensures KeepsAll(start, other, image) {
      forall part | Entry(other, part) in start.entries ensures Entry(other, part) in image {
        assert Entry(other, part) in entries;
      }
    }
    if Entry(slot, Manifest) in image {
      forall part | Entry(slot, part) in start.entries ensures Entry(slot, part) in image {
        assert Entry(slot, part) in entries;
      }
    }
  }

  lemma SettledIsIntact(start: Root, entries: set<Entry>, durable: set<Entry>, gone: set<Slot>, image: set<Entry>)
    requires Removed(start, entries, durable, gone) && entries <= image <= durable
    ensures Intact(start, image)
  {
    forall other | other !in gone ensures KeepsAll(start, other, image) {
      forall part | Entry(other, part) in start.entries ensures Entry(other, part) in image {
        assert Entry(other, part) in entries;
      }
    }
  }

  /** Why the manifest must go first and durably: unlinking the members of a set can leave it
      committed without them exactly when the disk still holds its manifest and another member. */
  lemma TornExactly(r: Root, slot: Slot)
    ensures (forall image :: r.Without({slot}).entries <= image <= r.entries && Entry(slot, Manifest) in image ==>
               KeepsAll(r, slot, image))
            <==> !r.Committed(slot) || forall part :: Entry(slot, part) in r.entries ==> part == Manifest
  {
    var torn := r.Without({slot}).entries + {Entry(slot, Manifest)};
    if r.Committed(slot) && exists part :: Entry(slot, part) in r.entries && part != Manifest {
      var part :| Entry(slot, part) in r.entries && part != Manifest;
      assert Entry(slot, part) !in torn && torn <= r.entries;
      assert !KeepsAll(r, slot, torn);
    }
  }

  predicate Later(a: int, b: int) { a > b }

  /** The newest `minimum` complete backups and the one just written. */
  method FloorOf(complete: set<int>, minimum: nat, keep: int) returns (floor: set<int>)
    ensures floor == Top(complete, minimum) + {keep}
  {
    var list := Elements(complete);
    var ranked := Sort(Later, list);
    var n := if minimum < |ranked| then minimum else |ranked|;
    floor := (set x | x in ranked[..n]) + {keep};
    LaterIsLinear(complete);
    SortOrders(Later, list, complete);
    forall x ensures x in ranked[..n] <==> x in Top(complete, minimum) {
      RankedFirst(complete, ranked, minimum, x);
    }
  }

  lemma LaterIsLinear(all: set<int>)
    ensures Linear(Later, all)
  {
  }

  lemma RankedFirst(complete: set<int>, ranked: seq<int>, minimum: nat, x: int)
    requires Linear(Later, complete) && Ascending(Later, ranked) && (forall y :: y in ranked <==> y in complete)
    ensures x in ranked[..if minimum < |ranked| then minimum else |ranked|] <==> x in Top(complete, minimum)
  {
    var n := if minimum < |ranked| then minimum else |ranked|;
    assert Above(complete, x) == Smaller(Later, ranked, x);
    FirstOnes(Later, ranked, complete, n, x);
    if x in complete && n < minimum {
      var k :| 0 <= k < |ranked| && ranked[k] == x;
      SmallerOnes(Later, ranked, complete, k);
    }
  }

  class Folder {
    const unsafe: set<Entry>
    const records: map<Slot, Record>
    var entries: set<Entry>
    /** What the last fsync left on disk, and everything a crash may have left so far. */
    ghost var durable: set<Entry>
    ghost var images: iset<set<Entry>>

    ghost predicate Valid()
      reads this
    {
      entries <= durable && forall image :: entries <= image <= durable ==> image in images
    }

    function State(): Root
      reads this
    {
      Root(entries, unsafe, records)
    }

    constructor (root: Root)
      ensures Valid() && State() == root && durable == entries && images == iset{entries}
    {
      unsafe, records, entries := root.unsafe, root.records, root.entries;
      durable, images := root.entries, iset{root.entries};
      assert forall image :: root.entries <= image <= root.entries ==> image == root.entries;
    }

    method Unlink(e: Entry, obliging: bool) returns (ok: bool)
      requires Valid()
      modifies this`entries, this`images
      ensures Valid() && entries == if ok then old(entries) - {e} else old(entries)
      ensures images == old(images) + iset image | entries <= image <= durable
      ensures obliging ==> ok
    {
      ok := GoesWell(obliging);
      if ok { entries := entries - {e}; }
      images := images + iset image | entries <= image <= durable;
    }

    method Sync(obliging: bool) returns (ok: bool)
      requires Valid()
      modifies this`durable, this`images
      ensures Valid() && durable == if ok then entries else old(durable)
      ensures images == old(images)
      ensures obliging ==> ok
    {
      ok := GoesWell(obliging);
      if ok { durable := entries; }
    }

    /** Remove one set, its manifest first and durably. */
    method Remove(slot: Slot, present: set<Part>, obliging: bool) returns (ok: bool)
      requires Valid() && present == Parts(State(), slot)
      requires Entry(slot, Manifest) in durable ==> Entry(slot, Manifest) in entries
      modifies this`entries, this`durable, this`images
      ensures Valid() && durable <= old(durable)
      ensures forall image :: image in images ==> image in old(images) || Midway(old(entries), old(durable), slot, image)
      ensures ok ==> entries == (set e | e in old(entries) && e.slot != slot) && Entry(slot, Manifest) !in durable
      ensures obliging ==> ok
    {
      ok := true;
      if Manifest in present {
        ok := Unlink(Entry(slot, Manifest), obliging);
        if ok { ok := Sync(obliging); }
        if !ok { return; }
      }
      if Checksum in present { ok := Unlink(Entry(slot, Checksum), obliging); }
      if !ok { return; }
      if Ciphertext in present { ok := Unlink(Entry(slot, Ciphertext), obliging); }
      if ok {
        forall e | e in old(entries) ensures e in entries <==> e.slot != slot {
          PartsAgree(old(State()), slot, e.part);
        }
      }
    }

    /** Group the entries into sets, and read the manifests of the committed, safe ones. */
    method Scan(keyed: bool) returns (found: map<Slot, Found>)
      ensures Describes(found, State(), keyed)
    {
      found := map[];
      var rest := entries;
      ghost var done: set<Entry> := {};
      while rest != {}
        invariant done + rest == entries && done !! rest
        invariant Tallied(found, Root(done, unsafe, records), keyed)
        decreases |rest|
      {
        var e :| e in rest;
        TallyOne(found, Root(done, unsafe, records), keyed, e);
        found := Tally(found, unsafe, keyed, e);
        done, rest := done + {e}, rest - {e};
      }
      assert done == entries;
      ReadingDescribes(found, State(), keyed);
      found := ReadManifests(found, records);
    }

    /** Remove one more set. */
    method RemoveNext(slot: Slot, present: set<Part>, ghost start: Root, ghost gone: set<Slot>, obliging: bool) returns (ok: bool)
      requires Valid() && Removed(start, entries, durable, gone) && slot !in gone && present == Parts(start, slot)
      requires forall image :: image in images ==> Intact(start, image)
      requires slot.series == KeyArchives ==> Unreferenced(start, slot.stamp, durable)
      modifies this`entries, this`durable, this`images
      ensures Valid() && durable <= old(durable) && forall image :: image in images ==> Intact(start, image)
      ensures forall image :: image in images ==>
                image in old(images) || (Between(start, gone + {slot}, image) && image <= old(durable))
      ensures ok ==> Removed(start, entries, durable, gone + {slot})
      ensures obliging ==> ok
    {
      assert Parts(start, slot) == Parts(State(), slot);
      ok := Remove(slot, present, obliging);
      forall image | image in images && Midway(old(entries), old(durable), slot, image)
        ensures Intact(start, image) && Between(start, gone + {slot}, image) && image <= old(durable)
      {
        MidwayIsIntact(start, old(entries), old(durable), gone, slot, image);
      }
    }

    /** Remove several sets, stopping at the first error. */
    method RemoveAll(doomed: set<Slot>, found: map<Slot, Found>, ghost start: Root, ghost gone: set<Slot>, obliging: bool)
        returns (ok: bool)
      requires Valid() && Removed(start, entries, durable, gone) && doomed !! gone
      requires forall image :: image in images ==> Intact(start, image)
      requires forall slot :: slot in doomed ==> slot in found && found[slot].present == Parts(start, slot)
      requires forall slot :: slot in doomed && slot.series == KeyArchives ==> Unreferenced(start, slot.stamp, durable)
      modifies this`entries, this`durable, this`images
      ensures Valid() && forall image :: image in images ==> Intact(start, image)
      ensures forall image :: image in images ==> image in old(images) || (Between(start, gone + doomed, image) && image <= old(durable))
      ensures durable <= old(durable)
      ensures ok ==> Removed(start, entries, durable, gone + doomed)
      ensures obliging ==> ok
    {
      var rest := doomed;
      ghost var done := gone;
      while rest != {}
        invariant Valid() && Removed(start, entries, durable, done) && done + rest == gone + doomed && done !! rest && rest <= doomed
        invariant durable <= old(durable)
        invariant forall image :: image in images ==> Intact(start, image)
        invariant forall image :: image in images ==> image in old(images) || (Between(start, gone + doomed, image) && image <= old(durable))
        decreases |rest|
      {
        var slot :| slot in rest;
        ok := RemoveNext(slot, found[slot].present, start, done, obliging);
        assert forall image :: Between(start, done + {slot}, image) ==> Between(start, gone + doomed, image);
        if !ok { return; }
        done, rest := done + {slot}, rest - {slot};
      }
      assert done == gone + doomed;
      ok := true;
    }

    /** Remove expired backups, then the key archives that no remaining backup needs. */
    method Prune(p: Policy, obliging: bool) returns (verdict: Verdict)
      requires Valid() && Uncommitted(State(), durable) && (forall image :: image in images ==> entries <= image <= durable)
      modifies this`entries, this`durable, this`images
      ensures Valid() && forall image :: image in images ==> Intact(old(State()), image)
      ensures forall image :: image in images ==> Spares(old(State()), p, image) && image <= old(durable)
      ensures verdict.Pruned? ==>
                && State() == Survivors(old(State()), p) && durable == entries
                && verdict.removed == |DoomedBackups(old(State()), p)| + |DoomedArchives(AfterBackups(old(State()), p), p)|
      ensures verdict == Invalid <==> p.minimum < 1
      ensures verdict == NotCommitted <==> p.minimum >= 1 && !old(State()).Complete(Slot(Backups, p.keep))
      ensures verdict == Invalid || verdict == NotCommitted ==> State() == old(State())
      ensures obliging ==> verdict != Failed
    {
      assert State().Without({}) == State();
      forall image | image in images ensures Intact(State(), image) && Spares(State(), p, image) {
        SettledIsIntact(State(), entries, durable, {}, image);
        BetweenSpares(State(), p, {}, image);
      }
      if p.minimum < 1 { return Invalid; }
      var found, committed, backups := Choose(p);
      if !committed { return NotCommitted; }
      verdict := Clear(p, found, backups, State(), obliging);
    }

    /** Scan, check the set just written, and pick the expired backups. */
    method Choose(p: Policy) returns (found: map<Slot, Found>, committed: bool, backups: set<Slot>)
      ensures Describes(found, State(), p.keyed)
      ensures committed <==> State().Complete(Slot(Backups, p.keep))
      ensures backups == DoomedBackups(State(), p)
    {
      found := Scan(p.keyed);
      var complete := set slot | slot in found && slot.series == Backups && found[slot].Complete(slot) :: slot.stamp;
      CompleteAgrees(State(), found, p.keyed);
      committed := p.keep in complete;
      var floor := FloorOf(complete, p.minimum, p.keep);
      backups := set slot | slot in found && OldBackup(found, floor, p.cutoff, slot);
      BackupsAgree(State(), found, p, floor);
    }

    /** Remove the expired backups, then the archives nobody needs, and sync. */
    method Clear(p: Policy, found: map<Slot, Found>, backups: set<Slot>, ghost start: Root, obliging: bool)
        returns (verdict: Verdict)
      requires Valid() && start == State() && Uncommitted(start, durable) && Describes(found, start, p.keyed)
      requires backups == DoomedBackups(start, p)
      requires forall image :: image in images ==> Intact(start, image)
      requires forall image :: image in images ==> Spares(start, p, image) && image <= durable
      modifies this`entries, this`durable, this`images
      ensures Valid() && forall image :: image in images ==> Intact(start, image)
      ensures forall image :: image in images ==> Spares(start, p, image) && image <= old(durable)
      ensures verdict.Pruned? ==>
                && State() == Survivors(start, p) && durable == entries
                && verdict.removed == |DoomedBackups(start, p)| + |DoomedArchives(AfterBackups(start, p), p)|
      ensures verdict.Pruned? || verdict.Failed?
      ensures obliging ==> verdict != Failed
    {
      assert start.Without({}) == start;
      var ok := RemoveAll(backups, found, start, {}, obliging);
      forall image | image in images ensures Spares(start, p, image) {
        if image !in old(images) { BetweenSpares(start, p, {} + backups, image); }
      }
      if !ok { return Failed; }
      assert {} + backups == backups;
      var archives;
      ok, archives := ClearArchives(p, found, backups, start, obliging);
      if !ok { return Failed; }
      ok := Sync(obliging);
      if !ok { return Failed; }
      verdict := Pruned(|backups| + archives);
    }

    /** Remove the archives that no remaining backup needs, once the expired backups are gone. */
    method ClearArchives(p: Policy, found: map<Slot, Found>, backups: set<Slot>, ghost start: Root, obliging: bool)
        returns (ok: bool, removed: nat)
      requires Valid() && Describes(found, start, p.keyed) && backups == DoomedBackups(start, p)
      requires Removed(start, entries, durable, backups)
      requires forall image :: image in images ==> Intact(start, image)
      requires forall image :: image in images ==> Spares(start, p, image)
      modifies this`entries, this`durable, this`images
      ensures Valid() && forall image :: image in images ==> Intact(start, image)
      ensures forall image :: image in images ==> Spares(start, p, image) && (image in old(images) || image <= old(durable))
      ensures ok ==> entries == Survivors(start, p).entries && removed == |DoomedArchives(AfterBackups(start, p), p)|
      ensures obliging ==> ok
    {
      ghost var doomed := DoomedArchives(AfterBackups(start, p), p);
      assert start.Without(backups + doomed).entries == start.Without(backups).Without(doomed).entries;
      if !p.keyed {
        assert doomed == {};
        return true, 0;
      }
      var archives := set slot | slot in found && OldArchive(found, backups, p.cutoff, slot);
      ArchivesAgree(start, found, p);
      ArchivesAreFree(start, p, durable);
      ok := RemoveAll(archives, found, start, backups, obliging);
      forall image | image in images ensures Spares(start, p, image) {
        if image !in old(images) { BetweenSpares(start, p, backups + archives, image); }
      }
      removed := |archives|;
    }
  }

  datatype Verdict = Pruned(removed: nat) | NotCommitted | Invalid | Failed

  ghost function AfterBackups(r: Root, p: Policy): Root { r.Without(DoomedBackups(r, p)) }

  predicate OldBackup(found: map<Slot, Found>, floor: set<int>, cutoff: int, slot: Slot)
    requires slot in found
  {
    && slot.series == Backups && !found[slot].unsafe && slot.stamp !in floor && slot.stamp < cutoff
    && (found[slot].Complete(slot) || !found[slot].Committed())
  }

  /** Judged by the backups that are left once those in `gone` are removed. */
  predicate OldArchive(found: map<Slot, Found>, gone: set<Slot>, cutoff: int, slot: Slot)
    requires slot in found
  {
    && slot.series == KeyArchives && !found[slot].unsafe && slot.stamp < cutoff
    && !(exists b :: b in found && b !in gone && b.series == Backups
                     && (b.stamp == slot.stamp || (found[b].record.Some? && found[b].record.value.sourceKeys == Some(slot.stamp))))
    && (found[slot].Complete(slot) || !found[slot].Committed())
  }

  lemma CompleteAgrees(r: Root, found: map<Slot, Found>, keyed: bool)
    requires Describes(found, r, keyed)
    ensures (set slot | slot in found && slot.series == Backups && found[slot].Complete(slot) :: slot.stamp) == CompleteBackups(r)
    ensures forall x :: x in CompleteBackups(r) <==> r.Complete(Slot(Backups, x))
  {
    forall slot ensures Found(Parts(r, slot), r.Unsafe(slot), r.Reading(slot)).Complete(slot) == r.Complete(slot) {
      FoundAgrees(r, slot);
    }
    forall x ensures x in CompleteBackups(r) <==> r.Complete(Slot(Backups, x)) {
      if r.Complete(Slot(Backups, x)) { assert Entry(Slot(Backups, x), Manifest) in r.entries; }
    }
  }

  lemma BackupsAgree(r: Root, found: map<Slot, Found>, p: Policy, floor: set<int>)
    requires Describes(found, r, p.keyed) && floor == Top(CompleteBackups(r), p.minimum) + {p.keep}
    ensures (set slot | slot in found && OldBackup(found, floor, p.cutoff, slot)) == DoomedBackups(r, p)
  {
    forall slot | slot in found ensures OldBackup(found, floor, p.cutoff, slot) <==> ExpiredBackup(r, p, slot) {
      FoundAgrees(r, slot);
    }
  }

  lemma ArchivesAgree(r: Root, found: map<Slot, Found>, p: Policy)
    requires Describes(found, r, p.keyed) && p.keyed
    ensures (set slot | slot in found && OldArchive(found, DoomedBackups(r, p), p.cutoff, slot))
            == DoomedArchives(AfterBackups(r, p), p)
  {
    var rest := AfterBackups(r, p);
    forall slot | slot in found ensures OldArchive(found, DoomedBackups(r, p), p.cutoff, slot) <==> slot in DoomedArchives(rest, p) {
      FoundAgrees(r, slot);
      SetsAreIndependent(r, DoomedBackups(r, p), slot);
      if slot.series == KeyArchives { NeededAgrees(r, found, p, slot.stamp); }
      StillThere(r, DoomedBackups(r, p), slot);
    }
    forall slot | slot in DoomedArchives(rest, p) ensures slot in found {
      StillThere(r, DoomedBackups(r, p), slot);
    }
  }

  lemma StillThere(r: Root, gone: set<Slot>, slot: Slot)
    ensures slot in r.Without(gone).Slots() <==> slot in r.Slots() && slot !in gone
    ensures slot in r.Slots() <==> r.Present(slot)
  {
    if slot in r.Slots() {
      var e :| e in r.entries && e.slot == slot;
      assert e == Entry(slot, e.part);
      assert slot !in gone ==> e in r.Without(gone).entries;
    }
  }

  lemma NeededAgrees(r: Root, found: map<Slot, Found>, p: Policy, k: int)
    requires Describes(found, r, p.keyed)
    ensures Needed(AfterBackups(r, p), k) <==>
            exists b :: b in found && b !in DoomedBackups(r, p) && b.series == Backups
                        && (b.stamp == k || (found[b].record.Some? && found[b].record.value.sourceKeys == Some(k)))
  {
    var gone := DoomedBackups(r, p);
    forall x ensures Slot(Backups, x) in found && Slot(Backups, x) !in gone <==> AfterBackups(r, p).Present(Slot(Backups, x))
             ensures AfterBackups(r, p).Reading(Slot(Backups, x))
                     == if Slot(Backups, x) in gone then None else r.Reading(Slot(Backups, x))
             ensures r.Reading(Slot(Backups, x)).Some? ==> Slot(Backups, x) in found
    {
      SetsAreIndependent(r, gone, Slot(Backups, x));
      StillThere(r, gone, Slot(Backups, x));
    }
    if exists b :: b in found && b !in gone && b.series == Backups
                   && (b.stamp == k || (found[b].record.Some? && found[b].record.value.sourceKeys == Some(k)))
    {
      var b :| b in found && b !in gone && b.series == Backups
               && (b.stamp == k || (found[b].record.Some? && found[b].record.value.sourceKeys == Some(k)));
      assert b == Slot(Backups, b.stamp);
    }
  }

  /** No backup that a crash could still show as committed references a doomed archive. */
  lemma ArchivesAreFree(r: Root, p: Policy, durable: set<Entry>)
    requires forall slot :: slot in DoomedBackups(r, p) ==> Entry(slot, Manifest) !in durable
    ensures forall slot :: slot in DoomedArchives(AfterBackups(r, p), p) ==> Unreferenced(r, slot.stamp, durable)
  {
    forall slot, x | slot in DoomedArchives(AfterBackups(r, p), p) && References(r, x, slot.stamp)
      ensures Entry(Slot(Backups, x), Manifest) !in durable
    {
      SetsAreIndependent(r, DoomedBackups(r, p), Slot(Backups, x));
    }
  }

  lemma OneMore(r: Root, e: Entry)
    ensures var more := r.(entries := r.entries + {e});
            && Parts(more, e.slot) == Parts(r, e.slot) + {e.part}
            && (more.Unsafe(e.slot) <==> r.Unsafe(e.slot) || e in r.unsafe)
            && (forall slot :: slot != e.slot ==> Parts(more, slot) == Parts(r, slot) && (more.Unsafe(slot) <==> r.Unsafe(slot)))
            && more.Slots() == r.Slots() + {e.slot}
  {
    var more := r.(entries := r.entries + {e});
    PartsAgree(r, e.slot, e.part);
    assert e == Entry(e.slot, e.part);
    forall slot | slot != e.slot ensures Parts(more, slot) == Parts(r, slot) && (more.Unsafe(slot) <==> r.Unsafe(slot)) {
      assert forall part :: Entry(slot, part) in more.entries <==> Entry(slot, part) in r.entries;
    }
    assert forall part :: Entry(e.slot, part) in more.entries <==> Entry(e.slot, part) in r.entries || part == e.part;
  }
}
