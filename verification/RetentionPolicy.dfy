/** The retention policy once more, entry by entry, as an independent account of what survives. */
module RetentionPolicy {
  import opened Options
  import opened Sorting
  import opened Retention

  /** No member of the set is anything but a direct file of ours. */
  ghost predicate Safe(r: Root, slot: Slot) {
    forall part :: Entry(slot, part) in r.entries ==> Entry(slot, part) !in r.unsafe
  }

  /** All three files are there, safe, and the manifest names its own set. */
  ghost predicate Whole(r: Root, slot: Slot) {
    && Entry(slot, Ciphertext) in r.entries && Entry(slot, Checksum) in r.entries && Entry(slot, Manifest) in r.entries
    && Safe(r, slot) && slot in r.records && r.records[slot].names == slot
  }

  ghost predicate NeverCommitted(r: Root, slot: Slot) { Entry(slot, Manifest) !in r.entries }

  /** The stamps of whole backups that are newer than `x`. */
  ghost function NewerWhole(r: Root, x: int): set<int> {
    set e | e in r.entries && e.slot.series == Backups && e.slot.stamp > x && Whole(r, e.slot) :: e.slot.stamp
  }

  /** A backup that retention removes. */
  ghost predicate BackupGoes(r: Root, p: Policy, x: int) {
    && Safe(r, Slot(Backups, x)) && (Whole(r, Slot(Backups, x)) || NeverCommitted(r, Slot(Backups, x)))
    && x < p.cutoff && x != p.keep
    && (Whole(r, Slot(Backups, x)) ==> |NewerWhole(r, x)| >= p.minimum)
  }

  /** A backup of which anything is left. */
  ghost predicate BackupStays(r: Root, p: Policy, x: int) {
    (exists part :: Entry(Slot(Backups, x), part) in r.entries) && !BackupGoes(r, p, x)
  }

  /** A remaining committed, safe, readable backup names the archive. */
  ghost predicate NamedByRemaining(r: Root, p: Policy, k: int) {
    exists x :: && BackupStays(r, p, x) && Entry(Slot(Backups, x), Manifest) in r.entries && Safe(r, Slot(Backups, x))
                && Slot(Backups, x) in r.records && r.records[Slot(Backups, x)].sourceKeys == Some(k)
  }

  /** A key archive that retention removes. */
  ghost predicate ArchiveGoes(r: Root, p: Policy, k: int) {
    && p.keyed && Safe(r, Slot(KeyArchives, k))
    && (Whole(r, Slot(KeyArchives, k)) || NeverCommitted(r, Slot(KeyArchives, k)))
    && k < p.cutoff && !BackupStays(r, p, k) && !NamedByRemaining(r, p, k)
  }

  lemma WholeIsComplete(r: Root, slot: Slot)
    ensures Whole(r, slot) <==> r.Complete(slot)
    ensures Safe(r, slot) <==> !r.Unsafe(slot)
    ensures NeverCommitted(r, slot) <==> !r.Committed(slot)
  {
    if Whole(r, slot) {
      forall part ensures Entry(slot, part) in r.entries { match part case Ciphertext => case Checksum => case Manifest => }
    }
  }

  lemma NewerAgree(r: Root, x: int)
    ensures NewerWhole(r, x) == Above(CompleteBackups(r), x)
  {
    forall slot ensures Whole(r, slot) <==> r.Complete(slot) { WholeIsComplete(r, slot); }
  }

  lemma Listed(r: Root, slot: Slot)
    ensures slot in r.Slots() <==> exists part :: Entry(slot, part) in r.entries
  {
    if slot in r.Slots() {
      var e :| e in r.entries && e.slot == slot;
      assert e == Entry(slot, e.part);
    } else {
      forall part ensures Entry(slot, part) !in r.entries { assert Entry(slot, part) in r.entries ==> Entry(slot, part).slot in r.Slots(); }
    }
  }

  lemma BackupGoesExactly(r: Root, p: Policy, x: int)
    ensures Slot(Backups, x) in DoomedBackups(r, p) <==>
            (exists part :: Entry(Slot(Backups, x), part) in r.entries) && BackupGoes(r, p, x)
  {
    var slot := Slot(Backups, x);
    WholeIsComplete(r, slot);
    NewerAgree(r, x);
    Listed(r, slot);
    assert x in CompleteBackups(r) <==> r.Complete(slot) by {
      if r.Complete(slot) { assert Entry(slot, Manifest) in r.entries; }
    }
  }

  lemma NeedAgrees(r: Root, p: Policy, k: int)
    ensures Needed(r.Without(DoomedBackups(r, p)), k) <==> BackupStays(r, p, k) || NamedByRemaining(r, p, k)
  {
    var rest := r.Without(DoomedBackups(r, p));
    forall x ensures rest.Present(Slot(Backups, x)) <==> BackupStays(r, p, x)
             ensures rest.Reading(Slot(Backups, x)) == if Slot(Backups, x) in DoomedBackups(r, p) then None else r.Reading(Slot(Backups, x))
             ensures r.Reading(Slot(Backups, x)).Some? <==>
                     Entry(Slot(Backups, x), Manifest) in r.entries && Safe(r, Slot(Backups, x)) && Slot(Backups, x) in r.records
    {
      BackupGoesExactly(r, p, x);
      SetsAreIndependent(r, DoomedBackups(r, p), Slot(Backups, x));
      WholeIsComplete(r, Slot(Backups, x));
    }
  }

  lemma ArchiveGoesExactly(r: Root, p: Policy, k: int)
    ensures Slot(KeyArchives, k) in DoomedArchives(r.Without(DoomedBackups(r, p)), p) <==>
            (exists part :: Entry(Slot(KeyArchives, k), part) in r.entries) && ArchiveGoes(r, p, k)
  {
    var slot := Slot(KeyArchives, k);
    var rest := r.Without(DoomedBackups(r, p));
    NeedAgrees(r, p, k);
    SetsAreIndependent(r, DoomedBackups(r, p), slot);
    WholeIsComplete(r, slot);
    Listed(r, slot);
    Listed(rest, slot);
    assert forall part :: Entry(slot, part) in rest.entries <==> Entry(slot, part) in r.entries;
  }

  /** An entry survives exactly when its set does not go: retention removes no less than the policy
      says, and no more. */
  lemma SurvivorsExactly(r: Root, p: Policy, e: Entry)
    ensures e in Survivors(r, p).entries <==>
            && e in r.entries
            && (e.slot.series == Backups ==> !BackupGoes(r, p, e.slot.stamp))
            && (e.slot.series == KeyArchives ==> !ArchiveGoes(r, p, e.slot.stamp))
  {
    assert e == Entry(e.slot, e.part) && e.slot == Slot(e.slot.series, e.slot.stamp);
    BackupGoesExactly(r, p, e.slot.stamp);
    ArchiveGoesExactly(r, p, e.slot.stamp);
  }
}
