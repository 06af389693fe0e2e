/** The next prune finishes an interrupted one. */
module RetentionResume {
  import opened Options
  import opened Sorting
  import opened Retention
  import opened RetentionRun

  /** What an interrupted prune of `r` may leave. */
  ghost predicate Left(r: Root, p: Policy, image: set<Entry>) {
    Intact(r, image) && Spares(r, p, image) && image <= r.entries
  }

  ghost function Doomed(r: Root, p: Policy): set<Slot> {
    DoomedBackups(r, p) + DoomedArchives(AfterBackups(r, p), p)
  }

  /** Everything about a set that the policy looks at is the same. */
  ghost predicate Same(r: Root, s: Root, slot: Slot) {
    && s.Present(slot) == r.Present(slot) && s.Committed(slot) == r.Committed(slot) && s.Unsafe(slot) == r.Unsafe(slot)
    && s.Complete(slot) == r.Complete(slot) && s.Reading(slot) == r.Reading(slot)
  }

  lemma MembersDecide(r: Root, s: Root, slot: Slot)
    requires s == r.(entries := s.entries)
    requires forall part :: Entry(slot, part) in s.entries <==> Entry(slot, part) in r.entries
    ensures Same(r, s, slot)
  {
  }

  /** A set that is not doomed is untouched. */
  lemma SparedIsSame(r: Root, p: Policy, image: set<Entry>, slot: Slot)
    requires Left(r, p, image) && slot !in Doomed(r, p)
    ensures Same(r, r.(entries := image), slot)
    ensures forall part :: Entry(slot, part) in image <==> Entry(slot, part) in r.entries
  {
    forall part ensures Entry(slot, part) in image <==> Entry(slot, part) in r.entries {
      assert Entry(slot, part) in r.entries ==> Entry(slot, part) in Survivors(r, p).entries;
    }
    MembersDecide(r, r.(entries := image), slot);
  }

  /** A doomed set that is still committed is untouched; what is left of another is debris. */
  lemma DoomedIsWholeOrDebris(r: Root, p: Policy, image: set<Entry>, slot: Slot)
    requires Left(r, p, image) && slot in r.Slots() && r.Disposable(slot)
    ensures var s := r.(entries := image);
            s.Disposable(slot) && (s.Committed(slot) ==> Same(r, s, slot))
  {
    var s := r.(entries := image);
    if s.Committed(slot) {
      assert KeepsAll(r, slot, image);
      forall part ensures Entry(slot, part) in image <==> Entry(slot, part) in r.entries { }
      MembersDecide(r, s, slot);
    } else {
      assert s.Unsafe(slot) ==> r.Unsafe(slot);
    }
  }

  /** The newest complete backups are among what is left, so whatever they outrank stays outranked. */
  lemma FloorIsKept(r: Root, p: Policy, image: set<Entry>, x: int)
    requires Left(r, p, image)
    ensures Floor(r, p, x) ==> Floor(r.(entries := image), p, x)
    ensures Floor(r.(entries := image), p, x) ==> Floor(r, p, x)
  {
    var s := r.(entries := image);
    var before, now := CompleteBackups(r), CompleteBackups(s);
    forall y | y in now ensures y in before { CompleteCameFrom(r, p, image, y); }
    forall y | y in Top(before, p.minimum) ensures y in now { TopIsLeft(r, p, image, y); }
    if Newest(r, p.minimum, x) {
      assert x in Top(before, p.minimum);
      Fewer(Above(now, x), Above(before, x));
    }
    if Newest(s, p.minimum, x) && !Newest(r, p.minimum, x) {
      Outranked(before, now, p.minimum, x);
    }
  }

  lemma CompleteCameFrom(r: Root, p: Policy, image: set<Entry>, y: int)
    requires Left(r, p, image) && y in CompleteBackups(r.(entries := image))
    ensures y in CompleteBackups(r)
  {
    var slot := Slot(Backups, y);
    var s := r.(entries := image);
    assert s.Complete(slot) && s.Committed(slot);
    assert KeepsAll(r, slot, image);
    forall part ensures Entry(slot, part) in image <==> Entry(slot, part) in r.entries { }
    MembersDecide(r, s, slot);
    assert Entry(slot, Manifest) in r.entries;
  }

  lemma TopIsLeft(r: Root, p: Policy, image: set<Entry>, y: int)
    requires Left(r, p, image) && y in Top(CompleteBackups(r), p.minimum)
    ensures y in CompleteBackups(r.(entries := image))
  {
    var slot := Slot(Backups, y);
    assert Newest(r, p.minimum, y);
    assert slot !in Doomed(r, p);
    SparedIsSame(r, p, image, slot);
    assert r.Complete(slot);
    assert Entry(slot, Manifest) in image;
  }

  lemma Outranked(before: set<int>, now: set<int>, m: nat, x: int)
    requires x in before && |Above(before, x)| >= m && Top(before, m) <= now
    ensures |Above(now, x)| >= m
  {
    forall y | y in Top(before, m) ensures y in Above(now, x) {
      if y <= x {
        assert Above(before, x) <= Above(before, y);
        Fewer(Above(before, x), Above(before, y));
      }
    }
    TopIsFull(before, m);
    Fewer(Above(before, x), before);
    Fewer(Top(before, m), Above(now, x));
  }

  /** The next prune dooms exactly what is left of the doomed backups. */
  lemma BackupsAreResumed(r: Root, p: Policy, image: set<Entry>, slot: Slot)
    requires Left(r, p, image) && slot.series == Backups
    ensures var s := r.(entries := image);
            slot in DoomedBackups(s, p) <==> slot in DoomedBackups(r, p) && s.Present(slot)
  {
    var s := r.(entries := image);
    FloorIsKept(r, p, image, slot.stamp);
    PresentIsListed(r, slot);
    PresentIsListed(s, slot);
    if slot in DoomedBackups(r, p) {
      DoomedIsWholeOrDebris(r, p, image, slot);
    } else {
      assert slot !in Doomed(r, p);
      SparedIsSame(r, p, image, slot);
    }
  }

  lemma PresentIsListed(r: Root, slot: Slot)
    ensures slot in r.Slots() <==> r.Present(slot)
  {
    StillThere(r, {}, slot);
  }

  /** After the backups, the same archives are needed. */
  lemma NeedIsResumed(r: Root, p: Policy, image: set<Entry>, k: int)
    requires Left(r, p, image)
    ensures Needed(AfterBackups(r.(entries := image), p), k) <==> Needed(AfterBackups(r, p), k)
  {
    forall x ensures Same(AfterBackups(r, p), AfterBackups(r.(entries := image), p), Slot(Backups, x)) {
      BackupIsSame(r, p, image, Slot(Backups, x));
    }
  }

  lemma BackupIsSame(r: Root, p: Policy, image: set<Entry>, slot: Slot)
    requires Left(r, p, image) && slot.series == Backups
    ensures Same(AfterBackups(r, p), AfterBackups(r.(entries := image), p), slot)
  {
    var s := r.(entries := image);
    BackupsAreResumed(r, p, image, slot);
    SetsAreIndependent(r, DoomedBackups(r, p), slot);
    SetsAreIndependent(s, DoomedBackups(s, p), slot);
    if slot in DoomedBackups(r, p) {
      assert !AfterBackups(s, p).Present(slot);
      assert forall part :: Entry(slot, part) !in AfterBackups(s, p).entries && Entry(slot, part) !in AfterBackups(r, p).entries;
    } else {
      assert slot !in Doomed(r, p);
      SparedIsSame(r, p, image, slot);
    }
  }

  lemma ArchivesAreResumed(r: Root, p: Policy, image: set<Entry>, slot: Slot)
    requires Left(r, p, image) && slot.series == KeyArchives
    ensures var s := r.(entries := image);
            slot in DoomedArchives(AfterBackups(s, p), p) <==> slot in DoomedArchives(AfterBackups(r, p), p) && s.Present(slot)
  {
    var s := r.(entries := image);
    NeedIsResumed(r, p, image, slot.stamp);
    SetsAreIndependent(r, DoomedBackups(r, p), slot);
    SetsAreIndependent(s, DoomedBackups(s, p), slot);
    PresentIsListed(AfterBackups(r, p), slot);
    PresentIsListed(AfterBackups(s, p), slot);
    PresentIsListed(r, slot);
    if slot in DoomedArchives(AfterBackups(r, p), p) {
      DoomedIsWholeOrDebris(r, p, image, slot);
    } else {
      assert slot !in Doomed(r, p);
      SparedIsSame(r, p, image, slot);
    }
  }

  /** Pruning what any interruption of a prune leaves comes to the same end as the prune. */
  lemma NextPruneFinishes(r: Root, p: Policy, image: set<Entry>)
    requires Left(r, p, image)
    ensures Survivors(r.(entries := image), p) == Survivors(r, p)
  {
    var s := r.(entries := image);
    forall e: Entry ensures e in Survivors(s, p).entries <==> e in Survivors(r, p).entries {
      EntryIsResumed(r, p, image, e);
    }
  }

  lemma EntryIsResumed(r: Root, p: Policy, image: set<Entry>, e: Entry)
    requires Left(r, p, image)
    ensures e in Survivors(r.(entries := image), p).entries <==> e in Survivors(r, p).entries
  {
    var s := r.(entries := image);
    if e.slot.series == Backups { BackupsAreResumed(r, p, image, e.slot); } else { ArchivesAreResumed(r, p, image, e.slot); }
    assert e in image ==> s.Present(e.slot) by { assert e == Entry(e.slot, e.part); }
  }

  /** A prune after a crash, with the same backup to keep and no further trouble. */
  method Resume(r: Root, p: Policy, image: set<Entry>) returns (folder: Folder)
    requires Left(r, p, image) && p.minimum >= 1 && r.Complete(Slot(Backups, p.keep))
    ensures fresh(folder) && folder.State() == Survivors(r, p) && folder.durable == folder.entries
  {
    folder := new Folder(r.(entries := image));
    SparedIsSame(r, p, image, Slot(Backups, p.keep));
    NextPruneFinishes(r, p, image);
    var verdict := folder.Prune(p, true);
  }
}
