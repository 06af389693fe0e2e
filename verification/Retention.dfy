/** Age-and-count retention of backup sets. The policy, and what it guarantees. */
module Retention {
  import opened Options
  import opened Sorting

  datatype Series = Backups | KeyArchives
  datatype Part = Ciphertext | Checksum | Manifest

  /** One set of files. Its name is its series and timestamp, and names order as timestamps do. */
  datatype Slot = Slot(series: Series, stamp: int)
  datatype Entry = Entry(slot: Slot, part: Part)

  /** A readable manifest: the set it names, and the key archive it references. */
  datatype Record = Record(names: Slot, sourceKeys: Option<int>)

  /** A backup root. `unsafe` entries are not regular files of the current user. */
  datatype Root = Root(entries: set<Entry>, unsafe: set<Entry>, records: map<Slot, Record>) {
    predicate Present(slot: Slot) { exists part :: Entry(slot, part) in entries }
    predicate Committed(slot: Slot) { Entry(slot, Manifest) in entries }
    predicate Unsafe(slot: Slot) { exists part :: Entry(slot, part) in entries && Entry(slot, part) in unsafe }

    function Reading(slot: Slot): Option<Record> {
      if Committed(slot) && !Unsafe(slot) && slot in records then Some(records[slot]) else None
    }

    predicate Complete(slot: Slot) {
      && (forall part :: Entry(slot, part) in entries)
      && !Unsafe(slot) && slot in records && records[slot].names == slot
    }

    /** Nothing pins the set: it is safe, and either complete or never committed. */
    predicate Disposable(slot: Slot) { !Unsafe(slot) && (Complete(slot) || !Committed(slot)) }

    function Without(slots: set<Slot>): Root {
      this.(entries := set e | e in entries && e.slot !in slots)
    }

    function Slots(): set<Slot> { set e | e in entries :: e.slot }
  }

  datatype Policy = Policy(keep: int, cutoff: int, minimum: nat, keyed: bool)

  ghost function CompleteBackups(r: Root): set<int> {
    set e | e in r.entries && e.slot.series == Backups && r.Complete(e.slot) :: e.slot.stamp
  }

  ghost function Above(s: set<int>, x: int): set<int> { set y | y in s && y > x }

  /** One of the newest `minimum` complete backups. */
  ghost predicate Newest(r: Root, minimum: nat, x: int) {
    x in CompleteBackups(r) && |Above(CompleteBackups(r), x)| < minimum
  }

  ghost predicate Floor(r: Root, p: Policy, x: int) { x == p.keep || Newest(r, p.minimum, x) }

  ghost predicate ExpiredBackup(r: Root, p: Policy, slot: Slot) {
    && slot.series == Backups && r.Disposable(slot)
    && !Floor(r, p, slot.stamp) && slot.stamp < p.cutoff
  }

  ghost function DoomedBackups(r: Root, p: Policy): set<Slot> {
    set slot | slot in r.Slots() && ExpiredBackup(r, p, slot)
  }

  /** A remaining backup references the archive, or was made at the same time. */
  ghost predicate Needed(r: Root, k: int) {
    || r.Present(Slot(Backups, k))
    || exists x :: r.Reading(Slot(Backups, x)).Some? && r.Reading(Slot(Backups, x)).value.sourceKeys == Some(k)
  }

  ghost predicate ExpiredArchive(r: Root, p: Policy, slot: Slot) {
    && slot.series == KeyArchives && r.Disposable(slot)
    && !Needed(r, slot.stamp) && slot.stamp < p.cutoff
  }

  ghost function DoomedArchives(r: Root, p: Policy): set<Slot> {
    set slot | p.keyed && slot in r.Slots() && ExpiredArchive(r, p, slot)
  }

  /** What is left: archives are judged by the backups that remain. */
  ghost function Survivors(r: Root, p: Policy): Root {
    var rest := r.Without(DoomedBackups(r, p));
    rest.Without(DoomedArchives(rest, p))
  }

  /** Removing other sets changes nothing about a set. */
  lemma SetsAreIndependent(r: Root, gone: set<Slot>, slot: Slot)
    ensures slot !in gone ==>
              && r.Without(gone).Present(slot) == r.Present(slot)
              && r.Without(gone).Unsafe(slot) == r.Unsafe(slot)
              && r.Without(gone).Committed(slot) == r.Committed(slot)
              && r.Without(gone).Complete(slot) == r.Complete(slot)
              && r.Without(gone).Reading(slot) == r.Reading(slot)
    ensures slot in gone ==> !r.Without(gone).Present(slot) && !r.Without(gone).Committed(slot)
  {
    assert forall part :: slot !in gone ==> (Entry(slot, part) in r.Without(gone).entries <==> Entry(slot, part) in r.entries);
  }

  /** Whatever else goes, the newest complete backups stay the newest. */
  lemma FloorIsStable(r: Root, p: Policy, gone: set<Slot>, x: int)
    requires Slot(Backups, x) !in gone && Floor(r, p, x)
    ensures Floor(r.Without(gone), p, x)
  {
    var rest := r.Without(gone);
    forall slot: Slot ensures slot !in gone ==> rest.Complete(slot) == r.Complete(slot)
                      ensures slot in gone ==> !rest.Committed(slot)
    {
      SetsAreIndependent(r, gone, slot);
    }
    if x != p.keep {
      var e :| e in r.entries && e.slot.series == Backups && r.Complete(e.slot) && e.slot.stamp == x;
      assert e in rest.entries;
      assert Above(CompleteBackups(rest), x) <= Above(CompleteBackups(r), x);
      Fewer(Above(CompleteBackups(rest), x), Above(CompleteBackups(r), x));
    }
  }

  /** An immediate second prune removes nothing. */
  lemma SecondPruneIsIdle(r: Root, p: Policy)
    ensures Survivors(Survivors(r, p), p) == Survivors(r, p)
  {
    var doomed := DoomedBackups(r, p);
    var rest := r.Without(doomed);
    var archives := DoomedArchives(rest, p);
    var left := rest.Without(archives);
    forall slot | slot in left.Slots() ensures !ExpiredBackup(left, p, slot) {
      SetsAreIndependent(r, doomed, slot);
      SetsAreIndependent(rest, archives, slot);
      var e :| e in left.entries && e.slot == slot;
      assert slot in r.Slots() && slot !in doomed && slot !in archives;
      if slot.series == Backups && Floor(r, p, slot.stamp) {
        FloorIsStable(r, p, doomed, slot.stamp);
        FloorIsStable(rest, p, archives, slot.stamp);
      }
    }
    assert DoomedBackups(left, p) == {};
    assert left.Without({}) == left;
    forall slot | slot in left.Slots() && p.keyed ensures !ExpiredArchive(left, p, slot) {
      SetsAreIndependent(rest, archives, slot);
      var e :| e in left.entries && e.slot == slot;
      assert slot in rest.Slots() && slot !in archives;
      if Needed(rest, slot.stamp) { NeedIsStable(rest, archives, slot.stamp); }
    }
    assert DoomedArchives(left, p) == {};
  }

  lemma NeedIsStable(r: Root, gone: set<Slot>, k: int)
    requires Needed(r, k) && forall slot :: slot in gone ==> slot.series == KeyArchives
    ensures Needed(r.Without(gone), k)
  {
    SetsAreIndependent(r, gone, Slot(Backups, k));
    if !r.Present(Slot(Backups, k)) {
      var x :| r.Reading(Slot(Backups, x)).Some? && r.Reading(Slot(Backups, x)).value.sourceKeys == Some(k);
      SetsAreIndependent(r, gone, Slot(Backups, x));
    }
  }

  ghost function Top(s: set<int>, m: nat): set<int> { set x | x in s && |Above(s, x)| < m }

  lemma {:induction false} Least(s: set<int>) returns (a: int)
    requires exists x :: x in s
    ensures a in s && forall x :: x in s ==> a <= x
    decreases |s|
  {
    a :| a in s;
    var rest := s - {a};
    if exists x :: x in rest {
      var c := Least(rest);
      forall x | x in s ensures c <= x || a <= x { assert x == a || x in rest; }
      if c < a { a := c; }
    } else {
      forall x | x in s ensures a <= x { assert x == a || x in rest; }
    }
  }

  /** There are as many newest elements as asked for, or all of them. */
  lemma {:induction false} TopIsFull(s: set<int>, m: nat)
    ensures |Top(s, m)| >= if m < |s| then m else |s|
    decreases |s|
  {
    if exists x :: x in s {
      var a := Least(s);
      var rest := s - {a};
      TopIsFull(rest, m);
      forall x | x in Top(rest, m) ensures x in Top(s, m) {
        assert Above(s, x) == Above(rest, x);
      }
      assert Above(s, a) == rest;
      Fewer(Top(rest, m), Top(s, m));
      if |rest| < m {
        Fewer(Top(rest, m) + {a}, Top(s, m));
      }
    } else {
      assert s == {};
    }
  }

  /** Every set that goes is safe, older than the cutoff, and complete or never committed; no
      backup on the floor goes, and no archive that a surviving committed backup references. */
  lemma OnlyExpiredSetsGo(r: Root, p: Policy, e: Entry)
    requires e in r.entries && e !in Survivors(r, p).entries
    ensures !r.Unsafe(e.slot) && (r.Committed(e.slot) ==> r.Complete(e.slot)) && e.slot.stamp < p.cutoff
    ensures e.slot.series == Backups ==> !Floor(r, p, e.slot.stamp)
    ensures e.slot.series == KeyArchives ==> p.keyed && !Needed(Survivors(r, p), e.slot.stamp)
    ensures forall part :: Entry(e.slot, part) !in Survivors(r, p).entries
  {
    var doomed := DoomedBackups(r, p);
    var rest := r.Without(doomed);
    var archives := DoomedArchives(rest, p);
    SetsAreIndependent(r, doomed, e.slot);
    SetsAreIndependent(rest, archives, e.slot);
    if e.slot.series == KeyArchives && Needed(Survivors(r, p), e.slot.stamp) {
      NeedComesDown(rest, archives, e.slot.stamp);
    }
  }

  lemma NeedComesDown(r: Root, gone: set<Slot>, k: int)
    requires Needed(r.Without(gone), k)
    ensures Needed(r, k)
  {
    SetsAreIndependent(r, gone, Slot(Backups, k));
    if !r.Without(gone).Present(Slot(Backups, k)) {
      var x :| r.Without(gone).Reading(Slot(Backups, x)).Some?
               && r.Without(gone).Reading(Slot(Backups, x)).value.sourceKeys == Some(k);
      SetsAreIndependent(r, gone, Slot(Backups, x));
    }
  }

  /** Enough complete backups survive, the newest ones and the one just written among them. */
  lemma FloorSurvives(r: Root, p: Policy)
    ensures |CompleteBackups(Survivors(r, p))|
            >= if p.minimum < |CompleteBackups(r)| then p.minimum else |CompleteBackups(r)|
    ensures forall x :: Floor(r, p, x) ==>
              (Survivors(r, p).Complete(Slot(Backups, x)) <==> r.Complete(Slot(Backups, x)))
  {
    var doomed := DoomedBackups(r, p);
    var rest := r.Without(doomed);
    var archives := DoomedArchives(rest, p);
    var left := Survivors(r, p);
    forall x | Floor(r, p, x) ensures left.Complete(Slot(Backups, x)) == r.Complete(Slot(Backups, x)) {
      SetsAreIndependent(r, doomed, Slot(Backups, x));
      SetsAreIndependent(rest, archives, Slot(Backups, x));
    }
    TopIsFull(CompleteBackups(r), p.minimum);
    forall x | x in Top(CompleteBackups(r), p.minimum) ensures x in CompleteBackups(left) {
      assert Newest(r, p.minimum, x);
      assert left.Complete(Slot(Backups, x));
      assert Entry(Slot(Backups, x), Manifest) in left.entries;
    }
    Fewer(Top(CompleteBackups(r), p.minimum), CompleteBackups(left));
  }

  // What off-site export finds in the same directory.

  /** The newest committed backup, if there is one. */
  ghost predicate NewestCommitted(r: Root, x: int) {
    r.Committed(Slot(Backups, x)) && forall y :: r.Committed(Slot(Backups, y)) ==> y <= x
  }

  /** Export can take the newest committed backup: it is complete, and so is its key archive. */
  ghost predicate Exportable(r: Root, x: int) {
    && NewestCommitted(r, x) && r.Complete(Slot(Backups, x))
    && var keys := r.records[Slot(Backups, x)].sourceKeys;
       keys.Some? ==> r.Complete(Slot(KeyArchives, keys.value))
  }

  lemma ExportedSurvives(r: Root, p: Policy, x: int)
    requires Exportable(r, x) && p.minimum >= 1
    ensures Slot(Backups, x) !in DoomedBackups(r, p)
    ensures var keys := r.records[Slot(Backups, x)].sourceKeys;
            keys.Some? ==> Slot(KeyArchives, keys.value) !in DoomedArchives(r.Without(DoomedBackups(r, p)), p)
  {
    var slot := Slot(Backups, x);
    assert Entry(slot, Manifest) in r.entries;
    assert Above(CompleteBackups(r), x) == {};
    assert Newest(r, p.minimum, x);
    SetsAreIndependent(r, DoomedBackups(r, p), slot);
    var keys := r.records[slot].sourceKeys;
    if keys.Some? {
      assert r.Without(DoomedBackups(r, p)).Reading(slot) == Some(r.records[slot]);
    }
  }

  lemma Untouched(r: Root, p: Policy, image: set<Entry>, slot: Slot)
    requires Survivors(r, p).entries <= image <= r.entries
    requires slot !in DoomedBackups(r, p) && slot !in DoomedArchives(r.Without(DoomedBackups(r, p)), p)
    ensures r.(entries := image).Complete(slot) == r.Complete(slot)
    ensures r.(entries := image).Committed(slot) == r.Committed(slot)
  {
    forall part ensures Entry(slot, part) in image <==> Entry(slot, part) in r.entries {
      assert Entry(slot, part) in r.entries ==> Entry(slot, part) in Survivors(r, p).entries;
    }
  }

  /** Whatever a prune is interrupted by, export finds the same newest committed backup, complete
      and with its key archive. */
  lemma ExportIsUndisturbed(r: Root, p: Policy, image: set<Entry>, x: int)
    requires Exportable(r, x) && p.minimum >= 1
    requires Survivors(r, p).entries <= image <= r.entries
    ensures Exportable(r.(entries := image), x)
  {
    ExportedSurvives(r, p, x);
    Untouched(r, p, image, Slot(Backups, x));
    var keys := r.records[Slot(Backups, x)].sourceKeys;
    if keys.Some? { Untouched(r, p, image, Slot(KeyArchives, keys.value)); }
  }
}
