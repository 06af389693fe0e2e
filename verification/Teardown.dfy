/** The journaled teardown of an acceptance deployment: which deletes it may send, what a crash
    leaves behind, and when a rerun completes. */
module Teardown {
  import opened Options
  import opened World

  datatype Kind = Server | Port | Volume | Image | SecurityGroup | Keypair

  /** A provider resource. A keypair is its own identifier. */
  datatype Row = Row(kind: Kind, name: string, id: string, projection: string)

  /** An immutable ownership record. */
  datatype Record = Record(kind: Kind, name: string, reference: string, projection: string)

  datatype Identity = Identity(kind: Kind, name: string, reference: string)
  datatype Status = Intended | Confirmed
  datatype Entry = Entry(intent: Record, status: Status)
  type Journal = map<Identity, Entry>

  /** What the deployment owns, which backup volume it must cover, and what must be left. */
  datatype Scope = Scope(records: seq<Record>, backup: string, destroyBackup: bool, baseline: set<Row>)

  datatype Outcome = Complete | Stopped | Crashed

  function Id(r: Record): Identity { Identity(r.kind, r.name, r.reference) }
  function RowOf(r: Record): Row { Row(r.kind, r.name, r.reference, r.projection) }

  function Named(rows: set<Row>, r: Record): set<Row> { set row | row in rows && row.kind == r.kind && row.name == r.name }
  function Referenced(rows: set<Row>, r: Record): set<Row> { set row | row in rows && row.kind == r.kind && row.id == r.reference }

  /** Identifiers are unique within a kind. */
  ghost predicate Unique(rows: set<Row>) {
    && (forall a, b :: a in rows && b in rows && a.kind == b.kind && a.id == b.id ==> a == b)
    && (forall a :: a in rows && a.kind == Keypair ==> a.id == a.name)
  }

  /** The recorded resource is there, unchanged, and nothing shares its name. */
  predicate Live(rows: set<Row>, r: Record) { Named(rows, r) == {RowOf(r)} }

  predicate Absent(rows: set<Row>, r: Record) {
    Named(rows, r) == {} && (r.kind == Keypair || Referenced(rows, r) == {})
  }

  /** Neither the name nor, keypairs aside, the identifier of the resource is listed. */
  ghost predicate NothingLeft(rows: set<Row>, r: Record) {
    forall row :: row in rows && row.kind == r.kind ==> row.name != r.name && (r.kind != Keypair ==> row.id != r.reference)
  }

  ghost predicate NewlyConfirmed(before: Journal, r: Record, after: Journal) {
    && Id(r) in after && after[Id(r)].status == Confirmed
    && !(Id(r) in before && before[Id(r)].status == Confirmed)
  }

  /** What must stop the handling of a record before anything changes: its name is gone and its
      identifier is not, or no intent was journaled; or something under its name is not the recorded
      resource. */
  ghost predicate Suspicious(rows: set<Row>, journal: Journal, r: Record) {
    if exists row :: row in rows && row.kind == r.kind && row.name == r.name
    then exists row :: row in rows && row.kind == r.kind && row.name == r.name && (row.id != r.reference || row.projection != r.projection)
    else Id(r) !in journal || (r.kind != Keypair && exists row :: row in rows && row.kind == r.kind && row.id == r.reference)
  }

  /** Entries are never dropped or rewritten; their status only advances. */
  ghost predicate Advances(a: Journal, b: Journal) {
    forall id :: id in a ==> id in b && b[id].intent == a[id].intent && (a[id].status == Confirmed ==> b[id].status == Confirmed)
  }

  /** A sent delete, with the provider and the journal as they were at that moment. */
  datatype Deletion = Deletion(record: Record, rows: set<Row>, journal: Journal)

  ghost predicate Justified(d: Deletion, records: seq<Record>) {
    d.record in records && Live(d.rows, d.record) && Id(d.record) in d.journal && d.journal[Id(d.record)].intent == d.record
  }

  /** Each record is either live and unconfirmed, or gone with its exact intent journaled. */
  ghost predicate Settled(rows: set<Row>, journal: Journal, r: Record) {
    && (Id(r) in journal ==> journal[Id(r)].intent == r)
    && (Live(rows, r) || Absent(rows, r))
    && (Live(rows, r) ==> Id(r) !in journal || journal[Id(r)].status == Intended)
    && (Absent(rows, r) ==> Id(r) in journal)
  }

  ghost predicate Resumable(rows: set<Row>, journal: Journal, s: Scope) {
    && (forall i :: 0 <= i < |s.records| ==> Settled(rows, journal, s.records[i]))
    && (forall i, k :: 0 <= i < k < |s.records| ==>
          s.records[i].kind != s.records[k].kind || s.records[i].name != s.records[k].name)
    && (forall i :: 0 <= i < |s.records| && s.records[i].kind == Keypair ==> s.records[i].reference == s.records[i].name)
    && (forall id :: id in journal ==> exists i :: 0 <= i < |s.records| && Id(s.records[i]) == id)
    && s.baseline == (set row | row in rows && forall i :: 0 <= i < |s.records| ==> row != RowOf(s.records[i]))
    && (forall row, i :: row in s.baseline && 0 <= i < |s.records| ==> row.kind != s.records[i].kind || row.name != s.records[i].name)
    && s.destroyBackup && exists i :: 0 <= i < |s.records| && s.records[i].kind == Volume && s.records[i].name == s.backup
  }

  /** A recorded replacement of a server: its projection before and after, and its new identifier. */
  datatype Transition = Transition(before: string, after: string, id: Option<string>)

  function Predecessors(records: seq<Record>, t: Transition): set<nat> {
    set i: nat | i < |records| && records[i].kind == Server && records[i].projection == t.before
  }

  /** Ownership after one replacement, which must have exactly one predecessor: nothing but that
      server's reference and projection changes. */
  ghost function After(records: seq<Record>, t: Transition): Option<seq<Record>> {
    if |Predecessors(records, t)| == 1 && t.id.Some?
    then
      var i := Only(Predecessors(records, t));
      Some(records[i := records[i].(reference := t.id.value, projection := t.after)])
    else None
  }

  ghost function Only(s: set<nat>): (i: nat)
    requires |s| == 1
    ensures s == {i}
  {
    var i :| i in s;
    Lone(s, i);
    i
  }

  /** Ownership after several replacements, in order. */
  ghost function AfterAll(records: seq<Record>, transitions: seq<Transition>): Option<seq<Record>>
    decreases |transitions|
  {
    if transitions == [] then Some(records)
    else
      match After(records, transitions[0])
      case None => None
      case Some(next) => AfterAll(next, transitions[1..])
  }

  /** The same resources by kind and name, and everything but servers as it was. */
  ghost predicate SameNames(records: seq<Record>, current: seq<Record>) {
    && |current| == |records|
    && forall i :: 0 <= i < |records| ==>
         && current[i].kind == records[i].kind && current[i].name == records[i].name
         && (records[i].kind != Server ==> current[i] == records[i])
  }

  lemma {:induction false} OwnershipKeepsNames(records: seq<Record>, transitions: seq<Transition>)
    ensures AfterAll(records, transitions).Some? ==> SameNames(records, AfterAll(records, transitions).value)
    decreases |transitions|
  {
    if transitions != [] && After(records, transitions[0]).Some? {
      var next := After(records, transitions[0]).value;
      assert Only(Predecessors(records, transitions[0])) in Predecessors(records, transitions[0]);
      OwnershipKeepsNames(next, transitions[1..]);
    }
  }

  /** A record is rewritten exactly when a recorded replacement names its projection: the last one
      of an unbroken chain decides what is owned. */
  lemma ReplacementIsFollowed(records: seq<Record>, t: Transition, i: nat)
    requires After(records, t).Some? && i < |records|
    ensures var now := After(records, t).value;
            if records[i].kind == Server && records[i].projection == t.before
            then now[i] == Record(Server, records[i].name, t.id.value, t.after)
            else now[i] == records[i]
  {
    var k := Only(Predecessors(records, t));
    assert i in Predecessors(records, t) <==> i == k;
  }

  /** The ownership records after one replacement. */
  method Follow(records: seq<Record>, t: Transition) returns (r: Option<seq<Record>>)
    ensures r == After(records, t)
    ensures r.Some? <==> |Predecessors(records, t)| == 1 && t.id.Some?
  {
    var matches := Predecessors(records, t);
    if |matches| != 1 || t.id.None? { return None; }
    var i :| i in matches;
    Lone(matches, i);
    r := Some(records[i := records[i].(reference := t.id.value, projection := t.after)]);
  }

  /** The ownership records after the recorded replacements, in order. */
  method Current(records: seq<Record>, transitions: seq<Transition>) returns (r: Option<seq<Record>>)
    ensures r == AfterAll(records, transitions)
    ensures r.Some? ==> SameNames(records, r.value)
  {
    OwnershipKeepsNames(records, transitions);
    r := Some(records);
    for k := 0 to |transitions|
      invariant r.Some? && AfterAll(r.value, transitions[k..]) == AfterAll(records, transitions)
    {
      assert transitions[k..][0] == transitions[k] && transitions[k..][1..] == transitions[k + 1..];
      r := Follow(r.value, transitions[k]);
      if r.None? { return; }
    }
  }

  /** What handling record `r` may do to the provider and the journal, wherever it is cut short. */
  ghost predicate Handled(rows: set<Row>, journal: Journal, r: Record, rows': set<Row>, journal': Journal) {
    && Advances(journal, journal')
    && (forall id :: id in journal' ==> id == Id(r) || (id in journal && journal'[id] == journal[id]))
    && (rows' == rows
        || (rows' == rows - {RowOf(r)} && Live(rows, r) && Id(r) in journal' && journal'[Id(r)].intent == r))
  }

  /** Handling one record leaves every other record as it was. */
  lemma OthersStaySettled(rows: set<Row>, journal: Journal, r: Record, rows': set<Row>, journal': Journal, other: Record)
    requires Handled(rows, journal, r, rows', journal') && Settled(rows, journal, other)
    requires other.kind != r.kind || other.name != r.name
    ensures Settled(rows', journal', other)
  {
    assert Named(rows', other) == Named(rows, other);
    assert Referenced(rows', other) <= Referenced(rows, other);
  }

  lemma StaysResumable(rows: set<Row>, journal: Journal, s: Scope, k: nat, rows': set<Row>, journal': Journal)
    requires Resumable(rows, journal, s) && k < |s.records|
    requires Handled(rows, journal, s.records[k], rows', journal') && Settled(rows', journal', s.records[k])
    ensures Resumable(rows', journal', s)
  {
    forall i | 0 <= i < |s.records| && i != k ensures Settled(rows', journal', s.records[i]) {
      OthersStaySettled(rows, journal, s.records[k], rows', journal', s.records[i]);
    }
    assert s.baseline == set row | row in rows' && forall i :: 0 <= i < |s.records| ==> row != RowOf(s.records[i]);
  }

  /** The provider, the durable journal, and every delete ever sent. */
  class Deployment {
    var rows: set<Row>
    var journal: Journal
    ghost var sent: seq<Deletion>

    constructor (rows: set<Row>, journal: Journal)
      ensures this.rows == rows && this.journal == journal && sent == []
    {
      this.rows, this.journal, sent := rows, journal, [];
    }

    /** Append an exact intent, or advance it; the file is replaced as a whole or not at all. */
    method RecordTeardown(r: Record, status: Status, obliging: bool) returns (ok: bool)
      modifies this`journal
      ensures Advances(old(journal), journal)
      ensures forall id :: id in journal ==> id == Id(r) || (id in old(journal) && journal[id] == old(journal)[id])
      ensures journal == old(journal) || journal == old(journal)[Id(r) := Entry(r, status)]
      ensures ok ==> Id(r) in journal && journal[Id(r)].intent == r && (status == Confirmed ==> journal[Id(r)].status == Confirmed)
      ensures ok && status == Confirmed ==> Id(r) in old(journal)
      ensures obliging && (if Id(r) in old(journal) then old(journal)[Id(r)].intent == r else status == Intended) ==> ok
    {
      if Id(r) in journal {
        if journal[Id(r)].intent != r { return false; }
        if journal[Id(r)].status == Confirmed || status == Intended { return true; }
      } else if status != Intended {
        return false;
      }
      ok := GoesWell(obliging);
      if ok { journal := journal[Id(r) := Entry(r, status)]; }
    }

    /** Send a delete for a resource that was just seen exactly as recorded, its intent durable. */
    method Delete(r: Record, obliging: bool) returns (ok: bool)
      requires Unique(rows) && Live(rows, r) && Id(r) in journal && journal[Id(r)].intent == r
      modifies this`rows, this`sent
      ensures rows == old(rows) || rows == old(rows) - {RowOf(r)}
      ensures sent == old(sent) + [Deletion(r, old(rows), journal)]
      ensures obliging ==> ok && rows == old(rows) - {RowOf(r)}
    {
      sent := sent + [Deletion(r, rows, journal)];
      var applied := GoesWell(obliging);
      if applied { rows := set row | row in rows && !(row.kind == r.kind && row.id == r.reference); }
      assert RowOf(r) in Named(old(rows), r);
      ok := GoesWell(obliging);
    }

    /** Take one owned resource from live, or gone with an intent, to confirmed. */
    method Handle(s: Scope, r: Record, obliging: bool) returns (outcome: Outcome)
      requires Unique(rows) && r in s.records
      modifies this
      ensures Unique(rows) && Handled(old(rows), old(journal), r, rows, journal)
      ensures sent == old(sent) || (|sent| == |old(sent)| + 1 && old(sent) <= sent && Justified(sent[|old(sent)|], s.records))
      ensures outcome == Complete ==> Done(rows, journal, r)
      ensures NewlyConfirmed(old(journal), r, journal) ==> NothingLeft(rows, r)
      ensures Settled(old(rows), old(journal), r) ==> Settled(rows, journal, r)
      ensures obliging && Settled(old(rows), old(journal), r) ==> outcome == Complete
      ensures Suspicious(old(rows), old(journal), r) ==>
                outcome != Complete && rows == old(rows) && journal == old(journal) && sent == old(sent)
    {
      Suspects(rows, journal, r);
      AbsentMeans(rows, r);
      var well := GoesWell(obliging);
      if !well { return Crashed; }
      var matches := Named(rows, r);
      if matches == {} && r.kind != Keypair && Referenced(rows, r) != {} { return Stopped; }
      if Id(r) in journal && journal[Id(r)].intent != r { return Stopped; }
      if matches == {} {
        if Id(r) !in journal { return Stopped; }
        well := RecordTeardown(r, Confirmed, obliging);
        return if well then Complete else Stopped;
      }
      if |matches| != 1 { return Stopped; }
      if Id(r) in journal && journal[Id(r)].status == Confirmed { return Stopped; }
      var row :| row in matches;
      if row.id != r.reference || row.projection != r.projection { return Stopped; }
      Lone(matches, row);
      well := RecordTeardown(r, Intended, obliging);
      if !well { return Stopped; }
      outcome := DeleteAndConfirm(s, r, obliging);
    }

    method DeleteAndConfirm(s: Scope, r: Record, obliging: bool) returns (outcome: Outcome)
      requires Unique(rows) && r in s.records && Live(rows, r) && Id(r) in journal && journal[Id(r)] == Entry(r, Intended)
      modifies this
      ensures Unique(rows) && Handled(old(rows), old(journal), r, rows, journal)
      ensures sent == old(sent) || (|sent| == |old(sent)| + 1 && old(sent) <= sent && Justified(sent[|old(sent)|], s.records))
      ensures outcome == Complete ==> Done(rows, journal, r)
      ensures NewlyConfirmed(old(journal), r, journal) ==> NothingLeft(rows, r)
      ensures Settled(rows, journal, r)
      ensures obliging ==> outcome == Complete
    {
      var well := GoesWell(obliging);
      if !well { return Crashed; }
      well := Delete(r, obliging);
      DeletedIsAbsent(old(rows), r);
      AbsentMeans(rows, r);
      if !well { return Stopped; }
      well := GoesWell(obliging);
      if !well { return Crashed; }
      var remaining := Named(rows, r);
      if remaining == {} && r.kind != Keypair && Referenced(rows, r) != {} { return Stopped; }
      if remaining != {} { return Stopped; }
      well := RecordTeardown(r, Confirmed, obliging);
      outcome := if well then Complete else Stopped;
    }

    /** One teardown, cut short anywhere. Nothing but owned resources with a journaled intent
        goes; completion means every owned identity is confirmed and absent, nothing is left of
        the deployment's names, and the rest of the inventory is the baseline. */
    method Teardown(s: Scope, obliging: bool) returns (outcome: Outcome)
      requires Unique(rows)
      modifies this
      ensures Unique(rows) && Kept(old(rows), old(journal), rows, journal, s)
      ensures old(sent) <= sent && AllJustified(sent[|old(sent)|..], s.records)
      ensures outcome == Complete ==> rows == s.baseline && Finished(rows, journal, s)
      ensures obliging && Resumable(old(rows), old(journal), s) ==> outcome == Complete
    {
      if s.records == [] { return Stopped; }
      for i := 0 to |s.records|
        invariant Unique(rows) && Kept(old(rows), old(journal), rows, journal, s)
        invariant old(sent) <= sent && AllJustified(sent[|old(sent)|..], s.records)
        invariant forall k :: 0 <= k < i ==> Done(rows, journal, s.records[k])
      {
        ghost var before := sent;
        outcome := HandleNext(s, i, old(rows), old(journal), obliging);
        assert sent[|old(sent)|..] == before[|old(sent)|..] + sent[|before|..];
        if outcome != Complete { return; }
      }
      outcome := Conclude(s, obliging);
    }

    /** A teardown of exactly what is owned after the recorded replacements; replacements that cannot
        be followed stop it before it touches anything. */
    method TeardownCurrent(s: Scope, transitions: seq<Transition>, obliging: bool) returns (outcome: Outcome, current: Scope)
      requires Unique(rows)
      modifies this
      ensures Unique(rows)
      ensures AfterAll(s.records, transitions).None? ==>
                outcome == Stopped && current == s && rows == old(rows) && journal == old(journal) && sent == old(sent)
      ensures AfterAll(s.records, transitions).Some? ==>
                && current == s.(records := AfterAll(s.records, transitions).value)
                && SameNames(s.records, current.records) && Kept(old(rows), old(journal), rows, journal, current)
                && old(sent) <= sent && AllJustified(sent[|old(sent)|..], current.records)
                && (outcome == Complete ==> rows == s.baseline && Finished(rows, journal, current))
                && (obliging && Resumable(old(rows), old(journal), current) ==> outcome == Complete)
    {
      var records := Current(s.records, transitions);
      current := s;
      if records.None? { return Stopped, current; }
      current := s.(records := records.value);
      outcome := Teardown(current, obliging);
    }

    /** Any number of teardowns, each cut short anywhere, and then one that meets no trouble. */
    method Reruns(s: Scope, attempts: nat) returns (outcome: Outcome)
      requires Unique(rows)
      modifies this
      ensures Unique(rows) && Kept(old(rows), old(journal), rows, journal, s)
      ensures old(sent) <= sent && AllJustified(sent[|old(sent)|..], s.records)
      ensures Resumable(old(rows), old(journal), s) ==> rows == s.baseline && Finished(rows, journal, s)
    {
      for i := 0 to attempts
        invariant Unique(rows) && Kept(old(rows), old(journal), rows, journal, s)
        invariant old(sent) <= sent && AllJustified(sent[|old(sent)|..], s.records)
      {
        outcome := Again(s, old(rows), old(journal), old(sent), false);
      }
      outcome := Again(s, old(rows), old(journal), old(sent), true);
    }

    /** One more teardown after those since `rows0` and `journal0`. */
    method Again(s: Scope, ghost rows0: set<Row>, ghost journal0: Journal, ghost sent0: seq<Deletion>, obliging: bool)
        returns (outcome: Outcome)
      requires Unique(rows) && Kept(rows0, journal0, rows, journal, s)
      requires sent0 <= sent && AllJustified(sent[|sent0|..], s.records)
      modifies this
      ensures Unique(rows) && Kept(rows0, journal0, rows, journal, s)
      ensures sent0 <= sent && AllJustified(sent[|sent0|..], s.records)
      ensures obliging && Resumable(rows0, journal0, s) ==> rows == s.baseline && Finished(rows, journal, s)
    {
      outcome := Teardown(s, obliging);
      KeptComposes(rows0, journal0, old(rows), old(journal), rows, journal, s);
      assert sent[|sent0|..] == old(sent)[|sent0|..] + sent[|old(sent)|..];
    }

    method HandleNext(s: Scope, i: nat, ghost rows0: set<Row>, ghost journal0: Journal, obliging: bool) returns (outcome: Outcome)
      requires Unique(rows) && i < |s.records| && Kept(rows0, journal0, rows, journal, s)
      requires forall k :: 0 <= k < i ==> Done(rows, journal, s.records[k])
      modifies this
      ensures Unique(rows) && Kept(rows0, journal0, rows, journal, s)
      ensures old(sent) <= sent && AllJustified(sent[|old(sent)|..], s.records)
      ensures outcome == Complete ==> forall k :: 0 <= k <= i ==> Done(rows, journal, s.records[k])
      ensures obliging && Resumable(rows0, journal0, s) ==> outcome == Complete
    {
      var r := s.records[i];
      outcome := Handle(s, r, obliging);
      if Resumable(rows0, journal0, s) { StaysResumable(old(rows), old(journal), s, i, rows, journal); }
      GoneGrows(rows0, old(rows), old(journal), s.records, r, rows, journal);
      ConfirmedIsGone(rows0, journal0, old(rows), old(journal), s, r, rows, journal);
      forall k | 0 <= k < i ensures Done(rows, journal, s.records[k]) {
        StaysDone(old(rows), old(journal), r, rows, journal, s.records[k]);
      }
    }

    /** The checks after the last resource. */
    method Conclude(s: Scope, obliging: bool) returns (outcome: Outcome)
      requires forall k :: 0 <= k < |s.records| ==> Done(rows, journal, s.records[k])
      ensures outcome == Complete ==> rows == s.baseline && Finished(rows, journal, s)
      ensures obliging && Resumable(rows, journal, s) ==> outcome == Complete
    {
      var identities := set k | 0 <= k < |s.records| :: Id(s.records[k]);
      if exists id :: id in journal && id !in identities { return Stopped; }
      if !s.destroyBackup || !(exists r :: r in s.records && r.kind == Volume && r.name == s.backup) { return Stopped; }
      var well := GoesWell(obliging);
      if !well { return Crashed; }
      if Resumable(rows, journal, s) { DoneIsBaseline(rows, journal, s); }
      if rows != s.baseline { return Stopped; }
      if exists r :: r in s.records && Named(rows, r) != {} { return Stopped; }
      DoneIsFinished(rows, journal, s);
      outcome := Complete;
    }
  }

  ghost predicate AllJustified(sent: seq<Deletion>, records: seq<Record>) {
    forall k :: 0 <= k < |sent| ==> Justified(sent[k], records)
  }

  /** Nothing appears, and what is gone is an owned resource whose exact intent is journaled. */
  ghost predicate OnlyOwnedGone(before: set<Row>, after: set<Row>, journal: Journal, records: seq<Record>) {
    && after <= before
    && forall row :: row in before && row !in after ==>
         exists r :: r in records && row == RowOf(r) && Id(r) in journal && journal[Id(r)].intent == r
  }

  /** What every teardown keeps, however it ends. */
  ghost predicate Kept(rows: set<Row>, journal: Journal, rows': set<Row>, journal': Journal, s: Scope) {
    && Advances(journal, journal') && OnlyOwnedGone(rows, rows', journal', s.records)
    && (Resumable(rows, journal, s) ==> Resumable(rows', journal', s))
    && (forall i :: 0 <= i < |s.records| ==>
          NewlyConfirmed(journal, s.records[i], journal') ==> NothingLeft(rows', s.records[i]))
  }

  /** A sent delete was of the one resource of its name, with the recorded identifier and projection,
      and its whole record was durable as an intent. */
  lemma JustifiedMeans(d: Deletion, records: seq<Record>)
    requires Justified(d, records)
    ensures exists i :: 0 <= i < |records| && records[i] == d.record
    ensures exists row :: row in d.rows && row.kind == d.record.kind && row.name == d.record.name
                          && row.id == d.record.reference && row.projection == d.record.projection
    ensures forall a, b :: a in d.rows && b in d.rows && a.kind == b.kind == d.record.kind && a.name == b.name == d.record.name ==> a == b
    ensures exists id :: id in d.journal && id.kind == d.record.kind && id.name == d.record.name && id.reference == d.record.reference
                         && d.journal[id].intent == d.record
  {
    var r := d.record;
    assert RowOf(r) in Named(d.rows, r);
    forall a | a in d.rows && a.kind == r.kind && a.name == r.name ensures a == RowOf(r) { assert a in Named(d.rows, r); }
    assert Id(r).kind == r.kind && Id(r).name == r.name && Id(r).reference == r.reference;
  }

  lemma Suspects(rows: set<Row>, journal: Journal, r: Record)
    ensures Suspicious(rows, journal, r) <==>
            if Named(rows, r) != {} then Named(rows, r) != {RowOf(r)}
            else Id(r) !in journal || (r.kind != Keypair && Referenced(rows, r) != {})
  {
    assert (exists row :: row in rows && row.kind == r.kind && row.name == r.name) <==> Named(rows, r) != {} by {
      if row :| row in rows && row.kind == r.kind && row.name == r.name { assert row in Named(rows, r); }
    }
    assert (exists row :: row in rows && row.kind == r.kind && row.id == r.reference) <==> Referenced(rows, r) != {} by {
      if row :| row in rows && row.kind == r.kind && row.id == r.reference { assert row in Referenced(rows, r); }
    }
    if Named(rows, r) != {} { SuspectsNamed(rows, r); }
  }

  lemma SuspectsNamed(rows: set<Row>, r: Record)
    requires Named(rows, r) != {}
    ensures Named(rows, r) != {RowOf(r)} <==>
            exists row :: row in rows && row.kind == r.kind && row.name == r.name && (row.id != r.reference || row.projection != r.projection)
  {
    if Named(rows, r) != {RowOf(r)} {
      var row :| row in Named(rows, r) && row != RowOf(r);
      assert row.id != r.reference || row.projection != r.projection;
    } else if row :| row in rows && row.kind == r.kind && row.name == r.name && (row.id != r.reference || row.projection != r.projection) {
      assert row in Named(rows, r);
    }
  }

  lemma AbsentMeans(rows: set<Row>, r: Record)
    ensures Absent(rows, r) <==> NothingLeft(rows, r)
  {
    if Absent(rows, r) {
      forall row | row in rows && row.kind == r.kind
        ensures row.name != r.name && (r.kind != Keypair ==> row.id != r.reference)
      {
        assert row !in Named(rows, r) && (r.kind != Keypair ==> row !in Referenced(rows, r));
      }
    }
  }

  lemma KeptComposes(rows: set<Row>, journal: Journal, rows1: set<Row>, journal1: Journal, rows2: set<Row>, journal2: Journal, s: Scope)
    requires Kept(rows, journal, rows1, journal1, s) && Kept(rows1, journal1, rows2, journal2, s)
    ensures Kept(rows, journal, rows2, journal2, s)
  {
    forall row | row in rows && row !in rows2
      ensures exists r :: r in s.records && row == RowOf(r) && Id(r) in journal2 && journal2[Id(r)].intent == r
    {
      if row !in rows1 {
        var r :| r in s.records && row == RowOf(r) && Id(r) in journal1 && journal1[Id(r)].intent == r;
        assert Id(r) in journal2;
      }
    }
  }

  ghost predicate Done(rows: set<Row>, journal: Journal, r: Record) {
    Absent(rows, r) && Id(r) in journal && journal[Id(r)] == Entry(r, Confirmed)
  }

  ghost predicate Finished(rows: set<Row>, journal: Journal, s: Scope) {
    && s.destroyBackup && (forall k :: 0 <= k < |s.records| ==> Done(rows, journal, s.records[k]) && NothingLeft(rows, s.records[k]))
    && (forall id :: id in journal ==> exists k :: 0 <= k < |s.records| && id == Id(s.records[k]))
    && exists r :: r in s.records && r.kind == Volume && r.name == s.backup && Done(rows, journal, r)
  }

  lemma DoneIsFinished(rows: set<Row>, journal: Journal, s: Scope)
    requires s.destroyBackup && forall k :: 0 <= k < |s.records| ==> Done(rows, journal, s.records[k])
    requires forall id :: id in journal ==> id in set k | 0 <= k < |s.records| :: Id(s.records[k])
    requires exists r :: r in s.records && r.kind == Volume && r.name == s.backup
    ensures Finished(rows, journal, s)
  {
    forall k | 0 <= k < |s.records| ensures NothingLeft(rows, s.records[k]) { AbsentMeans(rows, s.records[k]); }
    var r :| r in s.records && r.kind == Volume && r.name == s.backup;
    var k :| 0 <= k < |s.records| && s.records[k] == r;
    assert Done(rows, journal, s.records[k]);
  }

  /** Confirmations of one step, and those before it, are of resources that are gone. */
  lemma ConfirmedIsGone(rows0: set<Row>, journal0: Journal, rows: set<Row>, journal: Journal, s: Scope, r: Record, rows': set<Row>, journal': Journal)
    requires Kept(rows0, journal0, rows, journal, s) && Handled(rows, journal, r, rows', journal')
    requires NewlyConfirmed(journal, r, journal') ==> NothingLeft(rows', r)
    ensures forall i :: 0 <= i < |s.records| ==>
              NewlyConfirmed(journal0, s.records[i], journal') ==> NothingLeft(rows', s.records[i])
  {
    forall i | 0 <= i < |s.records| && NewlyConfirmed(journal0, s.records[i], journal') ensures NothingLeft(rows', s.records[i]) {
      var q := s.records[i];
      assert rows' <= rows;
      if !NewlyConfirmed(journal0, q, journal) {
        assert NewlyConfirmed(journal, q, journal');
        assert Id(q) == Id(r);
      }
    }
  }

  lemma GoneGrows(before: set<Row>, rows: set<Row>, journal: Journal, records: seq<Record>, r: Record, rows': set<Row>, journal': Journal)
    requires OnlyOwnedGone(before, rows, journal, records) && r in records && Handled(rows, journal, r, rows', journal')
    ensures OnlyOwnedGone(before, rows', journal', records)
  {
    forall row | row in before && row !in rows'
      ensures exists q :: q in records && row == RowOf(q) && Id(q) in journal' && journal'[Id(q)].intent == q
    {
      if row in rows {
        assert row == RowOf(r);
      } else {
        var q :| q in records && row == RowOf(q) && Id(q) in journal && journal[Id(q)].intent == q;
        assert Id(q) in journal' && journal'[Id(q)].intent == q;
      }
    }
  }

  lemma StaysDone(rows: set<Row>, journal: Journal, r: Record, rows': set<Row>, journal': Journal, q: Record)
    requires Handled(rows, journal, r, rows', journal') && Done(rows, journal, q)
    ensures Done(rows', journal', q)
  {
    assert Named(rows', q) <= Named(rows, q) && Referenced(rows', q) <= Referenced(rows, q);
  }

  lemma DoneIsBaseline(rows: set<Row>, journal: Journal, s: Scope)
    requires Resumable(rows, journal, s) && forall k :: 0 <= k < |s.records| ==> Done(rows, journal, s.records[k])
    ensures rows == s.baseline
  {
    forall row, i | row in rows && 0 <= i < |s.records| ensures row != RowOf(s.records[i]) {
      assert row !in Named(rows, s.records[i]);
    }
  }

  lemma Lone<T>(s: set<T>, x: T)
    requires x in s && |s| == 1
    ensures s == {x}
  {
    assert |s - {x}| == 0;
  }

  lemma DeletedIsAbsent(rows: set<Row>, r: Record)
    requires Unique(rows) && Live(rows, r)
    ensures Absent(rows - {RowOf(r)}, r)
  {
    assert RowOf(r) in Named(rows, r);
    assert forall row :: row in Named(rows, r) ==> row == RowOf(r);
  }
}
