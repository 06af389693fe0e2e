/** The logical database archive: a manifest, then a metadata and a payload member per entry. */
module DatabaseArchive {
  import opened Options

  type Bytes = seq<bv8>

  const MAXIMUM_METADATA := 16 * 1024 * 1024
  const MAXIMUM_PAYLOAD := 1024 * 1024 * 1024 * 1024
  const MAXIMUM_ENTRIES := 1000

  datatype Kind = Postgres | Mongo

  /** A shared server or an isolated instance. `sound` stands for the field checks that concern
      this entry alone and no other member: quotas, database names and resource rows. */
  datatype Entry = Entry(id: string, instance: Option<string>, kind: Kind, port: int, sound: bool)
  datatype Manifest = Manifest(format: string, kind: Kind, namespace: string, project: string, entries: seq<Entry>)
  datatype Metadata = Metadata(bytes: nat, sha256: nat)
  datatype Member = Member(name: string, file: bool, content: Bytes)

  /** The digest and the two JSON codecs, taken as given. */
  datatype Given = Given(digest: Bytes -> nat,
                         writeManifest: Manifest -> Bytes, readManifest: Bytes -> Option<Manifest>,
                         writeMetadata: Metadata -> Bytes, readMetadata: Bytes -> Option<Metadata>)

  /** Reading undoes writing, and no JSON text is empty. */
  ghost predicate Faithful(g: Given) {
    && (forall m :: g.readManifest(g.writeManifest(m)) == Some(m) && g.writeManifest(m) != [])
    && (forall m :: g.readMetadata(g.writeMetadata(m)) == Some(m) && g.writeMetadata(m) != [])
  }

  const FORMAT := "platform-database-logical-v1"

  const UUID_LENGTH := 36

  /** The shared server, or one of its databases by a name of 22 characters. */
  predicate IsShared(id: string) { id == "shared" || (|id| == 29 && id[..9] == "shared.p_") }

  predicate SoundEntry(m: Manifest, e: Entry) {
    && e.sound && e.kind == m.kind
    && match e.instance
       case Some(identifier) => e.id == identifier && |e.id| == UUID_LENGTH && 30000 <= e.port <= 30999
       case None => IsShared(e.id) && e.port == if m.kind == Postgres then 5432 else 27017
  }

  predicate ValidManifest(m: Manifest) {
    && m.format == FORMAT && |m.entries| <= MAXIMUM_ENTRIES
    && (forall i :: 0 <= i < |m.entries| ==> SoundEntry(m, m.entries[i]))
    && (forall i, k :: 0 <= i < k < |m.entries| ==> m.entries[i].id != m.entries[k].id)
  }

  /** An isolated instance goes by its own identifier, on a port of the instance range; a shared
      server, or a database of it, is on the port of its engine. */
  predicate Placed(kind: Kind, e: Entry) {
    if e.instance.Some? then e.instance.value == e.id && |e.id| == 36 && 30000 <= e.port <= 30999
    else (e.id == "shared" || (|e.id| == 29 && e.id[..9] == "shared.p_")) && e.port == (match kind case Postgres => 5432 case Mongo => 27017)
  }

  method ValidateManifest(m: Manifest) returns (ok: bool)
    ensures ok <==> ValidManifest(m)
    ensures ok <==>
              && m.format == "platform-database-logical-v1" && |m.entries| <= 1000
              && (forall i :: 0 <= i < |m.entries| ==> m.entries[i].sound && m.entries[i].kind == m.kind && Placed(m.kind, m.entries[i]))
              && (forall i, k :: 0 <= i < k < |m.entries| ==> m.entries[i].id != m.entries[k].id)
  {
    forall i | 0 <= i < |m.entries|
      ensures SoundEntry(m, m.entries[i]) <==> m.entries[i].sound && m.entries[i].kind == m.kind && Placed(m.kind, m.entries[i])
    {
    }
    if m.format != FORMAT || |m.entries| > MAXIMUM_ENTRIES { return false; }
    var seen: set<string> := {};
    for i := 0 to |m.entries|
      invariant seen == set k | 0 <= k < i :: m.entries[k].id
      invariant forall k :: 0 <= k < i ==> SoundEntry(m, m.entries[k])
      invariant forall j, k :: 0 <= j < k < i ==> m.entries[j].id != m.entries[k].id
    {
      var e := m.entries[i];
      if !SoundEntry(m, e) || e.id in seen { return false; }
      seen := seen + {e.id};
    }
    ok := true;
  }

  predicate Readable(member: Member, name: string) {
    member.name == name && member.file && 0 < |member.content| <= MAXIMUM_METADATA
  }

  /** The metadata and payload members of one entry belong together. */
  predicate Pair(g: Given, e: Entry, info: Member, dump: Member) {
    && Readable(info, e.id + ".json") && g.readMetadata(info.content).Some?
    && dump.name == e.id + ".dump" && dump.file && 0 < |dump.content| <= MAXIMUM_PAYLOAD
    && g.readMetadata(info.content).value == Metadata(|dump.content|, g.digest(dump.content))
  }

  predicate Opens(g: Given, archive: seq<Member>) {
    && |archive| > 0 && Readable(archive[0], "MANIFEST.json")
    && g.readManifest(archive[0].content).Some? && ValidManifest(g.readManifest(archive[0].content).value)
  }

  function ManifestOf(g: Given, archive: seq<Member>): Manifest
    requires Opens(g, archive)
  {
    g.readManifest(archive[0].content).value
  }

  predicate PairAt(g: Given, m: Manifest, archive: seq<Member>, i: nat)
    requires i < |m.entries|
  {
    2 * i + 2 < |archive| && Pair(g, m.entries[i], archive[2 * i + 1], archive[2 * i + 2])
  }

  /** Exactly one pair per entry, in manifest order, and nothing else. */
  predicate Accepted(g: Given, archive: seq<Member>) {
    && Opens(g, archive)
    && var m := ManifestOf(g, archive);
       && |archive| == 2 * |m.entries| + 1
       && forall i :: 0 <= i < |m.entries| ==> PairAt(g, m, archive, i)
  }

  /** One call that restores an entry from a payload. */
  datatype Applied = Applied(entry: Entry, payload: Bytes)
  datatype Counts = Counts(kind: Kind, shared: nat, isolated: nat)

  function Isolated(entries: seq<Entry>): (n: nat)
    ensures n <= |entries|
  {
    if entries == [] then 0
    else Isolated(entries[..|entries| - 1]) + if entries[|entries| - 1].instance.Some? then 1 else 0
  }

  /** Every entry so far, once, in order, with the payload of its own member. */
  ghost predicate AppliedInOrder(m: Manifest, archive: seq<Member>, applied: seq<Applied>) {
    && |applied| <= |m.entries|
    && forall i :: 0 <= i < |applied| ==>
         2 * i + 2 < |archive| && applied[i] == Applied(m.entries[i], archive[2 * i + 2].content)
  }

  /** Walk the archive, applying each entry as soon as its payload is checked. */
  method Consume(g: Given, archive: seq<Member>, scope: Option<(string, string)>, works: Applied -> bool)
      returns (r: Result<Counts, ()>, applied: seq<Applied>)
    ensures applied != [] ==> Opens(g, archive)
    ensures Opens(g, archive) ==> AppliedInOrder(ManifestOf(g, archive), archive, applied)
    ensures r.Ok? <==> Accepted(g, archive) && InScope(ManifestOf(g, archive), scope) && AllWork(ManifestOf(g, archive), archive, works)
    ensures forall i :: 0 <= i < |applied| ==> works(applied[i])
    ensures r.Ok? && scope.Some? ==>
              ManifestOf(g, archive).namespace == scope.value.0 && ManifestOf(g, archive).project == scope.value.1
    ensures r.Ok? ==> var entries := ManifestOf(g, archive).entries;
                      r.value.isolated == |Positions(entries, true)| && r.value.shared == |Positions(entries, false)|
    ensures r.Ok? ==> var m := ManifestOf(g, archive);
                      && |applied| == |m.entries|
                      && r.value == Counts(m.kind, |m.entries| - Isolated(m.entries), Isolated(m.entries))
  {
    applied := [];
    if |archive| == 0 || !Readable(archive[0], "MANIFEST.json") { return Err(()), applied; }
    var read := g.readManifest(archive[0].content);
    if read.None? { return Err(()), applied; }
    var m := read.value;
    var valid := ValidateManifest(m);
    if !valid { return Err(()), applied; }
    if !InScope(m, scope) { return Err(()), applied; }
    var ok, shared, isolated;
    CountsAreExact(m.entries);
    ok, applied, shared, isolated := Walk(g, m, archive, works);
    r := if ok then Ok(Counts(m.kind, shared, isolated)) else Err(());
  }

  /** Apply the members after the manifest, pair by pair. */
  method Walk(g: Given, m: Manifest, archive: seq<Member>, works: Applied -> bool)
      returns (ok: bool, applied: seq<Applied>, shared: nat, isolated: nat)
    requires |archive| > 0
    ensures AppliedInOrder(m, archive, applied)
    ensures forall i :: 0 <= i < |applied| ==> works(applied[i])
    ensures ok <==> && |archive| == 2 * |m.entries| + 1 && (forall i :: 0 <= i < |m.entries| ==> PairAt(g, m, archive, i))
                    && AllWork(m, archive, works)
    ensures ok ==> |applied| == |m.entries| && isolated == Isolated(m.entries) && shared == |m.entries| - isolated
  {
    applied, shared, isolated := [], 0, 0;
    var position := 1;
    for i := 0 to |m.entries|
      invariant position == 2 * i + 1 <= |archive| && Walked(g, m, archive, works, applied, i)
      invariant isolated == Isolated(m.entries[..i]) && shared == i - isolated
    {
      var e := m.entries[i];
      if position + 1 >= |archive| || !Pair(g, e, archive[position], archive[position + 1]) {
        assert !PairAt(g, m, archive, i);
        ok := false;
        return;
      }
      if !works(Applied(e, archive[position + 1].content)) {
        assert !WorksAt(m, archive, works, i);
        ok := false;
        return;
      }
      WalkedMore(g, m, archive, works, applied, i);
      applied := applied + [Applied(e, archive[position + 1].content)];
      if e.instance.Some? { isolated := isolated + 1; } else { shared := shared + 1; }
      IsolatedMore(m.entries, i);
      position := position + 2;
    }
    assert m.entries[..|m.entries|] == m.entries;
    ok := position == |archive|;
    if ok {
      forall k | 0 <= k < |m.entries| ensures WorksAt(m, archive, works, k) { assert works(applied[k]); }
    }
  }

  /** The first `n` pairs are accepted, applied in order, and restored. */
  ghost predicate Walked(g: Given, m: Manifest, archive: seq<Member>, works: Applied -> bool, applied: seq<Applied>, n: nat) {
    && |applied| == n <= |m.entries| && AppliedInOrder(m, archive, applied)
    && (forall k :: 0 <= k < n ==> PairAt(g, m, archive, k))
    && (forall k :: 0 <= k < n ==> works(applied[k]))
  }

  lemma WalkedMore(g: Given, m: Manifest, archive: seq<Member>, works: Applied -> bool, applied: seq<Applied>, n: nat)
    requires Walked(g, m, archive, works, applied, n) && n < |m.entries| && PairAt(g, m, archive, n)
    requires works(Applied(m.entries[n], archive[2 * n + 2].content))
    ensures Walked(g, m, archive, works, applied + [Applied(m.entries[n], archive[2 * n + 2].content)], n + 1)
  {
  }

  lemma IsolatedMore(entries: seq<Entry>, i: nat)
    requires i < |entries|
    ensures Isolated(entries[..i + 1]) == Isolated(entries[..i]) + if entries[i].instance.Some? then 1 else 0
  {
    assert entries[..i + 1][..i] == entries[..i];
  }

  predicate WorksAt(m: Manifest, archive: seq<Member>, works: Applied -> bool, i: nat)
    requires i < |m.entries|
  {
    2 * i + 2 < |archive| && works(Applied(m.entries[i], archive[2 * i + 2].content))
  }

  /** Restoring succeeds for every entry. */
  predicate AllWork(m: Manifest, archive: seq<Member>, works: Applied -> bool) {
    forall i :: 0 <= i < |m.entries| ==> WorksAt(m, archive, works, i)
  }

  predicate InScope(m: Manifest, scope: Option<(string, string)>) {
    scope.Some? ==> m.namespace == scope.value.0 && m.project == scope.value.1
  }

  function Info(g: Given, e: Entry, payload: Bytes): Member {
    Member(e.id + ".json", true, g.writeMetadata(Metadata(|payload|, g.digest(payload))))
  }

  function Dump(e: Entry, payload: Bytes): Member { Member(e.id + ".dump", true, payload) }

  /** The archive of the first `n` entries of a manifest, with these payloads. */
  function Layout(g: Given, m: Manifest, dumps: Entry -> Bytes, n: nat): (a: seq<Member>)
    requires n <= |m.entries|
    ensures |a| == 2 * n + 1 && a[0] == Member("MANIFEST.json", true, g.writeManifest(m))
    ensures forall i :: 0 <= i < n ==>
              a[2 * i + 1] == Info(g, m.entries[i], dumps(m.entries[i])) && a[2 * i + 2] == Dump(m.entries[i], dumps(m.entries[i]))
  {
    if n == 0 then [Member("MANIFEST.json", true, g.writeManifest(m))]
    else
      var e := m.entries[n - 1];
      Layout(g, m, dumps, n - 1) + [Info(g, e, dumps(e)), Dump(e, dumps(e))]
  }

  /** What `emit` can hold: bounded metadata and nonempty, bounded payloads. */
  predicate Fits(g: Given, m: Manifest, dumps: Entry -> Bytes, n: nat)
    requires n <= |m.entries|
  {
    && |g.writeManifest(m)| <= MAXIMUM_METADATA
    && forall i :: 0 <= i < n ==>
         0 < |dumps(m.entries[i])| <= MAXIMUM_PAYLOAD && |Info(g, m.entries[i], dumps(m.entries[i])).content| <= MAXIMUM_METADATA
  }

  /** Dump every entry, and commit only if the inventory is still the same afterwards. */
  method Emit(g: Given, m: Manifest, dumps: Entry -> Bytes, final: seq<Entry>) returns (r: Result<seq<Member>, ()>)
    ensures r.Ok? <==> Fits(g, m, dumps, |m.entries|) && final == m.entries
    ensures r.Ok? ==> r.value == Layout(g, m, dumps, |m.entries|)
  {
    if |g.writeManifest(m)| > MAXIMUM_METADATA { return Err(()); }
    var archive := [Member("MANIFEST.json", true, g.writeManifest(m))];
    for i := 0 to |m.entries|
      invariant Fits(g, m, dumps, i) && archive == Layout(g, m, dumps, i)
    {
      var e := m.entries[i];
      var payload := dumps(e);
      if !(0 < |payload| <= MAXIMUM_PAYLOAD) { return Err(()); }
      var info := Info(g, e, payload);
      if |info.content| > MAXIMUM_METADATA { return Err(()); }
      archive := archive + [info] + [Dump(e, payload)];
    }
    if m.entries != final { return Err(()); }
    r := Ok(archive);
  }

  /** Every archive that is committed from a valid manifest is accepted, and restores each entry
      with the bytes that were dumped for it. */
  lemma CommittedIsAccepted(g: Given, m: Manifest, dumps: Entry -> Bytes)
    requires Faithful(g) && ValidManifest(m) && Fits(g, m, dumps, |m.entries|)
    ensures var archive := Layout(g, m, dumps, |m.entries|);
            && Accepted(g, archive) && ManifestOf(g, archive) == m
            && forall i :: 0 <= i < |m.entries| ==> archive[2 * i + 2].content == dumps(m.entries[i])
  {
    var archive := Layout(g, m, dumps, |m.entries|);
    forall i | 0 <= i < |m.entries| ensures PairAt(g, m, archive, i) {
      var e := m.entries[i];
      PairIsRead(g, e, dumps(e));
    }
  }

  lemma PairIsRead(g: Given, e: Entry, payload: Bytes)
    requires Faithful(g) && 0 < |payload| <= MAXIMUM_PAYLOAD && |Info(g, e, payload).content| <= MAXIMUM_METADATA
    ensures Pair(g, e, Info(g, e, payload), Dump(e, payload))
  {
  }

  /** Emitting and consuming restores every entry once, in manifest order, with its own bytes. */
  method RoundTrip(g: Given, m: Manifest, dumps: Entry -> Bytes) returns (r: Result<Counts, ()>, applied: seq<Applied>)
    requires Faithful(g) && ValidManifest(m) && Fits(g, m, dumps, |m.entries|)
    ensures r == Ok(Counts(m.kind, |m.entries| - Isolated(m.entries), Isolated(m.entries)))
    ensures applied == seq(|m.entries|, i requires 0 <= i < |m.entries| => Applied(m.entries[i], dumps(m.entries[i])))
  {
    var archive := Emit(g, m, dumps, m.entries);
    CommittedIsAccepted(g, m, dumps);
    r, applied := Consume(g, archive.value, Some((m.namespace, m.project)), _ => true);
  }

  function Names(archive: seq<Member>): seq<string> { seq(|archive|, i requires 0 <= i < |archive| => archive[i].name) }

  /** A missing, extra, renamed or reordered member is refused: an accepted archive has the one
      sequence of names its manifest calls for. */
  lemma NamesAreForced(g: Given, a: seq<Member>, b: seq<Member>)
    requires Accepted(g, a) && Accepted(g, b) && ManifestOf(g, a) == ManifestOf(g, b)
    ensures Names(a) == Names(b)
  {
    var m := ManifestOf(g, a);
    forall k | 0 <= k < |a| ensures a[k].name == b[k].name {
      if k > 0 {
        var i := (k - 1) / 2;
        assert PairAt(g, m, a, i) && PairAt(g, m, b, i);
        assert k == 2 * i + 1 || k == 2 * i + 2;
      }
    }
  }

  /** No two members of an accepted archive share a name, so no two can change places. */
  lemma NamesAreDistinct(g: Given, a: seq<Member>, i: nat, k: nat)
    requires Accepted(g, a) && i < k < |a|
    ensures a[i].name != a[k].name
  {
    if i == 0 { ManifestNameIsDistinct(g, a, k); } else { EntryNamesAreDistinct(g, a, i, k); }
  }

  lemma ManifestNameIsDistinct(g: Given, a: seq<Member>, k: nat)
    requires Accepted(g, a) && 0 < k < |a|
    ensures a[0].name != a[k].name
  {
    var m := ManifestOf(g, a);
    var y := (k - 1) / 2;
    assert PairAt(g, m, a, y);
    assert k == 2 * y + 1 || k == 2 * y + 2;
    assert SoundEntry(m, m.entries[y]);
    NotTheManifest(m.entries[y].id);
  }

  lemma NotTheManifest(id: string)
    requires |id| == UUID_LENGTH || IsShared(id)
    ensures id + ".json" != "MANIFEST.json" && id + ".dump" != "MANIFEST.json"
  {
    assert (id + ".dump")[|id| + 4] == 'p';
    if |id| != UUID_LENGTH { assert id[0] == 's' && (id + ".json")[0] == 's'; }
  }

  lemma EntryNamesAreDistinct(g: Given, a: seq<Member>, i: nat, k: nat)
    requires Accepted(g, a) && 0 < i < k < |a|
    ensures a[i].name != a[k].name
  {
    var m := ManifestOf(g, a);
    var x, y := (i - 1) / 2, (k - 1) / 2;
    assert PairAt(g, m, a, x) && PairAt(g, m, a, y);
    var p, q := m.entries[x].id, m.entries[y].id;
    SuffixesDiffer(p, q);
    assert x != y ==> p != q;
    assert i == 2 * x + 1 || i == 2 * x + 2;
    assert k == 2 * y + 1 || k == 2 * y + 2;
  }

  lemma SuffixesDiffer(p: string, q: string)
    ensures p + ".json" != q + ".dump" && p + ".dump" != q + ".json"
    ensures p != q ==> p + ".json" != q + ".json" && p + ".dump" != q + ".dump"
  {
    assert (p + ".json")[|p + ".json"| - 1] == 'n' && (p + ".dump")[|p + ".dump"| - 1] == 'p';
    assert (q + ".json")[|q + ".json"| - 1] == 'n' && (q + ".dump")[|q + ".dump"| - 1] == 'p';
    assert (p + ".json")[..|p|] == p && (q + ".json")[..|q|] == q;
    assert (p + ".dump")[..|p|] == p && (q + ".dump")[..|q|] == q;
  }

  /** With an injective digest, the manifest and metadata members pin every payload. */
  lemma MetadataPinsPayloads(g: Given, a: seq<Member>, b: seq<Member>)
    requires Accepted(g, a) && Accepted(g, b) && forall x, y :: g.digest(x) == g.digest(y) ==> x == y
    requires a[0].content == b[0].content
    requires forall i :: 0 <= i < |a| && i < |b| && i % 2 == 1 ==> a[i].content == b[i].content
    ensures a == b
  {
    var m := ManifestOf(g, a);
    NamesAreForced(g, a, b);
    forall k | 0 <= k < |a| ensures a[k] == b[k] {
      assert Names(a)[k] == a[k].name && Names(b)[k] == b[k].name;
      if k > 0 {
        var i := (k - 1) / 2;
        assert PairAt(g, m, a, i) && PairAt(g, m, b, i);
        assert a[2 * i + 1].content == b[2 * i + 1].content;
        assert k == 2 * i + 1 || k == 2 * i + 2;
      }
    }
  }

  /** The positions of the isolated instances, or of the shared servers. */
  ghost function Positions(entries: seq<Entry>, isolated: bool): set<int> {
    set i | 0 <= i < |entries| && entries[i].instance.Some? == isolated
  }

  lemma OnePositionMore(entries: seq<Entry>, isolated: bool)
    requires entries != []
    ensures var n := |entries| - 1;
            && n !in Positions(entries[..n], isolated)
            && Positions(entries, isolated)
               == Positions(entries[..n], isolated) + if entries[n].instance.Some? == isolated then {n} else {}
  {
    var n := |entries| - 1;
    forall i ensures i in Positions(entries, isolated) <==>
                     i in Positions(entries[..n], isolated) || (i == n && entries[n].instance.Some? == isolated)
    {
      assert 0 <= i < n ==> entries[..n][i] == entries[i];
    }
  }

  /** How many entries are isolated instances, and how many shared servers. */
  lemma {:induction false} CountsAreExact(entries: seq<Entry>)
    ensures |Positions(entries, true)| == Isolated(entries)
    ensures |Positions(entries, false)| == |entries| - Isolated(entries)
  {
    if entries != [] {
      CountsAreExact(entries[..|entries| - 1]);
      OnePositionMore(entries, true);
      OnePositionMore(entries, false);
    }
  }

  /** An accepted archive, member by member. */
  lemma AcceptedMeans(g: Given, archive: seq<Member>, i: nat)
    requires Accepted(g, archive) && i < |ManifestOf(g, archive).entries|
    ensures |archive| == 2 * |ManifestOf(g, archive).entries| + 1
    ensures archive[0].name == "MANIFEST.json" && archive[0].file && 0 < |archive[0].content| <= 16777216
    ensures g.readManifest(archive[0].content) == Some(ManifestOf(g, archive))
    ensures var m := ManifestOf(g, archive);
            var e, info, dump := m.entries[i], archive[2 * i + 1], archive[2 * i + 2];
            && m.format == "platform-database-logical-v1" && |m.entries| <= 1000 && e.sound && e.kind == m.kind
            && (e.instance.Some? ==> e.instance.value == e.id && 30000 <= e.port <= 30999)
            && (e.instance.None? ==> e.port == if m.kind == Postgres then 5432 else 27017)
            && info.name == e.id + ".json" && info.file && 0 < |info.content| <= 16777216
            && dump.name == e.id + ".dump" && dump.file && 0 < |dump.content| <= 1099511627776
            && g.readMetadata(info.content) == Some(Metadata(|dump.content|, g.digest(dump.content)))
  {
    var m := ManifestOf(g, archive);
    assert PairAt(g, m, archive, i) && SoundEntry(m, m.entries[i]);
  }
}
