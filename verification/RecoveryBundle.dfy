/** Off-site recovery bundles: export, verification and import in all three formats. */
module RecoveryBundle {
  import opened Options

  type Bytes = seq<bv8>

  /** A member of a committed set of an encrypted archive. */
  datatype Part = Ciphertext | Checksum | Marker

  /** A file name. The names of encrypted database archives and of key archives are taken apart:
      `stem` orders as their full names do. */
  datatype Name = Archive(keys: bool, stem: int, part: Part) | Text(text: string)

  const GIBIBYTE := 1024 * 1024 * 1024
  const HARD_FILE_LIMIT := 4 * 1024 * GIBIBYTE
  const HARD_TOTAL_LIMIT := 8 * 1024 * GIBIBYTE
  const MAXIMUM_FILES := 64

  /** A component directory, or anything else at the top of a bundle. */
  datatype Component = HostedController | OperatorState | ManagedData | ManagementBroker | Elsewhere(entry: string)
  datatype Format = Plain | Management | Keys
  datatype Path = Path(component: Component, name: Name)
  datatype Record = Record(path: Path, bytes: nat, sha256: nat)
  datatype Bounds = Bounds(file: nat, total: nat)

  datatype Manifest = Manifest(format: Format, bundle: string, deployment: string, createdAt: string,
                               files: seq<Record>, bounds: Bounds, total: nat, components: Option<seq<Component>>)

  /** A committed directory: its name, its files, and the manifest with its two checksum files. */
  datatype Bundle = Bundle(name: string, files: map<Path, Bytes>, sums: seq<(nat, Path)>, manifest: Manifest, checksum: nat)

  type Tree = map<Name, Bytes>

  /** Taken as given: the digests, the filename pattern, which names are key archives, what makes
      the evidence of one component sound, and which of its files an export selects. */
  datatype Given = Given(digest: Bytes -> nat, seal: Manifest -> nat, safe: Name -> bool, isKeyArchive: Name -> bool,
                         sound: (Component, Tree) -> bool, select: (Component, Tree) -> Option<seq<Name>>)

  const THREE := [HostedController, OperatorState, ManagedData]
  const FOUR := [HostedController, OperatorState, ManagedData, ManagementBroker]

  predicate ValidBounds(b: Bounds) { GIBIBYTE <= b.file <= HARD_FILE_LIMIT && b.file <= b.total <= HARD_TOTAL_LIMIT }

  function ComponentsOf(m: Manifest): Option<seq<Component>> {
    match m.format
    case Plain => Some(THREE)
    case Management => Some(FOUR)
    case Keys => if m.components == Some(THREE) || m.components == Some(FOUR) then m.components else None
  }

  function TreeOf(files: map<Path, Bytes>, c: Component): Tree {
    map p | p in files && p.component == c :: p.name := files[p]
  }

  predicate SizesFit(t: Tree, limit: nat) { forall name :: name in t ==> 0 < |t[name]| <= limit }

  /** One component directory holds a bounded number of safely named, bounded, sound files. */
  predicate ComponentHolds(g: Given, files: map<Path, Bytes>, c: Component, limit: nat) {
    var t := TreeOf(files, c);
    && 0 < |t.Keys| <= MAXIMUM_FILES && (forall name :: name in t ==> g.safe(name)) && SizesFit(t, limit) && g.sound(c, t)
  }

  predicate RecordHolds(g: Given, files: map<Path, Bytes>, components: seq<Component>, limit: nat, r: Record) {
    && r.path.component in components && g.safe(r.path.name) && 0 < r.bytes <= limit
    && r.path in files && |files[r.path]| == r.bytes && g.digest(files[r.path]) == r.sha256
  }

  function Total(records: seq<Record>): nat {
    if records == [] then 0 else Total(records[..|records| - 1]) + records[|records| - 1].bytes
  }

  function Sums(records: seq<Record>): seq<(nat, Path)> {
    seq(|records|, i requires 0 <= i < |records| => (records[i].sha256, records[i].path))
  }

  function Paths(records: seq<Record>): set<Path> { set r | r in records :: r.path }

  predicate NoTwice(records: seq<Record>) { forall i, k :: 0 <= i < k < |records| ==> records[i].path != records[k].path }

  function Actual(files: map<Path, Bytes>, components: seq<Component>): set<Path> {
    set p | p in files && p.component in components
  }

  /** The manifest names this bundle, is sealed, and has a known shape. */
  predicate Headed(g: Given, b: Bundle) {
    var m := b.manifest;
    && m.bundle == b.name && b.checksum == g.seal(m) && ValidBounds(m.bounds) && ComponentsOf(m).Some?
    && 1 <= |m.files| <= |ComponentsOf(m).value| * MAXIMUM_FILES
  }

  predicate Populated(g: Given, b: Bundle, components: seq<Component>) {
    && (forall i :: 0 <= i < |components| ==> ComponentHolds(g, b.files, components[i], b.manifest.bounds.file))
    && (b.manifest.format == Keys ==>
          exists p :: p in Actual(b.files, components) && p.component == HostedController && g.isKeyArchive(p.name))
  }

  predicate AllHold(g: Given, b: Bundle, components: seq<Component>) {
    forall i :: 0 <= i < |b.manifest.files| ==>
      RecordHolds(g, b.files, components, b.manifest.bounds.file, b.manifest.files[i])
  }

  predicate Inventoried(g: Given, b: Bundle, components: seq<Component>) {
    var m := b.manifest;
    && AllHold(g, b, components) && NoTwice(m.files) && Paths(m.files) == Actual(b.files, components)
    && Total(m.files) == m.total <= m.bounds.total && b.sums == Sums(m.files)
  }

  /** The manifest lists exactly the component files, with their exact sizes and digests. */
  predicate Exact(g: Given, b: Bundle) {
    Headed(g, b) && Populated(g, b, ComponentsOf(b.manifest).value) && Inventoried(g, b, ComponentsOf(b.manifest).value)
  }

  /** Go through the records, keeping the paths seen and the running total. */
  method Tally(records: seq<Record>, holds: Record -> bool) returns (r: Option<(set<Path>, nat)>)
    ensures r.Some? <==> NoTwice(records) && forall i :: 0 <= i < |records| ==> holds(records[i])
    ensures r.Some? ==> r.value == (Paths(records), Total(records))
  {
    var expected: set<Path>, total := {}, 0;
    for i := 0 to |records|
      invariant expected == Paths(records[..i]) && total == Total(records[..i]) && NoTwice(records[..i])
      invariant forall k :: 0 <= k < i ==> holds(records[k])
    {
      var record := records[i];
      OneMoreRecord(records, i);
      if record.path in expected || !holds(record) { return None; }
      expected, total := expected + {record.path}, total + record.bytes;
    }
    assert records[..|records|] == records;
    r := Some((expected, total));
  }

  lemma OneMoreRecord(records: seq<Record>, i: nat)
    requires i < |records|
    ensures Paths(records[..i + 1]) == Paths(records[..i]) + {records[i].path}
    ensures Total(records[..i + 1]) == Total(records[..i]) + records[i].bytes
    ensures NoTwice(records[..i + 1]) <==> NoTwice(records[..i]) && records[i].path !in Paths(records[..i])
    ensures NoTwice(records) ==> NoTwice(records[..i + 1])
  {
    var front, more := records[..i], records[..i + 1];
    assert more == front + [records[i]] && more[..i] == front;
    if records[i].path in Paths(front) {
      var other :| other in front && other.path == records[i].path;
      var k :| 0 <= k < i && front[k] == other;
      assert more[k].path == more[i].path;
    } else {
      assert forall k :: 0 <= k < i ==> front[k] in front;
    }
  }

  /** Check the records one by one against the files. */
  method CheckRecords(g: Given, b: Bundle, components: seq<Component>) returns (r: Option<(set<Path>, nat)>)
    ensures r.Some? <==> NoTwice(b.manifest.files) && AllHold(g, b, components)
    ensures r.Some? ==> r.value == (Paths(b.manifest.files), Total(b.manifest.files))
  {
    var holds := record => RecordHolds(g, b.files, components, b.manifest.bounds.file, record);
    r := Tally(b.manifest.files, holds);
    assert r.None? && NoTwice(b.manifest.files) ==> exists i :: 0 <= i < |b.manifest.files| && !holds(b.manifest.files[i]);
  }

  /** Collect the paths of every component directory, as long as each of them passes. */
  method Collect(files: map<Path, Bytes>, components: seq<Component>, holds: Component -> bool) returns (r: Option<set<Path>>)
    ensures r.Some? <==> forall i :: 0 <= i < |components| ==> holds(components[i])
    ensures r.Some? ==> r.value == Actual(files, components)
  {
    var actual: set<Path> := {};
    for i := 0 to |components|
      invariant forall k :: 0 <= k < i ==> holds(components[k])
      invariant actual == Actual(files, components[..i])
    {
      if !holds(components[i]) { return None; }
      actual := actual + set p | p in files && p.component == components[i];
      assert components[..i + 1] == components[..i] + [components[i]];
    }
    assert components[..|components|] == components;
    r := Some(actual);
  }

  /** Look into every component directory. */
  method CheckComponents(g: Given, b: Bundle, components: seq<Component>) returns (r: Option<set<Path>>)
    ensures r.Some? <==> Populated(g, b, components)
    ensures r.Some? ==> r.value == Actual(b.files, components)
  {
    var holds := c => ComponentHolds(g, b.files, c, b.manifest.bounds.file);
    r := Collect(b.files, components, holds);
    assert r.None? ==> exists i :: 0 <= i < |components| && !holds(components[i]);
    if r.Some? && b.manifest.format == Keys
       && !(exists p :: p in r.value && p.component == HostedController && g.isKeyArchive(p.name))
    {
      r := None;
    }
  }

  method VerifyBundle(g: Given, b: Bundle) returns (r: Result<Manifest, ()>)
    ensures r == if Exact(g, b) then Ok(b.manifest) else Err(())
  {
    if !Headed(g, b) { return Err(()); }
    var m := b.manifest;
    var components := ComponentsOf(m).value;
    var actual := CheckComponents(g, b, components);
    if actual.None? { return Err(()); }
    var checked := CheckRecords(g, b, components);
    if checked.None? { return Err(()); }
    if checked.value.0 != actual.value || checked.value.1 != m.total || m.total > m.bounds.total { return Err(()); }
    if b.sums != Sums(m.files) { return Err(()); }
    r := Ok(m);
  }

  /** Every component file has its record. */
  lemma RecordFor(g: Given, b: Bundle, components: seq<Component>, p: Path) returns (i: nat)
    requires Inventoried(g, b, components) && p in b.files && p.component in components
    ensures i < |b.manifest.files| && b.manifest.files[i] == Record(p, |b.files[p]|, g.digest(b.files[p]))
  {
    assert p in Paths(b.manifest.files);
    var r :| r in b.manifest.files && r.path == p;
    i :| 0 <= i < |b.manifest.files| && b.manifest.files[i] == r;
    assert RecordHolds(g, b.files, components, b.manifest.bounds.file, b.manifest.files[i]);
  }

  /** With an injective digest, the manifest pins every byte of every component file. */
  lemma ManifestPinsFiles(g: Given, a: Bundle, b: Bundle, p: Path)
    requires Exact(g, a) && Exact(g, b) && a.manifest == b.manifest
    requires forall x, y :: g.digest(x) == g.digest(y) ==> x == y
    requires p.component in ComponentsOf(a.manifest).value && p in a.files
    ensures p in b.files && a.files[p] == b.files[p]
  {
    var components := ComponentsOf(a.manifest).value;
    var i := RecordFor(g, a, components, p);
    assert RecordHolds(g, b.files, components, b.manifest.bounds.file, b.manifest.files[i]);
  }

  /** Two bundles that differ at most outside their components. */
  ghost predicate SameComponents(a: Bundle, b: Bundle) {
    && a == b.(files := a.files) && ComponentsOf(a.manifest).Some?
    && forall p: Path :: p.component in ComponentsOf(a.manifest).value ==>
         (p in a.files <==> p in b.files) && (p in a.files ==> a.files[p] == b.files[p])
  }

  lemma SameTrees(a: map<Path, Bytes>, b: map<Path, Bytes>, c: Component)
    requires forall p: Path :: p.component == c ==> (p in a <==> p in b) && (p in a ==> a[p] == b[p])
    ensures TreeOf(a, c) == TreeOf(b, c)
  {
    forall name ensures name in TreeOf(a, c) <==> name in TreeOf(b, c)
                ensures name in TreeOf(a, c) ==> TreeOf(a, c)[name] == TreeOf(b, c)[name]
    {
      TreeAt(a, c, name);
      TreeAt(b, c, name);
    }
  }

  lemma TreeAt(files: map<Path, Bytes>, c: Component, name: Name)
    ensures name in TreeOf(files, c) <==> Path(c, name) in files
    ensures name in TreeOf(files, c) ==> TreeOf(files, c)[name] == files[Path(c, name)]
  {
    if name in TreeOf(files, c) {
      var p :| p in files && p.component == c && p.name == name;
      assert p == Path(c, name);
    }
  }

  /** Verification looks at nothing but the components, so other entries are never noticed. */
  lemma VerificationIsLocal(g: Given, a: Bundle, b: Bundle)
    requires SameComponents(a, b) && Exact(g, a)
    ensures Exact(g, b)
  {
    var components := ComponentsOf(a.manifest).value;
    assert Actual(a.files, components) == Actual(b.files, components);
    forall i | 0 <= i < |components| ensures ComponentHolds(g, b.files, components[i], b.manifest.bounds.file) {
      SameTrees(a.files, b.files, components[i]);
      assert ComponentHolds(g, a.files, components[i], a.manifest.bounds.file);
    }
    forall i | 0 <= i < |b.manifest.files|
      ensures RecordHolds(g, b.files, components, b.manifest.bounds.file, b.manifest.files[i])
    {
      assert RecordHolds(g, a.files, components, a.manifest.bounds.file, a.manifest.files[i]);
    }
  }

  /** Whatever lies beside the components, a verified bundle stays verified. */
  lemma StrayEntriesAreIgnored(g: Given, b: Bundle, entry: string, name: Name, content: Bytes)
    requires Exact(g, b)
    ensures Exact(g, b.(files := b.files[Path(Elsewhere(entry), name) := content]))
  {
    var stray := b.(files := b.files[Path(Elsewhere(entry), name) := content]);
    assert Elsewhere(entry) !in ComponentsOf(b.manifest).value;
    assert SameComponents(b, stray);
    VerificationIsLocal(g, b, stray);
  }

  function Portion(files: map<Path, Bytes>, components: seq<Component>): map<Path, Bytes> {
    map p | p in files && p.component in components :: files[p]
  }

  /** Copy the component files, directory by directory. */
  method CopyComponents(files: map<Path, Bytes>, components: seq<Component>) returns (copied: map<Path, Bytes>)
    ensures copied == Portion(files, components)
  {
    copied := map[];
    for i := 0 to |components|
      invariant copied == Portion(files, components[..i])
    {
      assert components[..i + 1] == components[..i] + [components[i]];
      copied := copied + map p | p in files && p.component == components[i] :: files[p];
    }
    assert components[..|components|] == components;
  }

  /** Import exactly what verifies: the manifest files, every component file with every byte, and
      the result verifies again. */
  method ImportBundle(g: Given, b: Bundle, taken: bool) returns (r: Result<Bundle, ()>)
    ensures r.Ok? <==> Exact(g, b) && !taken
    ensures r.Ok? ==> Exact(g, r.value) && SameComponents(r.value, b)
                      && forall p :: p in r.value.files ==>
                           p in b.files && r.value.files[p] == b.files[p] && p.component in ComponentsOf(b.manifest).value
  {
    var verified := VerifyBundle(g, b);
    if verified.Err? || taken { return Err(()); }
    var files := CopyComponents(b.files, ComponentsOf(verified.value).value);
    var imported := Bundle(verified.value.bundle, files, b.sums, b.manifest, b.checksum);
    assert SameComponents(b, imported);
    VerificationIsLocal(g, b, imported);
    var again := VerifyBundle(g, imported);
    r := if again.Ok? then Ok(imported) else Err(());
  }

  /** The component directories that a format stands for. */
  ghost predicate IsLayout(m: Manifest, components: seq<Component>) {
    match m.format
    case Plain => components == [HostedController, OperatorState, ManagedData]
    case Management => components == [HostedController, OperatorState, ManagedData, ManagementBroker]
    case Keys =>
      && m.components == Some(components)
      && (components == [HostedController, OperatorState, ManagedData]
          || components == [HostedController, OperatorState, ManagedData, ManagementBroker])
  }

  /** A verified bundle, item by item: its seal, its name, its layout and its limits. */
  lemma VerifiedHead(g: Given, b: Bundle)
    requires Exact(g, b)
    ensures ComponentsOf(b.manifest).Some? && IsLayout(b.manifest, ComponentsOf(b.manifest).value)
    ensures var m := b.manifest;
            && b.checksum == g.seal(m) && m.bundle == b.name
            && 1073741824 <= m.bounds.file <= m.bounds.total <= 8796093022208 && m.bounds.file <= 4398046511104
            && 1 <= |m.files| <= 64 * |ComponentsOf(m).value| && m.total == Total(m.files) <= m.bounds.total
  {
    HeadedMeans(g, b);
    InventoriedTotal(g, b, ComponentsOf(b.manifest).value);
  }

  lemma HeadedMeans(g: Given, b: Bundle)
    requires Headed(g, b)
    ensures ComponentsOf(b.manifest).Some? && IsLayout(b.manifest, ComponentsOf(b.manifest).value)
    ensures var m := b.manifest;
            && b.checksum == g.seal(m) && m.bundle == b.name
            && 1073741824 <= m.bounds.file <= m.bounds.total <= 8796093022208 && m.bounds.file <= 4398046511104
            && 1 <= |m.files| <= 64 * |ComponentsOf(m).value|
  {
    LayoutOf(b.manifest);
  }

  lemma LayoutOf(m: Manifest)
    ensures ComponentsOf(m).Some? ==> IsLayout(m, ComponentsOf(m).value)
  {
  }

  lemma InventoriedTotal(g: Given, b: Bundle, components: seq<Component>)
    requires Inventoried(g, b, components)
    ensures b.manifest.total == Total(b.manifest.files) <= b.manifest.bounds.total
  {
  }

  /** Every component file is safely named, within its limit, and recorded with its size and digest. */
  lemma VerifiedFile(g: Given, b: Bundle, p: Path)
    requires Exact(g, b) && p in b.files && p.component in ComponentsOf(b.manifest).value
    ensures g.safe(p.name) && 0 < |b.files[p]| <= b.manifest.bounds.file
    ensures exists i :: 0 <= i < |b.manifest.files| && b.manifest.files[i] == Record(p, |b.files[p]|, g.digest(b.files[p]))
  {
    var components := ComponentsOf(b.manifest).value;
    var i := RecordFor(g, b, components, p);
    assert RecordHolds(g, b.files, components, b.manifest.bounds.file, b.manifest.files[i]);
  }

  /** Every record is of a component file, once, and is a line of the checksum list. */
  lemma VerifiedRecord(g: Given, b: Bundle, i: nat)
    requires Exact(g, b) && i < |b.manifest.files|
    ensures var r := b.manifest.files[i];
            && r.path in b.files && r.path.component in ComponentsOf(b.manifest).value
            && r.bytes == |b.files[r.path]| && r.sha256 == g.digest(b.files[r.path])
            && |b.sums| == |b.manifest.files| && b.sums[i] == (r.sha256, r.path)
            && forall k :: 0 <= k < |b.manifest.files| && k != i ==> b.manifest.files[k].path != r.path
  {
    assert RecordHolds(g, b.files, ComponentsOf(b.manifest).value, b.manifest.bounds.file, b.manifest.files[i]);
    forall k | 0 <= k < |b.manifest.files| && k != i ensures b.manifest.files[k].path != b.manifest.files[i].path {
      if k < i { assert b.manifest.files[k].path != b.manifest.files[i].path; }
    }
  }

  /** Every component directory holds from one to 64 files and passes its own validation; a bundle
      with keys holds a key archive. */
  lemma VerifiedComponent(g: Given, b: Bundle, c: Component)
    requires Exact(g, b) && c in ComponentsOf(b.manifest).value
    ensures 0 < |TreeOf(b.files, c).Keys| <= 64 && g.sound(c, TreeOf(b.files, c))
    ensures b.manifest.format == Keys ==> exists p :: p in b.files && p.component == HostedController && g.isKeyArchive(p.name)
  {
    var components := ComponentsOf(b.manifest).value;
    var i :| 0 <= i < |components| && components[i] == c;
    assert ComponentHolds(g, b.files, components[i], b.manifest.bounds.file);
  }

  /** The total is the sum of the recorded sizes. */
  lemma {:induction false} TotalIsSum(a: seq<Record>, b: seq<Record>, r: Record)
    ensures Total([]) == 0 && Total([r]) == r.bytes && Total(a + b) == Total(a) + Total(b)
    decreases |b|
  {
    assert [r][..0] == [];
    if b == [] {
      assert a + b == a;
    } else {
      TotalIsSum(a, b[..|b| - 1], r);
      assert (a + b)[..|a + b| - 1] == a + b[..|b| - 1];
    }
  }
}
