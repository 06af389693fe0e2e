/** Exporting a recovery bundle from the selected evidence of each component. */
module RecoveryExport {
  import opened Options
  import opened Sorting
  import opened RecoveryBundle

  /** What a selection promises: distinct, safely named files of the directory, and not too many. */
  ghost predicate Selecting(g: Given) {
    forall c: Component, root: Tree :: g.select(c, root).Some? ==>
      var names := g.select(c, root).value;
      NoRepeats(names) && 0 < |names| <= MAXIMUM_FILES && forall name :: name in names ==> name in root && g.safe(name)
  }

  function Chosen(root: Tree, names: seq<Name>): Tree
    requires forall name :: name in names ==> name in root
  {
    map name | name in names :: root[name]
  }

  /** The files of one component as they appear in the bundle. */
  function Placed(c: Component, t: Tree): map<Path, Bytes> { map name | name in t :: Path(c, name) := t[name] }

  /** The records name every file once, with its size and digest. */
  ghost predicate Tracks(g: Given, records: seq<Record>, files: map<Path, Bytes>) {
    && NoTwice(records) && Paths(records) == files.Keys
    && forall i :: 0 <= i < |records| ==> Tracked(g, files, records[i])
  }

  predicate Tracked(g: Given, files: map<Path, Bytes>, r: Record) {
    r.path in files && r.bytes == |files[r.path]| && r.sha256 == g.digest(files[r.path])
  }

  lemma {:induction false} TotalAdds(a: seq<Record>, b: seq<Record>)
    ensures Total(a + b) == Total(a) + Total(b)
  {
    if b == [] {
      assert a + b == a;
    } else {
      TotalAdds(a, b[..|b| - 1]);
      assert (a + b)[..|a + b| - 1] == a + b[..|b| - 1];
    }
  }

  lemma TracksJoin(g: Given, a: seq<Record>, x: map<Path, Bytes>, b: seq<Record>, y: map<Path, Bytes>)
    requires Tracks(g, a, x) && Tracks(g, b, y) && x.Keys !! y.Keys
    ensures Tracks(g, a + b, x + y)
  {
    forall i, k | 0 <= i < k < |a + b| ensures (a + b)[i].path != (a + b)[k].path {
      if i < |a| <= k { assert a[i].path in x && Tracked(g, y, b[k - |a|]); }
    }
    forall i | 0 <= i < |a + b| ensures Tracked(g, x + y, (a + b)[i]) {
      if i < |a| { assert Tracked(g, x, a[i]); } else { assert Tracked(g, y, b[i - |a|]); }
    }
    assert Paths(a + b) == Paths(a) + Paths(b);
  }

  function RecordAt(g: Given, c: Component, t: Tree, name: Name): Record
    requires name in t
  {
    Record(Path(c, name), |t[name]|, g.digest(t[name]))
  }

  function RecordsOf(g: Given, c: Component, t: Tree, names: seq<Name>): seq<Record>
    requires forall name :: name in names ==> name in t
  {
    seq(|names|, i requires 0 <= i < |names| => RecordAt(g, c, t, names[i]))
  }

  lemma RecordsTrack(g: Given, c: Component, t: Tree, names: seq<Name>)
    requires NoRepeats(names) && forall name :: name in names <==> name in t
    ensures Tracks(g, RecordsOf(g, c, t, names), Placed(c, t))
  {
    var records, files := RecordsOf(g, c, t, names), Placed(c, t);
    forall p | p in files ensures p in Paths(records) {
      var i :| 0 <= i < |names| && names[i] == p.name;
      assert records[i].path == p;
    }
  }

  lemma {:induction false} RecordsWeigh(g: Given, c: Component, t: Tree, names: seq<Name>)
    requires forall name :: name in names ==> name in t
    ensures Total(RecordsOf(g, c, t, names)) == Weight(t, names)
  {
    if names != [] {
      var rest := names[..|names| - 1];
      RecordsWeigh(g, c, t, rest);
      assert RecordsOf(g, c, t, names)[..|names| - 1] == RecordsOf(g, c, t, rest);
    }
  }

  predicate Fit(t: Tree, names: seq<Name>, limit: nat)
    requires forall name :: name in names ==> name in t
  {
    forall i :: 0 <= i < |names| ==> names[i] in t && 0 < |t[names[i]]| <= limit
  }

  /** What one more file adds. */
  lemma OneMoreFile(g: Given, c: Component, t: Tree, names: seq<Name>, i: nat)
    requires (forall name :: name in names ==> name in t) && i < |names|
    ensures var front, more := names[..i], names[..i + 1];
            && (forall name :: name in front ==> name in t) && (forall name :: name in more ==> name in t) && names[i] in t
            && Chosen(t, more) == Chosen(t, front)[names[i] := t[names[i]]]
            && RecordsOf(g, c, t, more) == RecordsOf(g, c, t, front) + [RecordAt(g, c, t, names[i])]
            && Weight(t, more) == Weight(t, front) + |t[names[i]]|
  {
    assert names[..i + 1] == names[..i] + [names[i]] && names[..i + 1][..i] == names[..i] && names[i] in names;
  }

  lemma FitMore(t: Tree, names: seq<Name>, i: nat, limit: nat)
    requires (forall name :: name in names ==> name in t) && i < |names|
    ensures names[i] in t && (forall name :: name in names[..i] ==> name in t) && (forall name :: name in names[..i + 1] ==> name in t)
    ensures Fit(t, names[..i + 1], limit) <==> Fit(t, names[..i], limit) && 0 < |t[names[i]]| <= limit
    ensures Fit(t, names, limit) ==> Fit(t, names[..i + 1], limit)
  {
    assert names[i] in names && names[..i + 1] == names[..i] + [names[i]];
    if Fit(t, names[..i + 1], limit) {
      forall k | 0 <= k < i ensures 0 < |t[names[..i][k]]| <= limit {
        assert names[..i][k] == names[..i + 1][k];
      }
      assert names[i] == names[..i + 1][i];
    }
  }

  lemma AllChosen(t: Tree, names: seq<Name>, limit: nat)
    requires forall name :: name in names <==> name in t
    ensures Chosen(t, names) == t && (Fit(t, names, limit) <==> SizesFit(t, limit))
  {
    if Fit(t, names, limit) {
      forall name | name in t ensures 0 < |t[name]| <= limit {
        var i :| 0 <= i < |names| && names[i] == name;
      }
    } else {
      var i :| 0 <= i < |names| && !(0 < |t[names[i]]| <= limit);
      assert names[i] in names;
    }
  }

  /** Copy the chosen files of one component, bounding each file and the running total. */
  method CopyComponent(g: Given, c: Component, t: Tree, names: seq<Name>, bounds: Bounds, before: nat)
      returns (r: Option<(Tree, seq<Record>)>)
    requires (forall name :: name in names ==> name in t) && before <= bounds.total
    ensures r.Some? <==> Fit(t, names, bounds.file) && before + Weight(t, names) <= bounds.total
    ensures r.Some? ==> r.value == (Chosen(t, names), RecordsOf(g, c, t, names))
  {
    var copied: Tree, records: seq<Record>, total := map[], [], before;
    for i := 0 to |names|
      invariant CopiedSo(g, c, t, names[..i], bounds, before, copied, records, total)
    {
      var name := names[i];
      OneMoreFile(g, c, t, names, i);
      FitMore(t, names, i, bounds.file);
      var content := t[name];
      if !(0 < |content| <= bounds.file) { return None; }
      total := total + |content|;
      if total > bounds.total {
        WeightGrows(t, names, i + 1);
        return None;
      }
      copied, records := copied[name := content], records + [Record(Path(c, name), |content|, g.digest(content))];
    }
    assert names[..|names|] == names;
    r := Some((copied, records));
  }

  /** What is copied of the first files. */
  ghost predicate CopiedSo(g: Given, c: Component, t: Tree, names: seq<Name>, bounds: Bounds, before: nat,
                           copied: Tree, records: seq<Record>, total: int) {
    && (forall name :: name in names ==> name in t) && Fit(t, names, bounds.file)
    && copied == Chosen(t, names) && records == RecordsOf(g, c, t, names)
    && total == before + Weight(t, names) <= bounds.total
  }

  function Weight(t: Tree, names: seq<Name>): nat
    requires forall name :: name in names ==> name in t
  {
    if names == [] then 0
    else
      var last := names[|names| - 1];
      assert last in names;
      Weight(t, names[..|names| - 1]) + |t[last]|
  }

  lemma {:induction false} WeightGrows(t: Tree, names: seq<Name>, n: nat)
    requires (forall name :: name in names ==> name in t) && n <= |names|
    ensures Weight(t, names[..n]) <= Weight(t, names)
    decreases |names| - n
  {
    if n == |names| {
      assert names[..n] == names;
    } else {
      WeightGrows(t, names, n + 1);
      assert names[..n + 1][..n] == names[..n];
    }
  }

  type Sources = map<Component, Tree>

  /** The files an export takes from one component. */
  function Evidence(g: Given, sources: Sources, c: Component): Tree {
    if c in sources && g.select(c, sources[c]).Some?
       && forall name :: name in g.select(c, sources[c]).value ==> name in sources[c]
    then Chosen(sources[c], g.select(c, sources[c]).value) else map[]
  }

  /** The component has selected evidence that is sound and within the file limit. */
  predicate Ready(g: Given, sources: Sources, c: Component, limit: nat) {
    && c in sources && g.select(c, sources[c]).Some?
    && SizesFit(Evidence(g, sources, c), limit) && g.sound(c, Evidence(g, sources, c))
  }

  /** The bytes an export takes from one component. */
  function ComponentLoad(g: Given, sources: Sources, c: Component): nat {
    if c in sources && g.select(c, sources[c]).Some?
       && forall name :: name in g.select(c, sources[c]).value ==> name in Evidence(g, sources, c)
    then Weight(Evidence(g, sources, c), g.select(c, sources[c]).value) else 0
  }

  function Load(g: Given, sources: Sources, components: seq<Component>): nat {
    if components == [] then 0
    else Load(g, sources, components[..|components| - 1]) + ComponentLoad(g, sources, components[|components| - 1])
  }

  /** Ready means: something is selected, every selected file is nonempty and within the limit, and the
      selected files together are sound. */
  lemma ReadyMeans(g: Given, sources: Sources, c: Component, limit: nat)
    requires Selecting(g)
    ensures Ready(g, sources, c, limit) <==>
            && c in sources && g.select(c, sources[c]).Some?
            && var root, names := sources[c], g.select(c, sources[c]).value;
               && (forall i :: 0 <= i < |names| ==> names[i] in root && 0 < |root[names[i]]| <= limit)
               && g.sound(c, map name | name in names && name in root :: root[name])
  {
    if c in sources && g.select(c, sources[c]).Some? {
      var root, names := sources[c], g.select(c, sources[c]).value;
      var chosen := Evidence(g, sources, c);
      assert chosen == map name | name in names && name in root :: root[name];
      AllChosen(chosen, names, limit);
      assert forall i :: 0 <= i < |names| ==> names[i] in names && chosen[names[i]] == root[names[i]];
    }
  }

  /** The load is the sum of the sizes of the selected files. */
  lemma WeightIsSum(t: Tree, names: seq<Name>, name: Name)
    requires name in t && forall n :: n in names ==> n in t
    ensures Weight(t, []) == 0 && Weight(t, names + [name]) == Weight(t, names) + |t[name]|
  {
    assert (names + [name])[..|names|] == names;
  }

  lemma {:induction false} LoadGrows(g: Given, sources: Sources, components: seq<Component>, n: nat)
    requires n <= |components|
    ensures Load(g, sources, components[..n]) <= Load(g, sources, components)
    decreases |components| - n
  {
    if n == |components| {
      assert components[..n] == components;
    } else {
      LoadGrows(g, sources, components, n + 1);
      assert components[..n + 1][..n] == components[..n];
    }
  }

  /** Exactly when an export succeeds. */
  predicate Exportable(g: Given, sources: Sources, components: seq<Component>, bounds: Bounds) {
    && (forall i :: 0 <= i < |components| ==> Ready(g, sources, components[i], bounds.file))
    && Load(g, sources, components) <= bounds.total
  }

  /** The files are exactly the evidence of these components. */
  ghost predicate Holds(g: Given, sources: Sources, files: map<Path, Bytes>, components: seq<Component>) {
    forall p: Path :: Holding(g, sources, files, components, p)
  }

  predicate Holding(g: Given, sources: Sources, files: map<Path, Bytes>, components: seq<Component>, p: Path) {
    && (p in files <==> p.component in components && p.name in Evidence(g, sources, p.component))
    && (p in files ==> files[p] == Evidence(g, sources, p.component)[p.name])
  }

  lemma PlacedAt(c: Component, t: Tree, p: Path)
    ensures p in Placed(c, t) <==> p.component == c && p.name in t
    ensures p in Placed(c, t) ==> Placed(c, t)[p] == t[p.name]
  {
    assert p == Path(p.component, p.name);
  }

  lemma HoldsMore(g: Given, sources: Sources, files: map<Path, Bytes>, components: seq<Component>, c: Component)
    requires Holds(g, sources, files, components) && c !in components
    ensures Holds(g, sources, files + Placed(c, Evidence(g, sources, c)), components + [c])
    ensures files.Keys !! Placed(c, Evidence(g, sources, c)).Keys
  {
    var placed := Placed(c, Evidence(g, sources, c));
    forall p: Path
      ensures Holding(g, sources, files + placed, components + [c], p) && !(p in files && p in placed)
    {
      assert Holding(g, sources, files, components, p);
      PlacedAt(c, Evidence(g, sources, c), p);
    }
  }

  lemma HeldTree(g: Given, sources: Sources, files: map<Path, Bytes>, components: seq<Component>, c: Component)
    requires Holds(g, sources, files, components) && c in components
    ensures TreeOf(files, c) == Evidence(g, sources, c)
  {
    forall name ensures name in TreeOf(files, c) <==> name in Evidence(g, sources, c)
                ensures name in TreeOf(files, c) ==> TreeOf(files, c)[name] == Evidence(g, sources, c)[name]
    {
      TreeAt(files, c, name);
      assert Holding(g, sources, files, components, Path(c, name));
    }
  }

  /** Select, validate and copy one component. */
  method GatherOne(g: Given, sources: Sources, c: Component, bounds: Bounds, before: nat) returns (r: Option<(Tree, seq<Record>)>)
    requires Selecting(g) && before <= bounds.total
    ensures r.Some? <==> Ready(g, sources, c, bounds.file) && before + ComponentLoad(g, sources, c) <= bounds.total
    ensures r.Some? ==> && r.value.0 == Evidence(g, sources, c) && Tracks(g, r.value.1, Placed(c, Evidence(g, sources, c)))
                        && 0 < |r.value.1| <= MAXIMUM_FILES && Total(r.value.1) == ComponentLoad(g, sources, c)
  {
    if c !in sources || g.select(c, sources[c]).None? { return None; }
    var names := g.select(c, sources[c]).value;
    var t := Chosen(sources[c], names);
    assert t == Evidence(g, sources, c);
    if !g.sound(c, t) { return None; }
    r := CopyComponent(g, c, t, names, bounds, before);
    AllChosen(t, names, bounds.file);
    RecordsTrack(g, c, t, names);
    RecordsWeigh(g, c, t, names);
  }

  /** Gather all components in order; the total is bounded as it grows. */
  method Gather(g: Given, sources: Sources, components: seq<Component>, bounds: Bounds)
      returns (r: Option<(map<Path, Bytes>, seq<Record>)>)
    requires Selecting(g) && NoRepeats(components) && components != []
    ensures r.Some? <==> Exportable(g, sources, components, bounds)
    ensures r.Some? ==> Gathered(g, sources, components, bounds, r.value.0, r.value.1)
  {
    var files: map<Path, Bytes>, records: seq<Record> := map[], [];
    for i := 0 to |components|
      invariant Front(g, sources, components[..i], bounds, files, records)
      invariant forall k :: 0 <= k < i ==> Ready(g, sources, components[k], bounds.file)
    {
      var c := components[i];
      assert components[..i + 1] == components[..i] + [c];
      LoadGrows(g, sources, components, i + 1);
      LoadMore(g, sources, components[..i], c);
      var one := GatherOne(g, sources, c, bounds, Total(records));
      if one.None? { return None; }
      FrontMore(g, sources, components[..i], bounds, files, records, c, one.value.1);
      files, records := files + Placed(c, one.value.0), records + one.value.1;
    }
    assert components[..|components|] == components;
    r := Some((files, records));
  }

  /** What is gathered of the first components. */
  ghost predicate Front(g: Given, sources: Sources, components: seq<Component>, bounds: Bounds,
                        files: map<Path, Bytes>, records: seq<Record>) {
    && Holds(g, sources, files, components) && Tracks(g, records, files)
    && |components| <= |records| <= |components| * MAXIMUM_FILES
    && Total(records) == Load(g, sources, components) <= bounds.total
  }

  lemma LoadMore(g: Given, sources: Sources, components: seq<Component>, c: Component)
    ensures Load(g, sources, components + [c]) == Load(g, sources, components) + ComponentLoad(g, sources, c)
  {
    assert (components + [c])[..|components|] == components;
  }

  lemma FrontMore(g: Given, sources: Sources, components: seq<Component>, bounds: Bounds,
                  files: map<Path, Bytes>, records: seq<Record>, c: Component, more: seq<Record>)
    requires Front(g, sources, components, bounds, files, records) && c !in components
    requires Tracks(g, more, Placed(c, Evidence(g, sources, c))) && 0 < |more| <= MAXIMUM_FILES
    requires Total(more) == ComponentLoad(g, sources, c) && Total(records) + Total(more) <= bounds.total
    ensures Front(g, sources, components + [c], bounds, files + Placed(c, Evidence(g, sources, c)), records + more)
  {
    HoldsMore(g, sources, files, components, c);
    TracksJoin(g, records, files, more, Placed(c, Evidence(g, sources, c)));
    TotalAdds(records, more);
    LoadMore(g, sources, components, c);
  }

  function ComponentsFor(sources: Sources): Option<seq<Component>> {
    if sources.Keys == {HostedController, OperatorState, ManagedData} then Some(THREE)
    else if sources.Keys == {HostedController, OperatorState, ManagedData, ManagementBroker} then Some(FOUR)
    else None
  }

  predicate IncludesKeys(g: Given, sources: Sources) {
    exists name :: name in Evidence(g, sources, HostedController) && g.isKeyArchive(name)
  }

  function FormatFor(g: Given, sources: Sources): Format {
    if IncludesKeys(g, sources) then Keys else if ManagementBroker in sources then Management else Plain
  }

  function ManifestFor(g: Given, sources: Sources, components: seq<Component>, name: string, deployment: string, createdAt: string,
                       records: seq<Record>, bounds: Bounds): Manifest {
    Manifest(FormatFor(g, sources), name, deployment, createdAt, records, bounds, Total(records),
             if IncludesKeys(g, sources) then Some(components) else None)
  }

  /** Everything known once all components are gathered. */
  ghost predicate Gathered(g: Given, sources: Sources, components: seq<Component>, bounds: Bounds,
                           files: map<Path, Bytes>, records: seq<Record>) {
    && Exportable(g, sources, components, bounds) && Holds(g, sources, files, components) && Tracks(g, records, files)
    && 0 < |records| <= |components| * MAXIMUM_FILES && Total(records) == Load(g, sources, components)
  }

  lemma GatheredIsPopulated(g: Given, sources: Sources, components: seq<Component>, bounds: Bounds, records: seq<Record>, b: Bundle)
    requires Selecting(g) && ComponentsFor(sources) == Some(components)
    requires Gathered(g, sources, components, bounds, b.files, records)
    requires b.manifest.bounds == bounds && b.manifest.format == FormatFor(g, sources)
    ensures Populated(g, b, components)
  {
    forall i | 0 <= i < |components| ensures ComponentHolds(g, b.files, components[i], bounds.file) {
      ReadyHolds(g, sources, b.files, components, components[i], bounds.file);
    }
    if b.manifest.format == Keys {
      var name :| name in Evidence(g, sources, HostedController) && g.isKeyArchive(name);
      var p := Path(HostedController, name);
      assert components[0] == HostedController;
      assert Holding(g, sources, b.files, components, p);
      assert p in Actual(b.files, components);
    }
  }

  lemma GatheredIsInventoried(g: Given, sources: Sources, components: seq<Component>, bounds: Bounds, b: Bundle)
    requires Selecting(g) && Gathered(g, sources, components, bounds, b.files, b.manifest.files)
    requires b.manifest.bounds == bounds && b.manifest.total == Total(b.manifest.files) && b.sums == Sums(b.manifest.files)
    ensures Inventoried(g, b, components)
  {
    AllInside(g, sources, b.files, components);
    forall i | 0 <= i < |b.manifest.files| ensures RecordHolds(g, b.files, components, bounds.file, b.manifest.files[i]) {
      assert Tracked(g, b.files, b.manifest.files[i]);
      RecordIsSafe(g, sources, b.files, components, bounds.file, b.manifest.files[i].path);
    }
  }

  lemma FormatFits(g: Given, sources: Sources, components: seq<Component>, m: Manifest)
    requires ComponentsFor(sources) == Some(components) && m.format == FormatFor(g, sources)
    requires m.components == if IncludesKeys(g, sources) then Some(components) else None
    ensures ComponentsOf(m) == Some(components)
  {
  }

  /** What is gathered from ready sources makes a bundle that verifies. */
  lemma GatheredIsExact(g: Given, sources: Sources, components: seq<Component>, bounds: Bounds, b: Bundle)
    requires Selecting(g) && ValidBounds(bounds) && ComponentsFor(sources) == Some(components)
    requires Gathered(g, sources, components, bounds, b.files, b.manifest.files)
    requires b.manifest == ManifestFor(g, sources, components, b.name, b.manifest.deployment, b.manifest.createdAt, b.manifest.files, bounds)
    requires b.sums == Sums(b.manifest.files) && b.checksum == g.seal(b.manifest)
    ensures Exact(g, b) && ComponentsOf(b.manifest) == Some(components)
  {
    FormatFits(g, sources, components, b.manifest);
    GatheredIsPopulated(g, sources, components, bounds, b.manifest.files, b);
    GatheredIsInventoried(g, sources, components, bounds, b);
  }

  lemma AllInside(g: Given, sources: Sources, files: map<Path, Bytes>, components: seq<Component>)
    requires Holds(g, sources, files, components)
    ensures Actual(files, components) == files.Keys
  {
    forall p | p in files ensures p.component in components {
      assert Holding(g, sources, files, components, p);
    }
  }

  lemma RecordIsSafe(g: Given, sources: Sources, files: map<Path, Bytes>, components: seq<Component>, limit: nat, p: Path)
    requires Selecting(g) && Holds(g, sources, files, components) && p in files
    requires forall i :: 0 <= i < |components| ==> Ready(g, sources, components[i], limit)
    ensures p.component in components && g.safe(p.name) && 0 < |files[p]| <= limit
  {
    assert Holding(g, sources, files, components, p);
    var i :| 0 <= i < |components| && components[i] == p.component;
    assert Ready(g, sources, components[i], limit);
  }

  lemma ReadyHolds(g: Given, sources: Sources, files: map<Path, Bytes>, components: seq<Component>, c: Component, limit: nat)
    requires Selecting(g) && Holds(g, sources, files, components) && c in components && Ready(g, sources, c, limit)
    ensures ComponentHolds(g, files, c, limit)
  {
    HeldTree(g, sources, files, components, c);
    var names := g.select(c, sources[c]).value;
    Cardinality(names);
    assert Evidence(g, sources, c).Keys == set name | name in names;
  }

  /** Copy the selected evidence into a new bundle and verify it before reporting success: this
      succeeds exactly on ready sources within the bounds, so the final verification never fails. */
  method ExportBundle(g: Given, sources: Sources, name: string, deployment: string, createdAt: string, bounds: Bounds, taken: bool)
      returns (r: Result<Bundle, ()>)
    requires Selecting(g) && ValidBounds(bounds)
    ensures r.Ok? <==> && ComponentsFor(sources).Some? && g.safe(Text(deployment)) && !taken
                       && Exportable(g, sources, ComponentsFor(sources).value, bounds)
    ensures r.Ok? ==> && Exact(g, r.value) && Holds(g, sources, r.value.files, ComponentsFor(sources).value)
                      && r.value.manifest.format == FormatFor(g, sources)
                      && ComponentsOf(r.value.manifest) == ComponentsFor(sources)
    ensures r.Ok? ==> && r.value.name == name && r.value.manifest.bundle == name && r.value.manifest.deployment == deployment
                      && r.value.manifest.createdAt == createdAt && r.value.manifest.bounds == bounds
    ensures r.Ok? ==> && (forall c :: c in sources <==> c in ComponentsOf(r.value.manifest).value)
                      && IsLayout(r.value.manifest, ComponentsOf(r.value.manifest).value)
    ensures r.Ok? ==> (r.value.manifest.format == Keys <==>
                        exists name :: name in Evidence(g, sources, HostedController) && g.isKeyArchive(name))
  {
    if ComponentsFor(sources).None? || !g.safe(Text(deployment)) || taken { return Err(()); }
    var components := ComponentsFor(sources).value;
    var gathered := Gather(g, sources, components, bounds);
    if gathered.None? { return Err(()); }
    var (files, records) := gathered.value;
    var m := ManifestFor(g, sources, components, name, deployment, createdAt, records, bounds);
    var b := Bundle(name, files, Sums(records), m, g.seal(m));
    GatheredIsExact(g, sources, components, bounds, b);
    LayoutOf(m);
    var verified := VerifyBundle(g, b);
    if verified != Ok(m) { return Err(()); }
    r := Ok(b);
  }

  /** Exporting and importing gives back every selected byte of every component. */
  method RoundTrip(g: Given, sources: Sources, name: string, deployment: string, createdAt: string, bounds: Bounds)
      returns (r: Result<Bundle, ()>)
    requires Selecting(g) && ValidBounds(bounds) && ComponentsFor(sources).Some? && g.safe(Text(deployment))
    requires Exportable(g, sources, ComponentsFor(sources).value, bounds)
    ensures r.Ok? && Exact(g, r.value)
    ensures forall p: Path :: p.component in ComponentsFor(sources).value ==>
              Holding(g, sources, r.value.files, ComponentsFor(sources).value, p)
  {
    var exported := ExportBundle(g, sources, name, deployment, createdAt, bounds, false);
    r := ImportBundle(g, exported.value, false);
    forall p: Path | p.component in ComponentsFor(sources).value
      ensures Holding(g, sources, r.value.files, ComponentsFor(sources).value, p)
    {
      assert Holding(g, sources, exported.value.files, ComponentsFor(sources).value, p);
    }
  }
}
