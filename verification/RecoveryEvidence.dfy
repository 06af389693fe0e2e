/** Which files an export selects from a component directory, and what makes them sound. */
module RecoveryEvidence {
  import opened Options
  import opened Sorting
  import opened RecoveryBundle
  import opened RecoveryExport

  /** The archives whose marker files are read. */
  datatype Kind = Controller | Operator | Broker | SourceKeys

  /** What a marker file of the right format says. */
  datatype Header = Header(name: Name, sha256: nat, keys: Option<int>)

  /** Readers of file contents, taken as given. `markerOf` checks the format of its kind, `keysOf`
      only that the text is well formed; `sorted` lists names in order. */
  datatype Readers = Readers(
    digest: Bytes -> nat, isAge: Bytes -> bool,
    sumOf: Bytes -> Option<(nat, Name)>, sumsOf: Bytes -> seq<(nat, Name)>,
    markerOf: (Kind, Bytes) -> Option<Header>, keysOf: Bytes -> Option<Option<int>>,
    factsOf: Bytes -> Option<map<string, string>>,
    sorted: set<Name> -> seq<Name>, safe: Name -> bool)

  /** The two readers of a marker agree, sorting keeps the names, and the names of one archive are
      safe together. */
  ghost predicate Consistent(f: Readers) {
    && (forall b :: f.markerOf(Controller, b).Some? ==> f.keysOf(b) == Some(f.markerOf(Controller, b).value.keys))
    && (forall s :: NoRepeats(f.sorted(s)) && forall name :: name in f.sorted(s) <==> name in s)
    && (forall keys, stem, part :: f.safe(Archive(keys, stem, Marker)) ==> f.safe(Archive(keys, stem, part)))
    && (forall stem, part :: f.safe(Archive(true, stem, part)))
  }

  function Trio(keys: bool, stem: int): seq<Name> {
    [Archive(keys, stem, Ciphertext), Archive(keys, stem, Checksum), Archive(keys, stem, Marker)]
  }

  predicate HoldsTrio(t: Tree, keys: bool, stem: int) {
    Archive(keys, stem, Ciphertext) in t && Archive(keys, stem, Checksum) in t && Archive(keys, stem, Marker) in t
  }

  predicate Holds(t: Tree, names: seq<Name>) { forall i :: 0 <= i < |names| ==> names[i] in t }

  function KindOf(c: Component): Kind {
    if c == HostedController then Controller else if c == OperatorState then Operator else Broker
  }

  /** Ciphertext, checksum and marker belong together. */
  predicate SoundTrio(f: Readers, kind: Kind, keys: bool, stem: int, t: Tree) {
    && HoldsTrio(t, keys, stem)
    && var name := Archive(keys, stem, Ciphertext);
       var digest := f.digest(t[name]);
       && f.isAge(t[name]) && f.sumOf(t[Archive(keys, stem, Checksum)]) == Some((digest, name))
       && var header := f.markerOf(kind, t[Archive(keys, stem, Marker)]);
          header.Some? && header.value.name == name && header.value.sha256 == digest
  }

  /** The key archive that a controller backup names, if it names one. */
  function KeysNamed(f: Readers, c: Component, stem: int, t: Tree): Option<int>
    requires Archive(false, stem, Marker) in t
  {
    if c != HostedController then None
    else
      var header := f.markerOf(Controller, t[Archive(false, stem, Marker)]);
      if header.Some? then header.value.keys else None
  }

  function Ciphertexts(t: Tree): set<int> { set name | name in t && name.Archive? && !name.keys && name.part == Ciphertext :: name.stem }

  /** One encrypted database, sound, with a sound key archive if it names one. */
  predicate SoundDatabase(f: Readers, c: Component, stem: int, t: Tree) {
    && SoundTrio(f, KindOf(c), false, stem, t)
    && var keys := KeysNamed(f, c, stem, t);
       keys.Some? ==> SoundTrio(f, SourceKeys, true, keys.value, t)
  }

  /** A sound database, file by file. */
  lemma SoundDatabaseExactly(f: Readers, c: Component, stem: int, t: Tree)
    ensures SoundDatabase(f, c, stem, t) <==>
            var name, sum, marker := Archive(false, stem, Ciphertext), Archive(false, stem, Checksum), Archive(false, stem, Marker);
            && name in t && sum in t && marker in t && f.isAge(t[name]) && f.sumOf(t[sum]) == Some((f.digest(t[name]), name))
            && var header := f.markerOf(KindOf(c), t[marker]);
               && header.Some? && header.value.name == name && header.value.sha256 == f.digest(t[name])
               && (c == HostedController && header.value.keys.Some? ==>
                     var k := header.value.keys.value;
                     var keys, keySum, keyMarker := Archive(true, k, Ciphertext), Archive(true, k, Checksum), Archive(true, k, Marker);
                     && keys in t && keySum in t && keyMarker in t && f.isAge(t[keys])
                     && f.sumOf(t[keySum]) == Some((f.digest(t[keys]), keys))
                     && var keyHeader := f.markerOf(SourceKeys, t[keyMarker]);
                        keyHeader.Some? && keyHeader.value.name == keys && keyHeader.value.sha256 == f.digest(t[keys]))
  {
  }

  const POSTGRES := Text("postgres.age")
  const MONGODB := Text("mongodb.age")
  const GARAGE := Text("garage.age")
  const REGISTRY := Text("registry.age")
  const POSTGRES_CATALOG := Text("postgres-catalog.json")
  const MONGODB_CATALOG := Text("mongodb-catalog.json")
  const SUMS := Text("SHA256SUMS")
  const FACTS := Text("MANIFEST")

  function Fact(facts: map<string, string>, key: string): string { if key in facts then facts[key] else "" }

  /** The archives that a managed-data manifest calls for. */
  function Archives(facts: map<string, string>): Option<seq<Name>> {
    var version, three := Fact(facts, "format_version"), [POSTGRES, MONGODB, GARAGE];
    if version == "2" && Fact(facts, "registry") == "distribution-artifacts-tar-gzip" then Some(three + [REGISTRY])
    else if (version != "3" && version != "4") || "registry" in facts then None
    else if version == "3" then Some(three)
    else if Fact(facts, "postgres") == "database-logical-tar-v1" && Fact(facts, "mongodb") == "database-logical-tar-v1"
    then Some(three + [POSTGRES_CATALOG, MONGODB_CATALOG])
    else None
  }

  predicate IsCatalog(name: Name) { name == POSTGRES_CATALOG || name == MONGODB_CATALOG }

  predicate SoundManaged(f: Readers, t: Tree) {
    && FACTS in t && SUMS in t && f.factsOf(t[FACTS]).Some?
    && var facts := f.factsOf(t[FACTS]).value;
       && Archives(facts).Some?
       && var archives := Archives(facts).value;
          && Holds(t, archives) && (Fact(facts, "format_version") == "3" ==> REGISTRY !in t)
          && (forall i :: 0 <= i < |archives| && !IsCatalog(archives[i]) ==> f.isAge(t[archives[i]]))
          && f.sumsOf(t[SUMS]) == seq(|archives|, i requires 0 <= i < |archives| => (f.digest(t[archives[i]]), archives[i]))
  }

  /** The archives that these facts call for, by name. */
  ghost predicate CallsFor(facts: map<string, string>, names: seq<Name>) {
    && "format_version" in facts
    && var three := [Text("postgres.age"), Text("mongodb.age"), Text("garage.age")];
       match facts["format_version"]
       case "2" => Fact(facts, "registry") == "distribution-artifacts-tar-gzip" && names == three + [Text("registry.age")]
       case "3" => "registry" !in facts && names == three
       case "4" =>
         && "registry" !in facts && Fact(facts, "postgres") == Fact(facts, "mongodb") == "database-logical-tar-v1"
         && names == three + [Text("postgres-catalog.json"), Text("mongodb-catalog.json")]
       case _ => false
  }

  /** Sound managed data, file by file: the manifest calls for certain archives, they are there and
      encrypted, catalogs aside, and the checksum list is exactly theirs; and nothing of a registry
      is left by the version that has none. */
  lemma SoundManagedExactly(f: Readers, t: Tree)
    ensures SoundManaged(f, t) <==>
            && Text("MANIFEST") in t && Text("SHA256SUMS") in t && f.factsOf(t[Text("MANIFEST")]).Some?
            && var facts := f.factsOf(t[Text("MANIFEST")]).value;
               exists names :: CallsFor(facts, names) && Checked(f, t, facts, names)
  {
    if FACTS in t && f.factsOf(t[FACTS]).Some? {
      var facts := f.factsOf(t[FACTS]).value;
      CallsForArchives(facts);
      if Archives(facts).Some? { assert Checked(f, t, facts, Archives(facts).value) <==> SoundManaged(f, t); }
    }
  }

  lemma CallsForArchives(facts: map<string, string>)
    ensures forall names :: CallsFor(facts, names) <==> Archives(facts) == Some(names)
  {
  }

  ghost predicate Checked(f: Readers, t: Tree, facts: map<string, string>, names: seq<Name>) {
    && Text("SHA256SUMS") in t && (forall i :: 0 <= i < |names| ==> names[i] in t)
    && (forall i :: 0 <= i < |names| ==>
          f.isAge(t[names[i]]) || names[i] == Text("postgres-catalog.json") || names[i] == Text("mongodb-catalog.json"))
    && |f.sumsOf(t[Text("SHA256SUMS")])| == |names|
    && (forall i :: 0 <= i < |names| ==> f.sumsOf(t[Text("SHA256SUMS")])[i] == (f.digest(t[names[i]]), names[i]))
    && (Fact(facts, "format_version") == "3" ==> Text("registry.age") !in t)
  }

  /** Component validation. */
  ghost predicate Sound(f: Readers, c: Component, t: Tree) {
    if c == ManagedData then SoundManaged(f, t)
    else exists stem :: Ciphertexts(t) == {stem} && SoundDatabase(f, c, stem, t)
  }

  /** The stems of committed databases in a directory. */
  function Committed(f: Readers, root: Tree): set<int> {
    set name | name in root && name.Archive? && !name.keys && name.part == Marker && f.safe(name) :: name.stem
  }

  ghost predicate IsNewest(stems: set<int>, stem: int) { stem in stems && forall other :: other in stems ==> other <= stem }

  /** The newest committed database and the key archive it names, or all of the managed data. */
  ghost function Selected(f: Readers, c: Component, root: Tree): Option<seq<Name>> {
    if c == ManagedData then
      if 0 < |root.Keys| <= MAXIMUM_FILES && (forall name :: name in root ==> f.safe(name)) then Some(f.sorted(root.Keys)) else None
    else if !exists stem :: IsNewest(Committed(f, root), stem) then None
    else
      var stem :| IsNewest(Committed(f, root), stem);
      if !HoldsTrio(root, false, stem) then None
      else if c != HostedController then Some(Trio(false, stem))
      else
        match f.keysOf(root[Archive(false, stem, Marker)])
        case None => None
        case Some(None) => Some(Trio(false, stem))
        case Some(Some(k)) =>
          if HoldsTrio(root, true, k) then Some(Trio(false, stem) + Trio(true, k)) else None
  }

  /** The model of a bundle reads files this way. */
  ghost predicate Reads(g: Given, f: Readers) {
    && g.safe == f.safe
    && (forall c: Component, root: Tree :: g.select(c, root) == Selected(f, c, root))
    && (forall c: Component, t: Tree :: g.sound(c, t) <==> Sound(f, c, t))
  }

  lemma CommittedMeans(f: Readers, root: Tree, stem: int)
    ensures stem in Committed(f, root) <==> Archive(false, stem, Marker) in root && f.safe(Archive(false, stem, Marker))
  {
    if stem in Committed(f, root) {
      var name :| name in root && name.Archive? && !name.keys && name.part == Marker && f.safe(name) && name.stem == stem;
      assert name == Archive(false, stem, Marker);
    }
  }

  /** What is selected is of the newest committed database. */
  lemma SelectedIsNewest(f: Readers, c: Component, root: Tree) returns (stem: int, keys: Option<int>)
    requires c != ManagedData && Selected(f, c, root).Some?
    ensures IsNewest(Committed(f, root), stem) && HoldsTrio(root, false, stem)
    ensures Archive(false, stem, Marker) in root && f.safe(Archive(false, stem, Marker))
    ensures forall other :: Archive(false, other, Marker) in root && f.safe(Archive(false, other, Marker)) ==> other <= stem
    ensures keys.Some? ==> c == HostedController && HoldsTrio(root, true, keys.value)
    ensures c == HostedController ==> f.keysOf(root[Archive(false, stem, Marker)]) == Some(keys)
    ensures Selected(f, c, root).value == Trio(false, stem) + (if keys.Some? then Trio(true, keys.value) else [])
  {
    stem :| IsNewest(Committed(f, root), stem);
    assert forall other :: IsNewest(Committed(f, root), other) ==> other == stem;
    CommittedMeans(f, root, stem);
    forall other | Archive(false, other, Marker) in root && f.safe(Archive(false, other, Marker)) ensures other <= stem {
      CommittedMeans(f, root, other);
    }
    keys := None;
    if c == HostedController && f.keysOf(root[Archive(false, stem, Marker)]).Some? {
      keys := f.keysOf(root[Archive(false, stem, Marker)]).value;
    }
    assert Trio(false, stem) + [] == Trio(false, stem);
  }

  /** Selections keep the promise that an export relies on. */
  lemma SelectionsArePromised(g: Given, f: Readers)
    requires Consistent(f) && Reads(g, f)
    ensures Selecting(g)
  {
    forall c: Component, root: Tree | g.select(c, root).Some? ensures Promised(g, root, g.select(c, root).value) {
      SelectionIsPromised(g, f, c, root);
    }
  }

  ghost predicate Promised(g: Given, root: Tree, names: seq<Name>) {
    NoRepeats(names) && 0 < |names| <= MAXIMUM_FILES && forall name :: name in names ==> name in root && g.safe(name)
  }

  lemma SelectionIsPromised(g: Given, f: Readers, c: Component, root: Tree)
    requires Consistent(f) && Reads(g, f) && g.select(c, root).Some?
    ensures Promised(g, root, g.select(c, root).value)
  {
    var names := g.select(c, root).value;
    if c == ManagedData {
      Cardinality(names);
      assert root.Keys == set name | name in names;
    } else {
      var stem, keys := SelectedIsNewest(f, c, root);
      assert f.safe(Archive(false, stem, Marker));
      forall name | name in names ensures name in root && f.safe(name) {
        if name in Trio(false, stem) {
          var i :| 0 <= i < 3 && Trio(false, stem)[i] == name;
        } else {
          var i :| 0 <= i < 3 && Trio(true, keys.value)[i] == name;
        }
      }
    }
  }

  /** What is selected is sound exactly when the newest committed database is: the checks see the
      same files in the selection as in the directory. */
  lemma SelectedIsSound(f: Readers, c: Component, root: Tree)
    requires Consistent(f) && c != ManagedData && Selected(f, c, root).Some?
    requires forall name :: name in Selected(f, c, root).value ==> name in root
    ensures exists stem :: IsNewest(Committed(f, root), stem) && HoldsTrio(root, false, stem)
                           && (Sound(f, c, Chosen(root, Selected(f, c, root).value)) <==> SoundDatabase(f, c, stem, root))
  {
    var stem, keys := SelectedIsNewest(f, c, root);
    var names := Selected(f, c, root).value;
    var t := Chosen(root, names);
    assert Ciphertexts(t) == {stem} by { OneCiphertext(root, names, stem, keys); }
    TrioAgrees(f, KindOf(c), false, stem, root, t, names);
    if SoundTrio(f, KindOf(c), false, stem, root) {
      if c == HostedController && keys.Some? { TrioAgrees(f, SourceKeys, true, keys.value, root, t, names); }
      assert KeysNamed(f, c, stem, t) == KeysNamed(f, c, stem, root) == keys;
    }
    assert SoundDatabase(f, c, stem, t) <==> SoundDatabase(f, c, stem, root);
    assert Sound(f, c, t) <==> SoundDatabase(f, c, stem, t);
  }

  lemma OneCiphertext(root: Tree, names: seq<Name>, stem: int, keys: Option<int>)
    requires names == Trio(false, stem) + (if keys.Some? then Trio(true, keys.value) else [])
    requires forall name :: name in names ==> name in root
    ensures Ciphertexts(Chosen(root, names)) == {stem}
  {
    var t := Chosen(root, names);
    assert names[0] in names && names[0] in t;
    forall s | s in Ciphertexts(t) ensures s == stem {
      var name :| name in t && name.Archive? && !name.keys && name.part == Ciphertext && name.stem == s;
      var i :| 0 <= i < |names| && names[i] == name;
      assert i < 3;
    }
  }

  lemma TrioAgrees(f: Readers, kind: Kind, keys: bool, stem: int, root: Tree, t: Tree, names: seq<Name>)
    requires (forall name :: name in names ==> name in root) && t == Chosen(root, names)
    requires forall i :: 0 <= i < 3 ==> Trio(keys, stem)[i] in names
    ensures SoundTrio(f, kind, keys, stem, t) <==> SoundTrio(f, kind, keys, stem, root)
  {
    assert Trio(keys, stem)[0] in names && Trio(keys, stem)[1] in names && Trio(keys, stem)[2] in names;
  }

  /** A sound newest database can always be selected. */
  lemma SoundIsSelected(f: Readers, c: Component, root: Tree, stem: int)
    requires Consistent(f) && c != ManagedData && IsNewest(Committed(f, root), stem) && SoundDatabase(f, c, stem, root)
    ensures Selected(f, c, root).Some?
  {
    assert forall other :: IsNewest(Committed(f, root), other) ==> other == stem;
  }

  /** The newest committed database of a directory is sound, with the key archive it names. */
  ghost predicate HasSoundNewest(f: Readers, c: Component, root: Tree) {
    exists stem :: IsNewest(Committed(f, root), stem) && SoundDatabase(f, c, stem, root)
  }

  /** A database component is ready for export exactly when its newest committed database, with the
      key archive it names, is there, sound and within the file limit. */
  lemma ReadyExactly(g: Given, f: Readers, sources: Sources, c: Component, limit: nat)
    requires Consistent(f) && Reads(g, f) && c != ManagedData
    ensures Ready(g, sources, c, limit) <==>
            c in sources && HasSoundNewest(f, c, sources[c]) && SizesFit(Evidence(g, sources, c), limit)
  {
    if c in sources {
      var root := sources[c];
      if HasSoundNewest(f, c, root) {
        var stem :| IsNewest(Committed(f, root), stem) && SoundDatabase(f, c, stem, root);
        SoundIsSelected(f, c, root, stem);
      }
      if Selected(f, c, root).Some? { SelectedIsReady(g, f, sources, c); }
    }
  }

  lemma SelectedIsReady(g: Given, f: Readers, sources: Sources, c: Component)
    requires Consistent(f) && Reads(g, f) && c != ManagedData && c in sources && Selected(f, c, sources[c]).Some?
    ensures Evidence(g, sources, c) == Chosen(sources[c], g.select(c, sources[c]).value)
    ensures g.sound(c, Evidence(g, sources, c)) <==> HasSoundNewest(f, c, sources[c])
  {
    SelectionIsPromised(g, f, c, sources[c]);
    SelectedIsSound(f, c, sources[c]);
    var stem :| && IsNewest(Committed(f, sources[c]), stem) && HoldsTrio(sources[c], false, stem)
                && (Sound(f, c, Chosen(sources[c], Selected(f, c, sources[c]).value)) <==> SoundDatabase(f, c, stem, sources[c]));
    assert forall other :: IsNewest(Committed(f, sources[c]), other) ==> other == stem;
  }
}
