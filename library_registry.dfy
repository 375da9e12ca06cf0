/**
 * The library registry: loaded libraries by (taxon id, library name), a
 * prioritised list of library resolvers consulted to load missing ones, and the
 * common species names used to turn a species name into a taxon id.
 *
 * The library object itself (VDJCLibrary, its constructor and addGene) is not
 * part of this model: a library is the data it was built from, its name and its
 * context. Pushing a known sequence fragment to the sequence resolver is
 * recorded in a log, `pushed`, in the order the source makes the calls.
 */
module LibraryRegistry {
  import opened Outcomes

  /** A library key: by taxon id, or by a common species name still to be resolved. */
  datatype SpeciesAndLibraryName =
    | ByTaxon(taxonId: int, libraryName: string)
    | BySpeciesName(speciesName: string, libraryName: string)

  /** A known sequence fragment of a library's data: an address, a range and its letters. */
  datatype Fragment = Fragment(uri: string, from: int, to: int, sequence: string)

  /** The data a library is built from. */
  datatype LibraryData = LibraryData(taxonId: int, speciesNames: seq<string>, genes: seq<string>,
                                     fragments: seq<Fragment>)

  /** A loaded library. */
  datatype Library = Library(name: string, context: string, data: LibraryData)
  {
    function Key(): SpeciesAndLibraryName { ByTaxon(data.taxonId, name) }
  }

  /**
   * A library resolver: the records it finds for a library name (None for Java's
   * null), and the context (a folder) it gives to libraries of that name.
   */
  datatype LibraryResolver = LibraryResolver(resolve: string -> Option<seq<LibraryData>>,
                                             context: string -> string)

  /** A fragment as pushed to the sequence resolver: resolved against `context`. */
  datatype PushedFragment = PushedFragment(context: string, fragment: Fragment)

  datatype RegistryError =
    | UnknownSpeciesName(name: string)
    | DuplicateLibrary(key: SpeciesAndLibraryName)
    | SpeciesNameMismatch(libraryName: string)
    | LibraryNotFound(key: SpeciesAndLibraryName)

  /** The registry's state as a value. */
  datatype RegistryState = RegistryState(
    resolvers: seq<LibraryResolver>,
    speciesNames: map<string, int>,
    libraries: map<SpeciesAndLibraryName, Library>,
    pushed: seq<PushedFragment>)

  /** The state an operation leaves and what it returns or throws. */
  datatype Outcome = Outcome(state: RegistryState, result: Result<Library, RegistryError>)

  /** The state reached by a run of registrations and the error that ended it, if any. */
  datatype Progress = Progress(state: RegistryState, error: Option<RegistryError>)

  /** Every loaded library is stored under its own key. */
  ghost predicate OwnKeys(libraries: map<SpeciesAndLibraryName, Library>)
  {
    forall k | k in libraries :: libraries[k].Key() == k
  }

  /** A common species name's taxon id; an unknown name is an error. */
  function ResolveSpeciesName(speciesNames: map<string, int>, name: string): (r: Result<int, RegistryError>)
    ensures r.Ok? <==> name in speciesNames
    ensures r.Ok? ==> r.value == speciesNames[name]
    ensures r.Err? ==> r.error == UnknownSpeciesName(name)
  {
    if name in speciesNames then Ok(speciesNames[name]) else Err(UnknownSpeciesName(name))
  }

  /** A key by species name becomes the key by its taxon id; a key by taxon id is kept. */
  function ResolveKey(speciesNames: map<string, int>, sal: SpeciesAndLibraryName)
    : (r: Result<SpeciesAndLibraryName, RegistryError>)
    ensures sal.ByTaxon? ==> r == Ok(sal)
    ensures sal.BySpeciesName? ==>
      && (r.Ok? <==> sal.speciesName in speciesNames)
      && (r.Ok? ==> r.value == ByTaxon(speciesNames[sal.speciesName], sal.libraryName))
      && (r.Err? ==> r.error == UnknownSpeciesName(sal.speciesName))
    ensures r.Ok? ==> r.value.ByTaxon? && r.value.libraryName == sal.libraryName
  {
    match sal
    case ByTaxon(_, _) => Ok(sal)
    case BySpeciesName(name, libraryName) =>
      match ResolveSpeciesName(speciesNames, name)
      case Ok(taxonId) => Ok(ByTaxon(taxonId, libraryName))
      case Err(e) => Err(e)
  }

  /** The fragments of a library, each resolved against `context`, in order. */
  function Pushes(context: string, fs: seq<Fragment>): (ps: seq<PushedFragment>)
    ensures |ps| == |fs| && forall i | 0 <= i < |fs| :: ps[i] == PushedFragment(context, fs[i])
  {
    if fs == [] then [] else Pushes(context, fs[..|fs| - 1]) + [PushedFragment(context, fs[|fs| - 1])]
  }

  /** Some common name of the library is already recorded for another taxon. */
  predicate Conflicts(speciesNames: map<string, int>, taxonId: int, names: seq<string>)
  {
    exists i | 0 <= i < |names| :: names[i] in speciesNames && speciesNames[names[i]] != taxonId
  }

  /**
   * Registering a library: a taken key is refused before anything happens; the
   * fragments are pushed next; a common name recorded for another taxon is then
   * refused, with the fragments already pushed; otherwise the library is stored.
   * The recorded species names are only read.
   */
  function RegisterSpec(st: RegistryState, context: string, name: string, data: LibraryData): (o: Outcome)
    ensures o.state.resolvers == st.resolvers && o.state.speciesNames == st.speciesNames
    ensures o.result.Err? <==> (ByTaxon(data.taxonId, name) in st.libraries
                                || Conflicts(st.speciesNames, data.taxonId, data.speciesNames))
    ensures ByTaxon(data.taxonId, name) in st.libraries ==>
      o == Outcome(st, Err(DuplicateLibrary(ByTaxon(data.taxonId, name))))
    ensures ByTaxon(data.taxonId, name) !in st.libraries ==>
      o.state.pushed == st.pushed + Pushes(context, data.fragments)
    ensures o.result.Err? ==> o.state.libraries == st.libraries && !o.result.error.LibraryNotFound?
    ensures o.result.Err? && ByTaxon(data.taxonId, name) !in st.libraries ==>
      o.result.error == SpeciesNameMismatch(name)
    ensures o.result.Ok? ==>
      && o.result.value == Library(name, context, data)
      && o.state.libraries == st.libraries[ByTaxon(data.taxonId, name) := o.result.value]
  {
    var key := ByTaxon(data.taxonId, name);
    if key in st.libraries then Outcome(st, Err(DuplicateLibrary(key)))
    else
      var st1 := st.(pushed := st.pushed + Pushes(context, data.fragments));
      if Conflicts(st.speciesNames, data.taxonId, data.speciesNames) then
        Outcome(st1, Err(SpeciesNameMismatch(name)))
      else
        var library := Library(name, context, data);
        Outcome(st1.(libraries := st1.libraries[key := library]), Ok(library))
  }

  /**
   * Registers the records of one resolver from record `j` on, skipping those
   * whose key is already loaded; the first failing registration ends the run.
   */
  function RegisterAll(st: RegistryState, context: string, name: string, records: seq<LibraryData>, j: nat)
    : (p: Progress)
    ensures p.state.resolvers == st.resolvers && p.state.speciesNames == st.speciesNames
    ensures p.error.Some? ==> p.error.value == SpeciesNameMismatch(name)
    ensures st.libraries.Keys <= p.state.libraries.Keys
    ensures forall k | k in p.state.libraries && k !in st.libraries ::
      k.ByTaxon? && k.libraryName == name && exists m | j <= m < |records| :: records[m].taxonId == k.taxonId
    ensures p.error.None? ==>
      forall m | j <= m < |records| :: ByTaxon(records[m].taxonId, name) in p.state.libraries
    ensures OwnKeys(st.libraries) ==> OwnKeys(p.state.libraries)
    decreases |records| - j
  {
    if j >= |records| then Progress(st, None)
    else if ByTaxon(records[j].taxonId, name) in st.libraries then RegisterAll(st, context, name, records, j + 1)
    else
      var o := RegisterSpec(st, context, name, records[j]);
      if o.result.Err? then Progress(o.state, Some(o.result.error))
      else RegisterAll(o.state, context, name, records, j + 1)
  }

  /**
   * Consults the resolvers from resolver `i` on for the library name of `key`:
   * a resolver that finds nothing is passed over; after one that finds records
   * they are registered, and the key's library is returned once it is loaded.
   */
  function LoadFrom(st: RegistryState, key: SpeciesAndLibraryName, i: nat): Outcome
    decreases |st.resolvers| - i
  {
    if i >= |st.resolvers| then Outcome(st, Err(LibraryNotFound(key)))
    else
      var resolver := st.resolvers[i];
      match resolver.resolve(key.libraryName)
      case None => LoadFrom(st, key, i + 1)
      case Some(records) =>
        var p := RegisterAll(st, resolver.context(key.libraryName), key.libraryName, records, 0);
        if p.error.Some? then Outcome(p.state, Err(p.error.value))
        else if key in p.state.libraries then Outcome(p.state, Ok(p.state.libraries[key]))
        else LoadFrom(p.state, key, i + 1)
  }

  /** Looking a library up: resolve the species name, return a loaded library, else load it. */
  function GetLibrarySpec(st: RegistryState, sal: SpeciesAndLibraryName): Outcome
  {
    match ResolveKey(st.speciesNames, sal)
    case Err(e) => Outcome(st, Err(e))
    case Ok(key) =>
      if key in st.libraries then Outcome(st, Ok(st.libraries[key]))
      else LoadFrom(st, key, 0)
  }

  /** `after` keeps every library of `before` under its key, and the resolvers and species names. */
  ghost predicate Extends(before: RegistryState, after: RegistryState)
  {
    && after.resolvers == before.resolvers
    && after.speciesNames == before.speciesNames
    && (forall k | k in before.libraries :: k in after.libraries && after.libraries[k] == before.libraries[k])
  }

  /** Registering records never replaces a loaded library: the first one loaded under a key stays. */
  lemma {:induction false} RegisterAllKeepsLoaded(st: RegistryState, context: string, name: string,
                                                   records: seq<LibraryData>, j: nat)
    ensures Extends(st, RegisterAll(st, context, name, records, j).state)
    decreases |records| - j
  {
    if j < |records| && ByTaxon(records[j].taxonId, name) !in st.libraries {
      var o := RegisterSpec(st, context, name, records[j]);
      if o.result.Ok? {
        RegisterAllKeepsLoaded(o.state, context, name, records, j + 1);
      }
    } else if j < |records| {
      RegisterAllKeepsLoaded(st, context, name, records, j + 1);
    }
  }

  /**
   * Loading keeps every loaded library; a library it returns is the one now
   * loaded under the requested key; when it fails without a registration error,
   * no resolver loaded the key.
   */
  lemma {:induction false} LoadFromSound(st: RegistryState, key: SpeciesAndLibraryName, i: nat)
    ensures var o := LoadFrom(st, key, i);
      && Extends(st, o.state)
      && (o.result.Ok? ==> key in o.state.libraries && o.result.value == o.state.libraries[key])
      && (o.result == Err(LibraryNotFound(key)) && key !in st.libraries ==> key !in o.state.libraries)
    decreases |st.resolvers| - i
  {
    if i < |st.resolvers| {
      var resolver := st.resolvers[i];
      match resolver.resolve(key.libraryName)
      case None =>
        LoadFromSound(st, key, i + 1);
      case Some(records) =>
        var p := RegisterAll(st, resolver.context(key.libraryName), key.libraryName, records, 0);
        RegisterAllKeepsLoaded(st, resolver.context(key.libraryName), key.libraryName, records, 0);
        if p.error.None? && key !in p.state.libraries {
          LoadFromSound(p.state, key, i + 1);
        }
    }
  }

  /**
   * A lookup keeps every loaded library, and the library it returns is the one
   * loaded under the resolved key; a loaded key is answered without any change.
   */
  lemma GetLibrarySound(st: RegistryState, sal: SpeciesAndLibraryName)
    ensures var o := GetLibrarySpec(st, sal);
      && Extends(st, o.state)
      && (o.result.Ok? ==>
            && ResolveKey(st.speciesNames, sal).Ok?
            && var key := ResolveKey(st.speciesNames, sal).value;
               key in o.state.libraries && o.result.value == o.state.libraries[key])
      && (ResolveKey(st.speciesNames, sal).Ok? && ResolveKey(st.speciesNames, sal).value in st.libraries ==>
            o == Outcome(st, Ok(st.libraries[ResolveKey(st.speciesNames, sal).value])))
  {
    if ResolveKey(st.speciesNames, sal).Ok? {
      LoadFromSound(st, ResolveKey(st.speciesNames, sal).value, 0);
    }
  }

  /** A resolver that finds nothing for the name is passed over without any change. */
  lemma SilentResolverSkipped(st: RegistryState, key: SpeciesAndLibraryName, i: nat)
    requires i < |st.resolvers| && st.resolvers[i].resolve(key.libraryName).None?
    ensures LoadFrom(st, key, i) == LoadFrom(st, key, i + 1)
  {
  }

  /**
   * Earlier resolvers have priority: when resolver `i` loads the key, the later
   * resolvers are not consulted.
   */
  lemma EarlierResolverWins(st: RegistryState, key: SpeciesAndLibraryName, i: nat, records: seq<LibraryData>)
    requires i < |st.resolvers| && st.resolvers[i].resolve(key.libraryName) == Some(records)
    requires var p := RegisterAll(st, st.resolvers[i].context(key.libraryName), key.libraryName, records, 0);
      p.error.None? && key in p.state.libraries
    ensures var p := RegisterAll(st, st.resolvers[i].context(key.libraryName), key.libraryName, records, 0);
      LoadFrom(st, key, i) == Outcome(p.state, Ok(p.state.libraries[key]))
  {
  }

  /** The resolver finds records for the key's library name, one of them for the key's taxon id. */
  predicate Yields(resolver: LibraryResolver, key: SpeciesAndLibraryName)
    requires key.ByTaxon?
  {
    match resolver.resolve(key.libraryName)
    case None => false
    case Some(records) => exists m | 0 <= m < |records| :: records[m].taxonId == key.taxonId
  }

  /**
   * When no resolver from `i` on finds a record for the key, loading fails and
   * leaves the key unloaded.
   */
  lemma {:induction false} NoResolverYieldsFails(st: RegistryState, key: SpeciesAndLibraryName, i: nat)
    requires key.ByTaxon? && key !in st.libraries
    requires forall r | i <= r < |st.resolvers| :: !Yields(st.resolvers[r], key)
    ensures LoadFrom(st, key, i).result.Err?
    ensures key !in LoadFrom(st, key, i).state.libraries
    decreases |st.resolvers| - i
  {
    if i < |st.resolvers| {
      var resolver := st.resolvers[i];
      match resolver.resolve(key.libraryName)
      case None =>
        NoResolverYieldsFails(st, key, i + 1);
      case Some(records) =>
        var p := RegisterAll(st, resolver.context(key.libraryName), key.libraryName, records, 0);
        assert !Yields(resolver, key);
        assert key !in p.state.libraries;
        if p.error.None? {
          NoResolverYieldsFails(p.state, key, i + 1);
        }
    }
  }

  /**
   * When some resolver from `i` on finds a record for the key, loading does not
   * fail with "not found": it returns the library, or fails registering records.
   */
  lemma {:induction false} ResolverYieldsLoads(st: RegistryState, key: SpeciesAndLibraryName, i: nat, r: nat)
    requires key.ByTaxon? && i <= r < |st.resolvers| && Yields(st.resolvers[r], key)
    ensures LoadFrom(st, key, i).result != Err(LibraryNotFound(key))
    ensures LoadFrom(st, key, i).result.Err? ==>
      LoadFrom(st, key, i).result.error == SpeciesNameMismatch(key.libraryName)
    decreases |st.resolvers| - i
  {
    var resolver := st.resolvers[i];
    match resolver.resolve(key.libraryName)
    case None =>
      ResolverYieldsLoads(st, key, i + 1, r);
    case Some(records) =>
      var p := RegisterAll(st, resolver.context(key.libraryName), key.libraryName, records, 0);
      if r == i && p.error.None? {
        var m :| 0 <= m < |records| && records[m].taxonId == key.taxonId;
        assert ByTaxon(records[m].taxonId, key.libraryName) == key;
      }
      if p.error.None? && key !in p.state.libraries {
        ResolverYieldsLoads(p.state, key, i + 1, r);
      }
  }

  /**
   * A lookup of a key that is not loaded fails with "not found" only when no
   * resolver finds a record for it, and always fails when none does.
   */
  lemma GetLibraryNotFound(st: RegistryState, sal: SpeciesAndLibraryName)
    requires ResolveKey(st.speciesNames, sal).Ok?
    requires ResolveKey(st.speciesNames, sal).value !in st.libraries
    ensures var key := ResolveKey(st.speciesNames, sal).value;
      var o := GetLibrarySpec(st, sal);
      && ((forall r | 0 <= r < |st.resolvers| :: !Yields(st.resolvers[r], key)) ==> o.result.Err?)
      && (o.result == Err(LibraryNotFound(key)) ==> forall r | 0 <= r < |st.resolvers| :: !Yields(st.resolvers[r], key))
  {
    var key := ResolveKey(st.speciesNames, sal).value;
    if forall r | 0 <= r < |st.resolvers| :: !Yields(st.resolvers[r], key) {
      NoResolverYieldsFails(st, key, 0);
    }
    forall r | 0 <= r < |st.resolvers| && Yields(st.resolvers[r], key)
      ensures GetLibrarySpec(st, sal).result != Err(LibraryNotFound(key))
    {
      ResolverYieldsLoads(st, key, 0, r);
    }
  }

  /** Loading keeps every library stored under its own key. */
  lemma {:induction false} LoadFromKeepsOwnKeys(st: RegistryState, key: SpeciesAndLibraryName, i: nat)
    requires OwnKeys(st.libraries)
    ensures OwnKeys(LoadFrom(st, key, i).state.libraries)
    decreases |st.resolvers| - i
  {
    if i < |st.resolvers| {
      var resolver := st.resolvers[i];
      match resolver.resolve(key.libraryName)
      case None =>
        LoadFromKeepsOwnKeys(st, key, i + 1);
      case Some(records) =>
        var p := RegisterAll(st, resolver.context(key.libraryName), key.libraryName, records, 0);
        if p.error.None? && key !in p.state.libraries {
          LoadFromKeepsOwnKeys(p.state, key, i + 1);
        }
    }
  }

  /** A sequence without repetitions that lists exactly the elements of `s` is as long as `s` is large. */
  lemma {:induction false} DistinctCount<T>(xs: seq<T>, s: set<T>)
    requires forall i, j | 0 <= i < j < |xs| :: xs[i] != xs[j]
    requires forall x :: x in s <==> x in xs
    ensures |xs| == |s|
    decreases |xs|
  {
    if xs != [] {
      var last := xs[|xs| - 1];
      var init := xs[..|xs| - 1];
      forall x ensures x in s - {last} <==> x in init {
        if x in init {
          var i :| 0 <= i < |init| && init[i] == x;
          assert xs[i] == x;
        }
        if x in xs && x != last {
          var i :| 0 <= i < |xs| && xs[i] == x;
          assert init[i] == x;
        }
      }
      DistinctCount(init, s - {last});
    }
  }

  /**
   * `keys` lists each key of `loaded` with the given library name once, and `libs`
   * their libraries in the same order: then `libs` lists exactly those libraries,
   * one per key.
   */
  lemma NamedListing(loaded: map<SpeciesAndLibraryName, Library>, name: string,
                     libs: seq<Library>, keys: seq<SpeciesAndLibraryName>)
    requires |keys| == |libs|
    requires forall i | 0 <= i < |keys| :: keys[i] in loaded && keys[i].libraryName == name
    requires forall i | 0 <= i < |keys| :: loaded[keys[i]] == libs[i]
    requires forall k | k in loaded && k.libraryName == name :: k in keys
    requires forall i, j | 0 <= i < j < |keys| :: keys[i] != keys[j]
    ensures |libs| == |set k | k in loaded && k.libraryName == name|
    ensures forall i | 0 <= i < |libs| :: exists k | k in loaded && k.libraryName == name :: loaded[k] == libs[i]
    ensures forall k | k in loaded && k.libraryName == name :: loaded[k] in libs
  {
    DistinctCount(keys, set k | k in loaded && k.libraryName == name);
    forall i | 0 <= i < |libs|
      ensures exists k | k in loaded && k.libraryName == name :: loaded[k] == libs[i]
    {
      assert loaded[keys[i]] == libs[i];
    }
    forall k | k in loaded && k.libraryName == name
      ensures loaded[k] in libs
    {
      var i :| 0 <= i < |keys| && keys[i] == k;
      assert libs[i] == loaded[k];
    }
  }

  /** The registry object; its fields mirror the source's list and maps. */
  class Registry {
    var resolvers: seq<LibraryResolver>
    var speciesNames: map<string, int>
    var libraries: map<SpeciesAndLibraryName, Library>
    var pushed: seq<PushedFragment>

    function State(): RegistryState
      reads this
    {
      RegistryState(resolvers, speciesNames, libraries, pushed)
    }

    constructor ()
      ensures State() == RegistryState([], map[], map[], [])
    {
      resolvers, speciesNames, libraries, pushed := [], map[], map[], [];
    }

    /** Appends a resolver; it is consulted after all earlier ones. */
    method AddLibraryResolver(resolver: LibraryResolver)
      modifies this
      ensures State() == old(State()).(resolvers := old(resolvers) + [resolver])
    {
      resolvers := resolvers + [resolver];
    }

    /** The loaded libraries whose key has the given library name, one per key. */
    method GetLoadedLibrariesByName(name: string) returns (libs: seq<Library>)
      ensures |libs| == |set k | k in libraries && k.libraryName == name|
      ensures forall i | 0 <= i < |libs| :: exists k | k in libraries && k.libraryName == name :: libraries[k] == libs[i]
      ensures forall k | k in libraries && k.libraryName == name :: libraries[k] in libs
    {
      var loaded := libraries;
      libs := [];
      var remaining := loaded.Keys;
      ghost var done: set<SpeciesAndLibraryName> := {};
      ghost var keys: seq<SpeciesAndLibraryName> := [];
      while remaining != {}
        invariant done <= loaded.Keys && remaining == loaded.Keys - done
        invariant |keys| == |libs|
        invariant forall i | 0 <= i < |keys| ::
          keys[i] in done && keys[i].libraryName == name && loaded[keys[i]] == libs[i]
        invariant forall k | k in done && k.libraryName == name :: k in keys
        invariant forall i, j | 0 <= i < j < |keys| :: keys[i] != keys[j]
        decreases |remaining|
      {
        var k :| k in remaining;
        if k.libraryName == name {
          libs := libs + [loaded[k]];
          keys := keys + [k];
        }
        remaining := remaining - {k};
        done := done + {k};
      }
      NamedListing(loaded, name, libs, keys);
    }

    /** Checks the library's common names against the recorded ones. */
    method CheckSpeciesNames(taxonId: int, names: seq<string>) returns (conflict: bool)
      ensures conflict == Conflicts(speciesNames, taxonId, names)
    {
      var i := 0;
      while i < |names|
        invariant 0 <= i <= |names|
        invariant !Conflicts(speciesNames, taxonId, names[..i])
      {
        if names[i] in speciesNames && speciesNames[names[i]] != taxonId {
          assert names[i] == names[..i + 1][i];
          return true;
        }
        assert forall m | 0 <= m < i :: names[..i + 1][m] == names[..i][m];
        i := i + 1;
      }
      assert names[..i] == names;
      return false;
    }

    /** Stores a library built from `data`, pushing its fragments to the sequence resolver. */
    method RegisterLibrary(context: string, name: string, data: LibraryData) returns (r: Result<Library, RegistryError>)
      modifies this
      ensures Outcome(State(), r) == RegisterSpec(old(State()), context, name, data)
    {
      var library := Library(name, context, data);
      if library.Key() in libraries {
        return Err(DuplicateLibrary(library.Key()));
      }
      var i := 0;
      while i < |data.fragments|
        invariant 0 <= i <= |data.fragments|
        invariant State() == old(State()).(pushed := old(pushed) + Pushes(context, data.fragments[..i]))
      {
        assert data.fragments[..i + 1][..i] == data.fragments[..i];
        pushed := pushed + [PushedFragment(context, data.fragments[i])];
        i := i + 1;
      }
      assert data.fragments[..i] == data.fragments;
      var conflict := CheckSpeciesNames(data.taxonId, data.speciesNames);
      if conflict {
        return Err(SpeciesNameMismatch(name));
      }
      libraries := libraries[library.Key() := library];
      r := Ok(library);
    }

    /** Registers the records of one resolver, skipping keys already loaded. */
    method RegisterRecords(context: string, name: string, records: seq<LibraryData>) returns (err: Option<RegistryError>)
      modifies this
      ensures Progress(State(), err) == RegisterAll(old(State()), context, name, records, 0)
    {
      var j := 0;
      while j < |records|
        invariant 0 <= j <= |records|
        invariant RegisterAll(old(State()), context, name, records, 0) == RegisterAll(State(), context, name, records, j)
      {
        if ByTaxon(records[j].taxonId, name) !in libraries {
          var r := RegisterLibrary(context, name, records[j]);
          if r.Err? {
            return Some(r.error);
          }
        }
        j := j + 1;
      }
      err := None;
    }

    /** Returns the library of a key, loading it through the resolvers when it is not loaded yet. */
    method GetLibrary(sal: SpeciesAndLibraryName) returns (r: Result<Library, RegistryError>)
      modifies this
      ensures Outcome(State(), r) == GetLibrarySpec(old(State()), sal)
    {
      var resolved := ResolveKey(speciesNames, sal);
      if resolved.Err? {
        return Err(resolved.error);
      }
      var key := resolved.value;
      if key in libraries {
        return Ok(libraries[key]);
      }
      var i := 0;
      while i < |resolvers|
        invariant 0 <= i <= |resolvers| && resolvers == old(resolvers)
        invariant LoadFrom(old(State()), key, 0) == LoadFrom(State(), key, i)
      {
        var resolver := resolvers[i];
        var found := resolver.resolve(key.libraryName);
        if found.Some? {
          var err := RegisterRecords(resolver.context(key.libraryName), key.libraryName, found.value);
          if err.Some? {
            return Err(err.value);
          }
          if key in libraries {
            return Ok(libraries[key]);
          }
        }
        i := i + 1;
      }
      r := Err(LibraryNotFound(key));
    }
  }
}
