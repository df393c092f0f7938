/**
 * Variable sources (`VarsSource`): where one batch of variables comes from, the optional
 * namespace key, and loading a list of sources into the store in order (`Vars.FromConfig`).
 */
module VarsSources {
  import opened Wrappers
  import opened Values
  import opened Io
  import opened Vars
  import Files

  datatype EnvVars = EnvVars(prefix: string)
  datatype FileVars = FileVars(path: string)
  datatype FileSlurpVars = FileSlurpVars(name: string, path: string)
  datatype FilesSlurpVars = FilesSlurpVars(glob: string)
  datatype ParameterVars = ParameterVars(key: string, value: string)

  /** The record of the source, with every variant optional as in the configuration file. */
  datatype VarsSource = VarsSource(
    key: string,
    fromEnv: Option<EnvVars>,
    fromFile: Option<FileVars>,
    fromFileSlurp: Option<FileSlurpVars>,
    fromFilesSlurp: Option<FilesSlurpVars>,
    fromParameter: Option<ParameterVars>,
    fromStdin: bool)

  /** The first index of a path that cannot be read, or `|paths|` when all can. */
  function FirstUnreadable(paths: seq<string>, files: map<string, string>): (i: nat)
    ensures i <= |paths|
    ensures forall j | 0 <= j < i :: paths[j] in files
    ensures i < |paths| ==> paths[i] !in files
  {
    if |paths| == 0 then 0
    else if paths[0] !in files then 0
    else 1 + FirstUnreadable(paths[1..], files)
  }

  /**
   * `VarsSourceFilesSlurp.Load`: one entry per match, from the path to the file's content as a
   * string; a bad pattern or the first unreadable file gives a nil `Files` and the error.
   */
  function FilesSlurpResult(pattern: string, world: World): (Value, Option<Error>)
  {
    match world.glob(pattern)
    case Err(e) => (NilFiles, Some(e))
    case Ok(paths) =>
      var i := FirstUnreadable(paths, world.files);
      if i < |paths| then (NilFiles, Some(ReadFailed(paths[i])))
      else (FilesMap(map p | p in paths :: Str(world.files[p])), None)
  }

  /** The JSON → YAML → TOML cascade of the file and stdin sources; the first success is merged. */
  function Cascade(content: string, target: map<string, Value>, codecs: Codecs): (map<string, Value>, Option<Error>)
  {
    match codecs.json(content)
    case Ok(m) => (target + m, None)
    case Err(_) =>
      match codecs.yaml(content)
      case Ok(m) => (target + Flatten(VarsMap(m)).m, None)
      case Err(_) =>
        match codecs.toml(content)
        case Ok(m) => (target + Flatten(VarsMap(m)).m, None)
        case Err(e) => (target, Some(e))
  }

  /** `VarsSourceFile.Load`: an unreadable file gives its error; otherwise the cascade. */
  function FileResult(source: FileVars, target: map<string, Value>, world: World, codecs: Codecs)
    : (map<string, Value>, Option<Error>)
  {
    if source.path !in world.files then (target, Some(ReadFailed(source.path)))
    else Cascade(world.files[source.path], target, codecs)
  }

  /** `VarsSourceFileSlurp.Load`: the content, undecoded, under the name; "-" reads stdin. */
  function FileSlurpResult(source: FileSlurpVars, target: map<string, Value>, world: World)
    : (map<string, Value>, Option<Error>)
  {
    if source.path == "-" then
      if world.stdin.err.Some? then (target, world.stdin.err)
      else (target[source.name := Str(world.stdin.data)], None)
    else if source.path !in world.files then (target, Some(ReadFailed(source.path)))
    else (target[source.name := Str(world.files[source.path])], None)
  }

  /** `VarsSourceStdin.Load`: the cascade over what was read; a read error is never reported. */
  function StdinResult(target: map<string, Value>, world: World, codecs: Codecs): (map<string, Value>, Option<Error>)
  {
    Cascade(world.stdin.data, target, codecs)
  }

  /** The variants after the namespace is chosen, in priority order Env, File, FileSlurp, Parameter, Stdin. */
  function Dispatch(source: VarsSource, target: map<string, Value>, world: World, codecs: Codecs)
    : (map<string, Value>, Option<Error>)
  {
    if source.fromEnv.Some? then (EnvOverlay(target, world.environ, source.fromEnv.value.prefix), None)
    else if source.fromFile.Some? then FileResult(source.fromFile.value, target, world, codecs)
    else if source.fromFileSlurp.Some? then FileSlurpResult(source.fromFileSlurp.value, target, world)
    else if source.fromParameter.Some? then
      (target[source.fromParameter.value.key := Str(source.fromParameter.value.value)], None)
    else if source.fromStdin then StdinResult(target, world, codecs)
    else (target, None)
  }

  /** The map a namespaced source writes into: the string-keyed map already there, or a fresh one. */
  function Namespace(entries: map<string, Value>, key: string): map<string, Value>
  {
    if key in entries && entries[key].Map? then entries[key].m else map[]
  }

  /** `VarsSource.Load`: the store and the error after loading one source. */
  function LoadResult(source: VarsSource, entries: map<string, Value>, world: World, codecs: Codecs)
    : (map<string, Value>, Option<Error>)
  {
    if source.fromFilesSlurp.Some? then
      var (files, err) := FilesSlurpResult(source.fromFilesSlurp.value.glob, world);
      (entries[source.key := files], err)
    else if source.key == "" then Dispatch(source, entries, world, codecs)
    else
      var (nested, err) := Dispatch(source, Namespace(entries, source.key), world, codecs);
      (entries[source.key := Map(nested)], err)
  }

  /** Whether loading the source reads standard input: the variant that acts is stdin, or a file slurp of "-". */
  predicate ReadsStdin(source: VarsSource)
  {
    && source.fromFilesSlurp.None? && source.fromEnv.None? && source.fromFile.None?
    && if source.fromFileSlurp.Some? then source.fromFileSlurp.value.path == "-"
       else source.fromParameter.None? && source.fromStdin
  }

  /** The world the next source sees: standard input is spent once a source has read it. */
  function AfterLoad(source: VarsSource, world: World): World
  {
    if ReadsStdin(source) then Drained(world) else world
  }

  /** The world after every source of the list has been loaded. */
  function WorldAfter(sources: seq<VarsSource>, world: World): World
  {
    if |sources| == 0 then world else WorldAfter(sources[1..], AfterLoad(sources[0], world))
  }

  /**
   * `Vars.FromConfig`: the sources in order, stopping at the first error. All of them share one
   * standard input, so a source that reads it after another did sees an empty stream.
   */
  function LoadAllResult(sources: seq<VarsSource>, entries: map<string, Value>, world: World, codecs: Codecs)
    : (map<string, Value>, Option<Error>)
  {
    if |sources| == 0 then (entries, None)
    else
      var (next, err) := LoadResult(sources[0], entries, world, codecs);
      if err.Some? then (next, err) else LoadAllResult(sources[1..], next, AfterLoad(sources[0], world), codecs)
  }

  // ---- properties of the specification ----

  /**
   * A files-slurp source is handled before anything else: its result goes under `key`, even
   * an empty key and even on error, no namespace map is made, and the other variants are ignored.
   */
  lemma FilesSlurpFirst(source: VarsSource, entries: map<string, Value>, world: World, codecs: Codecs)
    requires source.fromFilesSlurp.Some?
    ensures var (r, err) := LoadResult(source, entries, world, codecs);
      var (files, e) := FilesSlurpResult(source.fromFilesSlurp.value.glob, world);
      && r == entries[source.key := files]
      && err == e
      && (e.Some? ==> files == NilFiles)
  {
  }

  /** The slurped map holds every matched file's content verbatim, and nothing else. */
  lemma {:induction false} FilesSlurpContents(pattern: string, world: World)
    requires world.glob(pattern).Ok?
    ensures var (files, err) := FilesSlurpResult(pattern, world);
      var paths := world.glob(pattern).value;
      && (err.None? <==> forall p | p in paths :: p in world.files)
      && (err.None? ==> files.FilesMap? && files.m.Keys == set p | p in paths
                        && forall p | p in paths :: files.m[p] == Str(world.files[p]))
  {
    var paths := world.glob(pattern).value;
    var i := FirstUnreadable(paths, world.files);
    if i < |paths| {
      assert paths[i] in paths && paths[i] !in world.files;
    } else {
      forall p | p in paths ensures p in world.files {
        var j :| 0 <= j < |paths| && paths[j] == p;
      }
    }
  }

  /**
   * Reading back a slurped file: after a files slurp that succeeded, `Files.Get` of any matched
   * path gives that file's content, and of any other name panics.
   */
  lemma FilesSlurpGet(pattern: string, world: World, name: string)
    requires world.glob(pattern).Ok? && FilesSlurpResult(pattern, world).1.None?
    ensures var files := FilesSlurpResult(pattern, world).0;
      && files.FilesMap?
      && (name in world.glob(pattern).value ==> Files.Get(files.m, name) == Ok(world.files[name]))
      && (name !in world.glob(pattern).value ==> Files.Get(files.m, name) == Err(Files.NotAString))
  {
    FilesSlurpContents(pattern, world);
  }

  /**
   * With a key, a string-keyed map already under it is reused and anything else there is
   * replaced by a fresh map; the map stays under the key even when loading fails or no variant
   * is set, and nothing else at the top level changes.
   */
  lemma NamespaceInstalled(source: VarsSource, entries: map<string, Value>, world: World, codecs: Codecs)
    requires source.fromFilesSlurp.None? && source.key != ""
    ensures var (r, err) := LoadResult(source, entries, world, codecs);
      var base := if source.key in entries && entries[source.key].Map? then entries[source.key].m else map[];
      && source.key in r && r[source.key].Map?
      && (r[source.key].m, err) == Dispatch(source, base, world, codecs)
      && (forall k | k in entries && k != source.key :: k in r && r[k] == entries[k])
      && (forall k | k in r && k != source.key :: k in entries)
  {
  }

  /** A source with no variant set changes nothing but the namespace map it installs. */
  lemma NoVariantIsNoOp(source: VarsSource, entries: map<string, Value>, world: World, codecs: Codecs)
    requires source.fromFilesSlurp.None? && source.fromEnv.None? && source.fromFile.None?
    requires source.fromFileSlurp.None? && source.fromParameter.None? && !source.fromStdin
    ensures LoadResult(source, entries, world, codecs) ==
      (if source.key == "" then entries else entries[source.key := Map(Namespace(entries, source.key))], None)
  {
  }

  /** The environment variant wins over every other variant but files-slurp, and never fails. */
  lemma EnvFirst(source: VarsSource, entries: map<string, Value>, world: World, codecs: Codecs)
    requires source.fromFilesSlurp.None? && source.fromEnv.Some?
    ensures var only := VarsSource(source.key, source.fromEnv, None, None, None, None, false);
      LoadResult(source, entries, world, codecs) == LoadResult(only, entries, world, codecs)
    ensures LoadResult(source, entries, world, codecs).1 == None
  {
  }

  /** Without an environment variant, the file variant wins over the rest. */
  lemma FileNext(source: VarsSource, entries: map<string, Value>, world: World, codecs: Codecs)
    requires source.fromFilesSlurp.None? && source.fromEnv.None? && source.fromFile.Some?
    ensures var only := VarsSource(source.key, None, source.fromFile, None, None, None, false);
      LoadResult(source, entries, world, codecs) == LoadResult(only, entries, world, codecs)
  {
  }

  /** Then file-slurp, over parameter and stdin. */
  lemma FileSlurpNext(source: VarsSource, entries: map<string, Value>, world: World, codecs: Codecs)
    requires source.fromFilesSlurp.None? && source.fromEnv.None? && source.fromFile.None?
    requires source.fromFileSlurp.Some?
    ensures var only := VarsSource(source.key, None, None, source.fromFileSlurp, None, None, false);
      LoadResult(source, entries, world, codecs) == LoadResult(only, entries, world, codecs)
  {
  }

  /** Then parameter, over stdin: it sets exactly one entry and never fails. */
  lemma ParameterNext(source: VarsSource, entries: map<string, Value>, world: World, codecs: Codecs)
    requires source.fromFilesSlurp.None? && source.fromEnv.None? && source.fromFile.None?
    requires source.fromFileSlurp.None? && source.fromParameter.Some? && source.key == ""
    ensures var p := source.fromParameter.value;
      LoadResult(source, entries, world, codecs) == (entries[p.key := Str(p.value)], None)
  {
  }

  /**
   * The cascade: the first decoder that succeeds is merged (the YAML and TOML results
   * normalised); when all fail the target is untouched and only the TOML error is reported.
   */
  lemma CascadeOrder(content: string, target: map<string, Value>, codecs: Codecs)
    ensures var (r, err) := Cascade(content, target, codecs);
      && (codecs.json(content).Ok? ==> r == target + codecs.json(content).value && err.None?)
      && (codecs.json(content).Err? && codecs.yaml(content).Ok? ==>
            r == target + Flatten(VarsMap(codecs.yaml(content).value)).m && err.None?)
      && (err.Some? <==> codecs.json(content).Err? && codecs.yaml(content).Err? && codecs.toml(content).Err?)
      && (err.Some? ==> r == target && err == Some(codecs.toml(content).error))
  {
  }

  /** A failed read of standard input is never reported by the stdin variant. */
  lemma StdinReadErrorIgnored(target: map<string, Value>, world: World, codecs: Codecs, e: Error)
    ensures var failed: World := world.(stdin := StdinRead(world.stdin.data, Some(e)));
      StdinResult(target, failed, codecs) == StdinResult(target, world, codecs)
  {
  }

  /** Loading a list stops at the first source that fails: the sources after it are never loaded. */
  lemma {:induction false} LoadAllStops(sources: seq<VarsSource>, rest: seq<VarsSource>,
                                        entries: map<string, Value>, world: World, codecs: Codecs)
    requires LoadAllResult(sources, entries, world, codecs).1.Some?
    ensures LoadAllResult(sources + rest, entries, world, codecs) == LoadAllResult(sources, entries, world, codecs)
  {
    if |sources| > 0 {
      var (next, err) := LoadResult(sources[0], entries, world, codecs);
      assert (sources + rest)[0] == sources[0];
      if err.None? {
        assert (sources + rest)[1..] == sources[1..] + rest;
        LoadAllStops(sources[1..], rest, next, AfterLoad(sources[0], world), codecs);
      }
    }
  }

  /**
   * Loading `sources + [last]` loads `last` into the result of `sources`, if they all succeeded,
   * in the world they leave behind.
   */
  lemma {:induction false} LoadAllAppend(sources: seq<VarsSource>, last: VarsSource,
                                         entries: map<string, Value>, world: World, codecs: Codecs)
    requires LoadAllResult(sources, entries, world, codecs).1.None?
    ensures LoadAllResult(sources + [last], entries, world, codecs) ==
      LoadResult(last, LoadAllResult(sources, entries, world, codecs).0, WorldAfter(sources, world), codecs)
  {
    if |sources| == 0 {
      assert [last][1..] == [];
    } else {
      var (next, err) := LoadResult(sources[0], entries, world, codecs);
      assert (sources + [last])[0] == sources[0];
      assert (sources + [last])[1..] == sources[1..] + [last];
      LoadAllAppend(sources[1..], last, next, AfterLoad(sources[0], world), codecs);
    }
  }

  /**
   * Loading only ever spends standard input: after a list of sources it is empty exactly when
   * one of them read it, and the files, the environment and the glob are as they were.
   */
  lemma {:induction false} WorldAfterStdin(sources: seq<VarsSource>, world: World)
    ensures var w := WorldAfter(sources, world);
      && w.files == world.files && w.environ == world.environ && w.glob == world.glob
      && w.stdin == if exists i | 0 <= i < |sources| :: ReadsStdin(sources[i]) then StdinRead("", None) else world.stdin
  {
    if |sources| > 0 {
      WorldAfterStdin(sources[1..], AfterLoad(sources[0], world));
      assert forall i | 0 <= i < |sources[1..]| :: sources[1..][i] == sources[i + 1];
      if !ReadsStdin(sources[0]) && exists i | 0 <= i < |sources| :: ReadsStdin(sources[i]) {
        var i :| 0 <= i < |sources| && ReadsStdin(sources[i]);
        assert ReadsStdin(sources[1..][i - 1]);
      }
    }
  }

  /**
   * Standard input is read once: a stdin source placed after a source that already read it
   * decodes the empty text, whatever the stream held.
   */
  lemma StdinReadOnce(sources: seq<VarsSource>, entries: map<string, Value>, world: World, codecs: Codecs)
    requires LoadAllResult(sources, entries, world, codecs).1.None?
    requires exists i | 0 <= i < |sources| :: ReadsStdin(sources[i])
    ensures var again := VarsSource("", None, None, None, None, None, true);
      LoadAllResult(sources + [again], entries, world, codecs) ==
        Cascade("", LoadAllResult(sources, entries, world, codecs).0, codecs)
  {
    var again := VarsSource("", None, None, None, None, None, true);
    LoadAllAppend(sources, again, entries, world, codecs);
    WorldAfterStdin(sources, world);
  }

  /**
   * Stdin, then the parameter x=5, then stdin again: the second read sees the empty stream, whose
   * YAML decoding is empty, so x keeps the parameter's value rather than the one first read.
   */
  lemma StdinTwiceParameterBetween(world: World, codecs: Codecs)
    requires codecs.json(world.stdin.data) == Ok(map["x" := Int(1)])
    requires codecs.json("").Err? && codecs.yaml("") == Ok(map[])
    ensures var stdin := VarsSource("", None, None, None, None, None, true);
      var x5 := VarsSource("", None, None, None, None, Some(ParameterVars("x", "5")), false);
      LoadAllResult([stdin, x5, stdin], map[], world, codecs) == (map["x" := Str("5")], None)
  {
    var stdin := VarsSource("", None, None, None, None, None, true);
    var x5 := VarsSource("", None, None, None, None, Some(ParameterVars("x", "5")), false);
    var empty: map<string, Value> := map[];
    assert empty + map["x" := Int(1)] == map["x" := Int(1)];
    assert LoadResult(stdin, empty, world, codecs) == (map["x" := Int(1)], None);
    assert map["x" := Int(1)]["x" := Str("5")] == map["x" := Str("5")];
    assert LoadResult(x5, map["x" := Int(1)], Drained(world), codecs) == (map["x" := Str("5")], None);
    assert Flatten(VarsMap(empty)).m == empty;
    assert map["x" := Str("5")] + empty == map["x" := Str("5")];
    assert LoadResult(stdin, map["x" := Str("5")], Drained(world), codecs) == (map["x" := Str("5")], None);
    assert [stdin, x5, stdin][1..] == [x5, stdin];
    assert [x5, stdin][1..] == [stdin];
    assert [stdin][1..] == [];
    assert AfterLoad(stdin, world) == Drained(world) && AfterLoad(x5, Drained(world)) == Drained(world);
    assert LoadAllResult([stdin], map["x" := Str("5")], Drained(world), codecs) == (map["x" := Str("5")], None);
    assert LoadAllResult([x5, stdin], map["x" := Int(1)], Drained(world), codecs) == (map["x" := Str("5")], None);
  }

  /**
   * The overwrite law: when every source loads, a top-level parameter source that comes last
   * decides the value of its key, whatever the earlier sources set there.
   */
  lemma LastParameterWins(sources: seq<VarsSource>, k: string, v: string,
                          entries: map<string, Value>, world: World, codecs: Codecs)
    requires LoadAllResult(sources, entries, world, codecs).1.None?
    ensures var last := VarsSource("", None, None, None, None, Some(ParameterVars(k, v)), false);
      var (r, err) := LoadAllResult(sources + [last], entries, world, codecs);
      err.None? && k in r && r[k] == Str(v)
  {
    var last := VarsSource("", None, None, None, None, Some(ParameterVars(k, v)), false);
    LoadAllAppend(sources, last, entries, world, codecs);
  }

  /** Two top-level file sources decoding to {"x": 1} and then {"x": 2} leave x = 2. */
  lemma TwoFilesLaterWins(world: World, codecs: Codecs, a: string, b: string)
    requires a in world.files && b in world.files
    requires codecs.json(world.files[a]) == Ok(map["x" := Int(1)])
    requires codecs.json(world.files[b]) == Ok(map["x" := Int(2)])
    ensures var fa := VarsSource("", None, Some(FileVars(a)), None, None, None, false);
      var fb := VarsSource("", None, Some(FileVars(b)), None, None, None, false);
      LoadAllResult([fa, fb], map[], world, codecs) == (map["x" := Int(2)], None)
  {
    var fa := VarsSource("", None, Some(FileVars(a)), None, None, None, false);
    var fb := VarsSource("", None, Some(FileVars(b)), None, None, None, false);
    assert AfterLoad(fa, world) == world && AfterLoad(fb, world) == world;
    var empty: map<string, Value> := map[];
    assert empty + map["x" := Int(1)] == map["x" := Int(1)];
    assert Cascade(world.files[a], empty, codecs) == (map["x" := Int(1)], None);
    assert LoadResult(fa, empty, world, codecs) == (map["x" := Int(1)], None);
    assert map["x" := Int(1)] + map["x" := Int(2)] == map["x" := Int(2)];
    assert LoadResult(fb, map["x" := Int(1)], world, codecs) == (map["x" := Int(2)], None);
    assert [fa, fb][1..] == [fb];
    assert [fb][1..] == [];
    assert LoadAllResult([fb], map["x" := Int(1)], world, codecs) == (map["x" := Int(2)], None);
  }
  // ---- the loaders, on a store updated in place ----

  /** `VarsSourceFilesSlurp.Load`: reads the matches one by one into a fresh map. */
  method LoadFilesSlurp(pattern: string, world: World) returns (files: Value, err: Option<Error>)
    ensures (files, err) == FilesSlurpResult(pattern, world)
  {
    var globbed := world.glob(pattern);
    if globbed.Err? {
      return NilFiles, Some(globbed.error);
    }
    var paths := globbed.value;
    var m: map<string, Value> := map[];
    var i := 0;
    while i < |paths|
      invariant 0 <= i <= |paths|
      invariant FirstUnreadable(paths, world.files) >= i
      invariant forall p | p in paths[..i] :: p in world.files
      invariant m == map p | p in paths[..i] :: Str(world.files[p])
    {
      var path := paths[i];
      if path !in world.files {
        FirstUnreadableAt(paths, world.files, i);
        return NilFiles, Some(ReadFailed(path));
      }
      FirstUnreadablePast(paths, world.files, i);
      assert paths[..i + 1] == paths[..i] + [path];
      m := m[path := Str(world.files[path])];
      i := i + 1;
    }
    assert paths[..i] == paths;
    return FilesMap(m), None;
  }

  /** The first unreadable index is `i` when all before it can be read and `paths[i]` cannot. */
  lemma {:induction false} FirstUnreadableAt(paths: seq<string>, files: map<string, string>, i: nat)
    requires i < |paths| && paths[i] !in files && FirstUnreadable(paths, files) >= i
    ensures FirstUnreadable(paths, files) == i
  {
  }

  /** Past a readable index, the first unreadable one lies further on. */
  lemma {:induction false} FirstUnreadablePast(paths: seq<string>, files: map<string, string>, i: nat)
    requires i < |paths| && paths[i] in files && FirstUnreadable(paths, files) >= i
    ensures FirstUnreadable(paths, files) >= i + 1
  {
  }

  /** The cascade of the file and stdin variants, threading the error through three attempts. */
  method LoadCascade(content: string, store: VarsStore, codecs: Codecs) returns (err: Option<Error>)
    modifies store
    ensures (store.entries, err) == Cascade(content, old(store.entries), codecs)
  {
    err := store.FromJSON(content, codecs);
    if err.Some? {
      err := store.FromYAML(content, codecs);
    }
    if err.Some? {
      err := store.FromTOML(content, codecs);
    }
  }

  /** `VarsSourceFile.Load`. */
  method LoadFile(source: FileVars, store: VarsStore, world: World, codecs: Codecs) returns (err: Option<Error>)
    modifies store
    ensures (store.entries, err) == FileResult(source, old(store.entries), world, codecs)
  {
    if source.path !in world.files {
      return Some(ReadFailed(source.path));
    }
    err := LoadCascade(world.files[source.path], store, codecs);
  }

  /** `VarsSourceFileSlurp.Load`. */
  method LoadFileSlurp(source: FileSlurpVars, store: VarsStore, world: World) returns (err: Option<Error>)
    modifies store
    ensures (store.entries, err) == FileSlurpResult(source, old(store.entries), world)
  {
    var content: string;
    if source.path == "-" {
      if world.stdin.err.Some? {
        return world.stdin.err;
      }
      content := world.stdin.data;
    } else {
      if source.path !in world.files {
        return Some(ReadFailed(source.path));
      }
      content := world.files[source.path];
    }
    store.entries := store.entries[source.name := Str(content)];
    return None;
  }

  /** `VarsSourceStdin.Load`: the read error is replaced by the cascade's. */
  method LoadStdin(store: VarsStore, world: World, codecs: Codecs) returns (err: Option<Error>)
    modifies store
    ensures (store.entries, err) == StdinResult(old(store.entries), world, codecs)
  {
    err := world.stdin.err;
    err := LoadCascade(world.stdin.data, store, codecs);
  }

  /** `VarsSourceParameter.Load`. */
  method LoadParameter(source: ParameterVars, store: VarsStore)
    modifies store
    ensures store.entries == old(store.entries)[source.key := Str(source.value)]
  {
    store.entries := store.entries[source.key := Str(source.value)];
  }

  /** `VarsSourceEnv.Load`: an empty prefix selects every variable. */
  method LoadEnv(source: EnvVars, store: VarsStore, world: World)
    modifies store
    ensures store.entries == EnvOverlay(old(store.entries), world.environ, source.prefix)
  {
    store.FromEnv(source.prefix, world.environ);
  }

  /** The variant dispatch of `VarsSource.Load`, into the store the namespace chose. */
  method DispatchInto(source: VarsSource, store: VarsStore, world: World, codecs: Codecs) returns (err: Option<Error>)
    modifies store
    ensures (store.entries, err) == Dispatch(source, old(store.entries), world, codecs)
  {
    if source.fromEnv.Some? {
      LoadEnv(source.fromEnv.value, store, world);
      return None;
    }
    if source.fromFile.Some? {
      err := LoadFile(source.fromFile.value, store, world, codecs);
      return;
    }
    if source.fromFileSlurp.Some? {
      err := LoadFileSlurp(source.fromFileSlurp.value, store, world);
      return;
    }
    if source.fromParameter.Some? {
      LoadParameter(source.fromParameter.value, store);
      return None;
    }
    if source.fromStdin {
      err := LoadStdin(store, world, codecs);
      return;
    }
    return None;
  }

  /**
   * `VarsSource.Load`. The namespace map is installed under the key before the variant runs;
   * the variant then writes into a store of its own whose final contents go back under the key.
   */
  method Load(source: VarsSource, store: VarsStore, world: World, codecs: Codecs) returns (err: Option<Error>)
    modifies store
    ensures (store.entries, err) == LoadResult(source, old(store.entries), world, codecs)
  {
    if source.fromFilesSlurp.Some? {
      var files;
      files, err := LoadFilesSlurp(source.fromFilesSlurp.value.glob, world);
      store.entries := store.entries[source.key := files];
      return;
    }
    if source.key == "" {
      err := DispatchInto(source, store, world, codecs);
      return;
    }
    ghost var before := store.entries;
    var destination := Namespace(store.entries, source.key);
    store.entries := store.entries[source.key := Map(destination)];
    var nested := new VarsStore(destination);
    err := DispatchInto(source, nested, world, codecs);
    store.entries := store.entries[source.key := Map(nested.entries)];
    assert store.entries == before[source.key := Map(nested.entries)];
  }

  /**
   * `Vars.FromConfig`: loads the sources in order, returning at the first error; `current` is the
   * world as the next source finds it, its standard input spent once read.
   */
  method FromConfig(sources: seq<VarsSource>, store: VarsStore, world: World, codecs: Codecs) returns (err: Option<Error>)
    modifies store
    ensures (store.entries, err) == LoadAllResult(sources, old(store.entries), world, codecs)
  {
    var i := 0;
    var current := world;
    while i < |sources|
      invariant 0 <= i <= |sources|
      invariant LoadAllResult(sources[i..], store.entries, current, codecs) ==
                LoadAllResult(sources, old(store.entries), world, codecs)
    {
      assert sources[i..][0] == sources[i] && sources[i..][1..] == sources[i + 1..];
      err := Load(sources[i], store, current, codecs);
      if err.Some? {
        return;
      }
      current := AfterLoad(sources[i], current);
      i := i + 1;
    }
    return None;
  }
}
