/**
 * Template sources (`TemplateSource`): where a template's text comes from, and the names a
 * load adds to the root template set.
 */
module TemplateSources {
  import opened Wrappers
  import opened Values
  import opened Io
  import opened Funcs
  import opened TemplateEngine

  datatype EnvTemplate = EnvTemplate(key: string)
  datatype FileTemplate = FileTemplate(path: string)
  datatype FileGlobTemplate = FileGlobTemplate(glob: string)
  datatype ParameterTemplate = ParameterTemplate(value: string)

  datatype TemplateSource = TemplateSource(
    name: string,
    fromEnv: Option<EnvTemplate>,
    fromFile: Option<FileTemplate>,
    fromFileGlob: Option<FileGlobTemplate>,
    fromParameter: Option<ParameterTemplate>,
    fromStdin: bool)

  /** The names a load returns, the template set after it, and its error. */
  datatype Loaded = Loaded(names: seq<string>, templates: map<string, Compiled>, err: Option<Error>)

  /** The parameter, environment and stdin loaders: register under `name`, and return `[name]` whatever the parse gave. */
  function TextResult(name: string, text: string, templates: map<string, Compiled>, delims: Delims,
                      funcs: FuncMap, engine: Engine): Loaded
  {
    var (t, e) := Registered(templates, name, text, delims, funcs, engine);
    Loaded([name], t, e)
  }

  /** The file loader: an unreadable file gives no names and registers nothing. */
  function FileResult(path: string, name: string, templates: map<string, Compiled>, delims: Delims,
                      funcs: FuncMap, world: World, engine: Engine): Loaded
  {
    if path !in world.files then Loaded([], templates, Some(ReadFailed(path)))
    else TextResult(name, world.files[path], templates, delims, funcs, engine)
  }

  /** The file-glob loop: each path loaded as a file named by the path, stopping at the first failure. */
  function GlobFiles(paths: seq<string>, templates: map<string, Compiled>, delims: Delims,
                     funcs: FuncMap, world: World, engine: Engine): (map<string, Compiled>, Option<Error>)
  {
    if |paths| == 0 then (templates, None)
    else
      var r := FileResult(paths[0], paths[0], templates, delims, funcs, world, engine);
      if r.err.Some? then (r.templates, r.err)
      else GlobFiles(paths[1..], r.templates, delims, funcs, world, engine)
  }

  /** The file-glob loader: the matched paths on success, no names on any failure. */
  function FileGlobResult(glob: string, templates: map<string, Compiled>, delims: Delims,
                          funcs: FuncMap, world: World, engine: Engine): Loaded
  {
    match world.glob(glob)
    case Err(e) => Loaded([], templates, Some(e))
    case Ok(paths) =>
      var (t, e) := GlobFiles(paths, templates, delims, funcs, world, engine);
      if e.Some? then Loaded([], t, e) else Loaded(paths, t, None)
  }

  /** `TemplateSource.Load`: the variants in priority order Env, File, FileGlob, Parameter, Stdin. */
  function LoadResult(source: TemplateSource, templates: map<string, Compiled>, delims: Delims,
                      funcs: FuncMap, world: World, engine: Engine): Loaded
  {
    if source.fromEnv.Some? then
      TextResult(source.name, Getenv(world.environ, source.fromEnv.value.key), templates, delims, funcs, engine)
    else if source.fromFile.Some? then
      FileResult(source.fromFile.value.path, source.name, templates, delims, funcs, world, engine)
    else if source.fromFileGlob.Some? then
      FileGlobResult(source.fromFileGlob.value.glob, templates, delims, funcs, world, engine)
    else if source.fromParameter.Some? then
      TextResult(source.name, source.fromParameter.value.value, templates, delims, funcs, engine)
    else if source.fromStdin then
      TextResult(source.name, world.stdin.data, templates, delims, funcs, engine)
    else Loaded([], templates, None)
  }

  /** Whether loading the source reads standard input: stdin is the variant that acts. */
  predicate ReadsStdin(source: TemplateSource)
  {
    source.fromEnv.None? && source.fromFile.None? && source.fromFileGlob.None? && source.fromParameter.None? && source.fromStdin
  }

  /** The world the next source sees: standard input is spent once read, also when the read failed. */
  function AfterLoad(source: TemplateSource, world: World): World
  {
    if ReadsStdin(source) then Drained(world) else world
  }

  /** The source with only its highest-priority variant kept. */
  function Highest(source: TemplateSource): (s: TemplateSource)
    ensures s.name == source.name
    ensures source.fromEnv.Some? ==> s == TemplateSource(source.name, source.fromEnv, None, None, None, false)
    ensures source.fromEnv.None? && source.fromFile.Some? ==>
              s == TemplateSource(source.name, None, source.fromFile, None, None, false)
    ensures source.fromEnv.None? && source.fromFile.None? && source.fromFileGlob.Some? ==>
              s == TemplateSource(source.name, None, None, source.fromFileGlob, None, false)
    ensures source.fromEnv.None? && source.fromFile.None? && source.fromFileGlob.None? ==>
              s == TemplateSource(source.name, None, None, None, source.fromParameter, source.fromParameter.None? && source.fromStdin)
  {
    var none := TemplateSource(source.name, None, None, None, None, false);
    if source.fromEnv.Some? then none.(fromEnv := source.fromEnv)
    else if source.fromFile.Some? then none.(fromFile := source.fromFile)
    else if source.fromFileGlob.Some? then none.(fromFileGlob := source.fromFileGlob)
    else if source.fromParameter.Some? then none.(fromParameter := source.fromParameter)
    else none.(fromStdin := source.fromStdin)
  }

  /** Whether a file loads as a template: it can be read and its text parses. */
  predicate FileLoads(path: string, delims: Delims, funcs: FuncMap, world: World, engine: Engine)
  {
    path in world.files && engine.parse(path, world.files[path], delims, funcs).None?
  }

  // ---- properties ----

  /** Only the highest-priority variant is loaded; the others are ignored. */
  lemma LowerVariantsIgnored(source: TemplateSource, templates: map<string, Compiled>, delims: Delims,
                             funcs: FuncMap, world: World, engine: Engine)
    ensures LoadResult(source, templates, delims, funcs, world, engine) ==
            LoadResult(Highest(source), templates, delims, funcs, world, engine)
  {
    var h := Highest(source);
    if source.fromEnv.Some? {
      assert h.fromEnv == source.fromEnv;
    } else if source.fromFile.Some? {
      assert h.fromEnv.None? && h.fromFile == source.fromFile;
    } else if source.fromFileGlob.Some? {
      assert h.fromEnv.None? && h.fromFile.None? && h.fromFileGlob == source.fromFileGlob;
    } else if source.fromParameter.Some? {
      assert h.fromEnv.None? && h.fromFile.None? && h.fromFileGlob.None? && h.fromParameter == source.fromParameter;
    } else {
      assert h == TemplateSource(source.name, None, None, None, None, source.fromStdin);
    }
  }

  /** With no variant set, a load returns no names and no error and registers nothing. */
  lemma NoVariantLoadsNothing(source: TemplateSource, templates: map<string, Compiled>, delims: Delims,
                              funcs: FuncMap, world: World, engine: Engine)
    requires source.fromEnv.None? && source.fromFile.None? && source.fromFileGlob.None?
    requires source.fromParameter.None? && !source.fromStdin
    ensures LoadResult(source, templates, delims, funcs, world, engine) == Loaded([], templates, None)
  {
  }

  /**
   * The parameter, environment and stdin variants return exactly `[name]`, also when the text
   * does not parse; the error is the parse error, and stdin's read error is never reported.
   */
  lemma TextVariantsName(source: TemplateSource, templates: map<string, Compiled>, delims: Delims,
                         funcs: FuncMap, world: World, engine: Engine)
    requires source.fromFile.None? && source.fromFileGlob.None?
    requires source.fromEnv.Some? || source.fromParameter.Some? || source.fromStdin
    ensures var r := LoadResult(source, templates, delims, funcs, world, engine);
      var text := if source.fromEnv.Some? then Getenv(world.environ, source.fromEnv.value.key)
                  else if source.fromParameter.Some? then source.fromParameter.value.value
                  else world.stdin.data;
      && r.names == [source.name]
      && r.err == engine.parse(source.name, text, delims, funcs)
      && (r.err.Some? ==> r.templates == templates)
      && (r.err.None? ==> r.templates == templates[source.name := Compiled(text, delims, funcs, true)])
  {
  }

  /** The file variant returns no names and registers nothing when the file cannot be read. */
  lemma FileUnreadable(source: TemplateSource, templates: map<string, Compiled>, delims: Delims,
                       funcs: FuncMap, world: World, engine: Engine)
    requires source.fromEnv.None? && source.fromFile.Some? && source.fromFile.value.path !in world.files
    ensures LoadResult(source, templates, delims, funcs, world, engine) ==
            Loaded([], templates, Some(ReadFailed(source.fromFile.value.path)))
  {
  }

  /** The file-glob variant ignores the source's name. */
  lemma FileGlobIgnoresName(source: TemplateSource, other: string, templates: map<string, Compiled>,
                            delims: Delims, funcs: FuncMap, world: World, engine: Engine)
    requires source.fromEnv.None? && source.fromFile.None? && source.fromFileGlob.Some?
    ensures LoadResult(source, templates, delims, funcs, world, engine) ==
            LoadResult(source.(name := other), templates, delims, funcs, world, engine)
  {
  }

  /**
   * The glob loop succeeds iff every path loads; then each path is registered under its own
   * name with its file's text.
   */
  lemma {:induction false} GlobFilesAllLoaded(paths: seq<string>, templates: map<string, Compiled>, delims: Delims,
                                              funcs: FuncMap, world: World, engine: Engine)
    ensures GlobFiles(paths, templates, delims, funcs, world, engine).1.None? <==>
              forall p | p in paths :: FileLoads(p, delims, funcs, world, engine)
    ensures GlobFiles(paths, templates, delims, funcs, world, engine).1.None? ==>
              var t := GlobFiles(paths, templates, delims, funcs, world, engine).0;
              forall p | p in paths :: p in t && t[p] == Compiled(world.files[p], delims, funcs, true)
  {
    if |paths| > 0 {
      var r := FileResult(paths[0], paths[0], templates, delims, funcs, world, engine);
      assert r.err.None? <==> FileLoads(paths[0], delims, funcs, world, engine);
      assert forall p | p in paths :: p == paths[0] || p in paths[1..];
      if r.err.None? {
        GlobFilesAllLoaded(paths[1..], r.templates, delims, funcs, world, engine);
        GlobFilesKeeps(paths[1..], r.templates, delims, funcs, world, engine, paths[0]);
      } else {
        assert paths[0] in paths;
      }
    }
  }

  /** A successful glob loop keeps what was registered before it, for names it re-registers with the same text. */
  lemma {:induction false} GlobFilesKeeps(paths: seq<string>, templates: map<string, Compiled>, delims: Delims,
                                          funcs: FuncMap, world: World, engine: Engine, n: string)
    requires n in templates && (n in world.files ==> templates[n] == Compiled(world.files[n], delims, funcs, true))
    ensures var t := GlobFiles(paths, templates, delims, funcs, world, engine).0;
      n in t && (n in world.files ==> t[n] == Compiled(world.files[n], delims, funcs, true))
    ensures n !in paths ==> GlobFiles(paths, templates, delims, funcs, world, engine).0[n] == templates[n]
  {
    if |paths| > 0 {
      var r := FileResult(paths[0], paths[0], templates, delims, funcs, world, engine);
      if r.err.None? {
        GlobFilesKeeps(paths[1..], r.templates, delims, funcs, world, engine, n);
      }
    }
  }

  /**
   * No rollback: when path `i` is the first that fails, the templates of the paths before it
   * stay registered, the loader returns no names, and the error is that path's.
   */
  lemma {:induction false} GlobFilesNoRollback(paths: seq<string>, templates: map<string, Compiled>, delims: Delims,
                                               funcs: FuncMap, world: World, engine: Engine, i: nat)
    requires i < |paths| && !FileLoads(paths[i], delims, funcs, world, engine)
    requires forall j | 0 <= j < i :: FileLoads(paths[j], delims, funcs, world, engine)
    ensures var before := GlobFiles(paths[..i], templates, delims, funcs, world, engine);
      && before.1.None?
      && GlobFiles(paths, templates, delims, funcs, world, engine) ==
           (before.0, FileResult(paths[i], paths[i], before.0, delims, funcs, world, engine).err)
  {
    var r := FileResult(paths[0], paths[0], templates, delims, funcs, world, engine);
    if i > 0 {
      assert paths[..i][0] == paths[0] && paths[..i][1..] == paths[1..][..i - 1];
      assert forall j | 0 <= j < i - 1 :: paths[1..][j] == paths[j + 1];
      GlobFilesNoRollback(paths[1..], r.templates, delims, funcs, world, engine, i - 1);
    } else {
      assert paths[..0] == [];
    }
  }

  /** The text loader registers at most its one template, with the shared settings. */
  lemma TextRegisteredWith(name: string, text: string, templates: map<string, Compiled>, delims: Delims,
                           funcs: FuncMap, engine: Engine)
    ensures RegisteredWith(templates, TextResult(name, text, templates, delims, funcs, engine).templates, delims, funcs)
  {
  }

  /** Every loader registers its templates with the shared functions, the root's delimiters and `missingkey=zero`. */
  lemma {:induction false} GlobFilesRegisteredWith(paths: seq<string>, templates: map<string, Compiled>, delims: Delims,
                                                   funcs: FuncMap, world: World, engine: Engine)
    ensures RegisteredWith(templates, GlobFiles(paths, templates, delims, funcs, world, engine).0, delims, funcs)
  {
    if |paths| > 0 {
      var r := FileResult(paths[0], paths[0], templates, delims, funcs, world, engine);
      if r.err.None? {
        GlobFilesRegisteredWith(paths[1..], r.templates, delims, funcs, world, engine);
        RegisteredWithTrans(templates, r.templates, GlobFiles(paths, templates, delims, funcs, world, engine).0, delims, funcs);
      }
    }
  }

  /** A text or file loader registers at most its one template, with the shared settings. */
  lemma FileRegisteredWith(path: string, name: string, templates: map<string, Compiled>, delims: Delims,
                           funcs: FuncMap, world: World, engine: Engine)
    ensures RegisteredWith(templates, FileResult(path, name, templates, delims, funcs, world, engine).templates, delims, funcs)
  {
  }

  /** The same for a whole load. */
  lemma LoadRegisteredWith(source: TemplateSource, templates: map<string, Compiled>, delims: Delims,
                           funcs: FuncMap, world: World, engine: Engine)
    ensures RegisteredWith(templates, LoadResult(source, templates, delims, funcs, world, engine).templates, delims, funcs)
  {
    if source.fromEnv.Some? {
      TextRegisteredWith(source.name, Getenv(world.environ, source.fromEnv.value.key), templates, delims, funcs, engine);
    } else if source.fromFile.Some? {
      FileRegisteredWith(source.fromFile.value.path, source.name, templates, delims, funcs, world, engine);
    } else if source.fromFileGlob.Some? {
      var globbed := world.glob(source.fromFileGlob.value.glob);
      if globbed.Ok? {
        GlobFilesRegisteredWith(globbed.value, templates, delims, funcs, world, engine);
      }
    } else if source.fromParameter.Some? {
      TextRegisteredWith(source.name, source.fromParameter.value.value, templates, delims, funcs, engine);
    } else if source.fromStdin {
      TextRegisteredWith(source.name, world.stdin.data, templates, delims, funcs, engine);
    }
  }

  // ---- the loaders, registering into the shared root ----

  /** The parameter, environment and stdin loaders. */
  method LoadText(name: string, text: string, funcs: FuncMap, root: TemplateSet, engine: Engine)
    returns (names: seq<string>, err: Option<Error>)
    modifies root
    ensures root.delims == old(root.delims)
    ensures Loaded(names, root.templates, err) == TextResult(name, text, old(root.templates), root.delims, funcs, engine)
  {
    err := root.Register(name, text, funcs, engine);
    names := [name];
  }

  /** `TemplateSourceFile.Load`. */
  method LoadFile(path: string, name: string, funcs: FuncMap, root: TemplateSet, world: World, engine: Engine)
    returns (names: seq<string>, err: Option<Error>)
    modifies root
    ensures root.delims == old(root.delims)
    ensures Loaded(names, root.templates, err) == FileResult(path, name, old(root.templates), root.delims, funcs, world, engine)
  {
    if path !in world.files {
      return [], Some(ReadFailed(path));
    }
    names, err := LoadText(name, world.files[path], funcs, root, engine);
  }

  /** `TemplateSourceFileGlob.Load`: loads the matches one by one and returns the first error. */
  method LoadFileGlob(glob: string, funcs: FuncMap, root: TemplateSet, world: World, engine: Engine)
    returns (names: seq<string>, err: Option<Error>)
    modifies root
    ensures root.delims == old(root.delims)
    ensures Loaded(names, root.templates, err) == FileGlobResult(glob, old(root.templates), root.delims, funcs, world, engine)
  {
    var globbed := world.glob(glob);
    if globbed.Err? {
      return [], Some(globbed.error);
    }
    var paths := globbed.value;
    for i := 0 to |paths|
      invariant root.delims == old(root.delims)
      invariant GlobFiles(paths[i..], root.templates, root.delims, funcs, world, engine) ==
                GlobFiles(paths, old(root.templates), root.delims, funcs, world, engine)
    {
      assert paths[i..][0] == paths[i] && paths[i..][1..] == paths[i + 1..];
      var _, e := LoadFile(paths[i], paths[i], funcs, root, world, engine);
      if e.Some? {
        return [], e;
      }
    }
    assert paths[|paths|..] == [];
    return paths, None;
  }

  /** `TemplateSource.Load`. */
  method Load(source: TemplateSource, funcs: FuncMap, root: TemplateSet, world: World, engine: Engine)
    returns (names: seq<string>, err: Option<Error>)
    modifies root
    ensures root.delims == old(root.delims)
    ensures Loaded(names, root.templates, err) == LoadResult(source, old(root.templates), root.delims, funcs, world, engine)
  {
    if source.fromEnv.Some? {
      names, err := LoadText(source.name, Getenv(world.environ, source.fromEnv.value.key), funcs, root, engine);
    } else if source.fromFile.Some? {
      names, err := LoadFile(source.fromFile.value.path, source.name, funcs, root, world, engine);
    } else if source.fromFileGlob.Some? {
      names, err := LoadFileGlob(source.fromFileGlob.value.glob, funcs, root, world, engine);
    } else if source.fromParameter.Some? {
      names, err := LoadText(source.name, source.fromParameter.value.value, funcs, root, engine);
    } else if source.fromStdin {
      // the read error is overwritten by the parse result
      err := world.stdin.err;
      names, err := LoadText(source.name, world.stdin.data, funcs, root, engine);
    } else {
      names, err := [], None;
    }
  }
}
