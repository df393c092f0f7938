# render: variable resolution and template composition, modelled in Dafny

`render` is a command-line tool. It gathers *variables* from a list of *variable sources*:
- literal `key=value` parameters;
- data files in JSON, YAML or TOML;
- files slurped whole as strings, singly or by glob;
- the environment;
- standard input.

It merges them, in order, into one mapping. A source may nest its results under a namespace key.

It then loads named *templates* from a list of *template sources*: literal texts, files, globs of files, environment variables and standard input. All of them go into one registry, which shares a pair of delimiters and a function registry.

Finally it renders the templates in order. The output goes either to one stream, with a separator template written after each rendered template whose name is not the last one (so the output can end with a separator), or to one file per template under an output directory.

The function registry extends the template library with:
- encoders and decoders;
- `set` and `unset`;
- the template engine's own built-ins, re-exposed as callable functions;
- the higher-order functions `map`, `filter`, `mapFlip` and `filterFlip`, which look a function up by name and apply it to each element of a list.

## Modules

- `Wrappers`: `Option` and `Result`.
- `Strings`: `IndexByte`, which finds the first occurrence of a character, and `HasPrefix`.
- `Decimal`: `Itoa` and its injectivity.
- `Values`: the dynamically typed values, the map keys of YAML's generic maps, and the errors.
- `Io`: the outside world as a value. It holds file contents, standard input, the environment list and the path-glob function; `Drained` is the world once standard input has been read.
- `Vars`: flattening of decoded documents, the environment overlay, and the variable store (class `VarsStore`).
- `Files`: the slurped-files map and its `Get`, `GetBytes` and `Glob`.
- `VarsSources`: loading of one variable source, and of a list of them.
- `Funcs`: the function registry, `map`/`filter`, `set`/`unset`, the built-in wrappers and the registry assembly.
- `TemplateEngine`: the template library, kept opaque. It provides parse and execute, plus the shared registry (class `TemplateSet`).
- `TemplateSources`: loading of one template source.
- `Templates`: the template set (class `Templates`), with rendering to a stream or to a directory and loading from a configuration.
- `Params`: the command-line flag values that append variable and template sources.

Each operation that changes state is a method. It is proved equal to a specification function of the old state, and the properties the program promises are proved as lemmas about those functions.

## Model

| member | source | states |
|---|---|---|
| Vars.VarsStore.OverwriteWith | pkg/render/vars.go:33-37 | the store becomes the old store overlaid by the other mapping; the other's keys win and nothing else changes |
| Vars.Narrow | pkg/render/vars.go:67-77 | every string key keeps its value; every int key appears under its decimal text unless that text is already a string key, in which case the model keeps the string key's value (Go's iteration order decides) |
| Vars.NarrowKeys | pkg/render/vars.go:67-77 | the narrowed map's keys are exactly the texts of the generic map's keys |
| Vars.NarrowFrom | pkg/render/vars.go:67-77 | every narrowed entry comes from a key of the generic map with that text |
| Vars.Flatten | pkg/render/vars.go:42-88 | string-keyed maps keep their keys; lists keep their length; a generic map with only string/int keys becomes a string-keyed map over the keys' texts; a generic map with any other key, and every scalar, is returned unchanged |
| Vars.FlattenAnyMapEntry | pkg/render/vars.go:69-75 | each entry of a narrowed generic map is the flattening of the value under a key with that text |
| Vars.FlattenNormalizes | pkg/render/vars.go:39-88 | flattening leaves no `Vars` map and no string/int-keyed generic map reachable through maps and lists |
| Vars.FlattenFixesNormalized | pkg/render/vars.go:42-88 | a value already in that normal form is left exactly as it is |
| Vars.FlattenIdempotent | pkg/render/vars.go:42-88 | flattening twice equals flattening once |
| Vars.VarsStore.FromJSON | pkg/render/vars.go:118-127 | on a successful decode the store is overlaid with the document, unflattened; on failure the error is returned and the store is unchanged |
| Vars.VarsStore.FromYAML | pkg/render/vars.go:90-102 | on a successful decode the store is overlaid with the flattened document; on failure the error is returned and the store is unchanged |
| Vars.VarsStore.FromTOML | pkg/render/vars.go:104-116 | the same as for YAML, with the TOML decoder |
| Vars.VarsStore.FromEnvSingle | pkg/render/vars.go:129-131 | the key is set to the environment's value for it, or to "" when the environment has no such entry |
| Vars.VarsStore.FromEnv | pkg/render/vars.go:133-142 | the store becomes the environment overlay with that prefix |
| Vars.EnvOverlayKeys | pkg/render/vars.go:133-142 | a key is present afterwards iff it was present before or some environment entry has that key and the key has the prefix |
| Vars.EnvOverlayLastWins | pkg/render/vars.go:134-140 | for an entry whose key has the prefix and is not repeated later, its value is the one stored |
| Vars.EnvOverlayUntouched | pkg/render/vars.go:134-140 | a key that no matching entry names keeps its old value |
| Vars.EnvOverlayEmptyPrefix | pkg/render/vars.go:133-142 | with the empty prefix every environment key is copied |
| Vars.EnvOverlay | pkg/render/vars.go:133-142 | the environment entries in order, each whose key has the prefix setting that key to its value; `os.Environ` gives each key once, and the model, which admits repeated keys, lets the later entry win |
| Io.Getenv | pkg/render/vars.go:130 | `os.Getenv`: the value of the first entry with that key, or "" when no entry has it |
| Io.Drained | pkg/render/template_source.go:52 | the world once `ioutil.ReadAll(os.Stdin)` has read the stream to its end: a later read returns no bytes and no error; files, environment and glob are as they were |
| Files.Get | pkg/render/files.go:15-17 | succeeds iff the name is present and holds a string, and then returns that string; otherwise it is the type assertion's panic |
| Files.GetBytes | pkg/render/files.go:11-13 | fails exactly when `Get` does, with its panic; otherwise returns the bytes of that string, one per character, with the same length |
| Files.Glob | pkg/render/files.go:19-31 | a pattern that fails to compile gives its error; otherwise the result holds exactly the names the pattern matches, with their values |
| VarsSources.FirstUnreadable | pkg/render/vars_source.go:77-83 | the index of the first path that cannot be read; every earlier path is readable |
| VarsSources.FilesSlurpResult | pkg/render/vars_source.go:70-85 | a bad pattern gives a nil `Files` and the pattern error; the first unreadable match gives a nil `Files` and its read error; otherwise one string entry per match, keyed by its path |
| VarsSources.FileSlurpResult | pkg/render/vars_source.go:92-108 | the whole content, undecoded, as a string under the name; "-" reads standard input and returns its read error, any other path returns the read error of an unreadable file; on an error the target is unchanged |
| VarsSources.StdinResult | pkg/render/vars_source.go:112-128 | the JSON, YAML, TOML cascade over what standard input held; the read error is overwritten and never returned |
| VarsSources.FileResult | pkg/render/vars_source.go:134-153 | an unreadable file returns its read error and leaves the target unchanged; otherwise the cascade over its content |
| VarsSources.ReadsStdin | pkg/render/vars_source.go:92-113 | a source reads standard input exactly when the variant that acts is stdin, or a file slurp whose path is "-" |
| VarsSources.AfterLoad | pkg/render/vars_source.go:92-113 | the world the next source sees: drained after a source that reads standard input, also when the read failed; otherwise unchanged |
| VarsSources.FilesSlurpContents | pkg/render/vars_source.go:70-85 | slurping succeeds iff every globbed path is readable; the result then has exactly those paths as keys, each holding its file's text |
| VarsSources.FilesSlurpGet | pkg/render/vars_source.go:70-85 | after a successful slurp, `Files.Get` of a matched path returns that file's content and of any other name panics |
| VarsSources.LoadFilesSlurp | pkg/render/vars_source.go:70-85 | the loop's result is the files map, or nil files with the first read error |
| VarsSources.FilesSlurpFirst | pkg/render/vars_source.go:23-27 | a files-slurp source stores its result under its key, even when that result is nil files after an error, and returns the slurp's error |
| VarsSources.NamespaceInstalled | pkg/render/vars_source.go:28-36 | with a namespace key, loading goes into the existing string-keyed map under the key, or into a fresh one; the result is written back under the key and every other key is untouched |
| VarsSources.NoVariantIsNoOp | pkg/render/vars_source.go:28-55 | a source with no variant only installs its namespace and reports no error |
| VarsSources.EnvFirst | pkg/render/vars_source.go:37-40 | an environment variant takes precedence over all later variants and never fails |
| VarsSources.FileNext | pkg/render/vars_source.go:41-43 | with no environment variant, a file variant takes precedence over the rest |
| VarsSources.FileSlurpNext | pkg/render/vars_source.go:44-46 | a file-slurp variant comes next |
| VarsSources.ParameterNext | pkg/render/vars_source.go:47-50 | a parameter variant then sets its key to its string value and cannot fail |
| VarsSources.CascadeOrder | pkg/render/vars_source.go:134-153 | JSON is tried first, then YAML, then TOML; loading fails iff all three fail, with TOML's error, and the store is then unchanged |
| VarsSources.StdinReadErrorIgnored | pkg/render/vars_source.go:112-115 | a read error on standard input does not change what the stdin source does |
| VarsSources.LoadAllStops | pkg/render/vars.go:144-152 | once a source fails, later sources are not loaded |
| VarsSources.LoadAllAppend | pkg/render/vars.go:144-152 | loading a list followed by one more source is loading that source into the list's result, in the world the list leaves behind (standard input spent if a source read it) |
| VarsSources.LastParameterWins | pkg/render/vars.go:144-152 | a top-level parameter source at the end of a successful list decides its key's value |
| VarsSources.TwoFilesLaterWins | pkg/render/vars.go:144-152 | of two files defining the same key, the later one's value is kept |
| VarsSources.WorldAfterStdin | pkg/render/vars_source.go:95-96 | after a list of sources standard input is empty exactly when one of them read it (stdin, or a file slurp of "-"); files, environment and glob are unchanged |
| VarsSources.StdinReadOnce | pkg/render/vars_source.go:112-128 | a stdin source after a source that already read standard input decodes the empty text |
| VarsSources.StdinTwiceParameterBetween | pkg/render/vars_source.go:112-128 | stdin holding x=1, then the parameter x=5, then stdin again, ends with x=5 when the empty text decodes as an empty YAML document |
| VarsSources.Namespace | pkg/render/vars_source.go:28-36 | the string-keyed map already under the key, or a fresh empty map |
| VarsSources.Cascade | pkg/render/vars_source.go:112-128 | JSON, else YAML, else TOML merged into the target; when all three fail, the target and TOML's error |
| VarsSources.Dispatch | pkg/render/vars_source.go:37-54 | the first present of the environment, file, file-slurp, parameter and stdin variants acts; with none the target is unchanged |
| VarsSources.LoadResult | pkg/render/vars_source.go:22-55 | a files slurp is stored under the key first; otherwise the variants act at the top level or, with a key, in its namespace map written back under the key |
| VarsSources.LoadAllResult | pkg/render/vars.go:144-152 | the sources loaded in order into one store, stopping at the first error, each finding standard input spent if an earlier source read it |
| VarsSources.LoadCascade | pkg/render/vars_source.go:140-152 | the store and error are the three-decoder cascade's |
| VarsSources.LoadFile | pkg/render/vars_source.go:134-153 | an unreadable path fails with a read error; otherwise the content goes through the cascade |
| VarsSources.LoadFileSlurp | pkg/render/vars_source.go:92-108 | the whole file, or standard input for "-", is stored as one string under the name |
| VarsSources.LoadStdin | pkg/render/vars_source.go:112-128 | standard input's bytes go through the cascade |
| VarsSources.LoadParameter | pkg/render/vars_source.go:62-64 | the key is set to the value and nothing else changes |
| VarsSources.LoadEnv | pkg/render/vars_source.go:159-168 | the store becomes the environment overlay with the source's prefix |
| VarsSources.DispatchInto | pkg/render/vars_source.go:37-54 | the store and error are those of the first variant present |
| VarsSources.Load | pkg/render/vars_source.go:22-55 | the store and error are those of loading one source, namespace included |
| VarsSources.FromConfig | pkg/render/vars.go:144-152 | the store and error are those of loading the sources in order, stopping at the first error, with standard input read at most once |
| Funcs.FindFunc | pkg/render/funcs.go:158-167 | the template registry is consulted before the built-ins; an unknown name fails with "no such function: '<name>'" |
| Funcs.CallArgs | pkg/render/funcs.go:98-113 | the element goes last when the flip flag is set and first otherwise; the fixed arguments keep their order |
| Funcs.ReflectCall | pkg/render/funcs.go:113 | `reflect.Value.Call`: an argument list holding nil panics with "reflect: Call using zero Value argument" before the function runs; otherwise the function's outcome |
| Funcs.At | pkg/render/funcs.go:98-114 | the call for one element: the element put last when flipped and first otherwise, around the fixed arguments, then called reflectively |
| Funcs.Mapped | pkg/render/funcs.go:96-123 | the primary results of the element calls in order, or the first call's error |
| Funcs.Filtered | pkg/render/funcs.go:125-155 | the elements whose call returned the bool true, in order, or the first call's error |
| Funcs.MappedOk | pkg/render/funcs.go:96-123 | mapping succeeds iff every call succeeds, and the output then holds each call's primary result, in order |
| Funcs.MappedFirstError | pkg/render/funcs.go:114-119 | the first failing call's error is returned and later elements are not looked at |
| Funcs.FilteredFirstError | pkg/render/funcs.go:143-148 | the first failing call's error is returned and later elements are not looked at |
| Funcs.FilteredIsKeepWhere | pkg/render/funcs.go:125-155 | filtering fails exactly when mapping fails; on success it keeps exactly the elements whose call returned boolean true |
| Funcs.KeepWhereMembers | pkg/render/funcs.go:149-152 | every element flagged true is kept, and everything kept is an element flagged true |
| Funcs.FilteredIdempotent | pkg/render/funcs.go:125-155 | filtering a filtered list again gives the same list |
| Funcs.UnknownNameFails | pkg/render/funcs.go:169-173 | a higher-order call with an unknown function name fails with the not-found error |
| Funcs.MapCall | pkg/render/funcs.go:169-194 | `map`/`mapFlip` with a native function whose reflective calls never fail returns one result per element, with the element placed first or last |
| Funcs.FilterCall | pkg/render/funcs.go:178-203 | `filter`/`filterFlip` under the same condition return exactly the elements whose call returned boolean true |
| Funcs.NilArgumentPanics | pkg/render/funcs.go:98-113 | a nil fixed argument, or a nil element reached after successful calls, makes `map`, `filter` and the `Flip` variants fail with the zero-Value panic |
| Funcs.FillArgs | pkg/render/funcs.go:98-107 | the fresh argument buffer holds the fixed arguments in order, around an empty element slot that is last when the flip flag is set and first otherwise |
| Funcs.ReflectMap | pkg/render/funcs.go:96-123 | the loop over a reused argument buffer, calling by reflection, computes the map specification |
| Funcs.ReflectFilter | pkg/render/funcs.go:125-155 | the loop, calling by reflection, computes the filter specification |
| Funcs.AsEmptyInterfaceSlice | pkg/render/funcs.go:84-94 | a list is returned as it is, and an indexable value element by element |
| Funcs.AsSlice | pkg/render/funcs.go:84-94 | a list as it is, a string as its bytes, an empty or nil map as no elements; a non-empty map and a value without length panic as reflection does |
| Funcs.CallHigherOrder | pkg/render/funcs.go:169-203 | the dispatch computes the higher-order specification, error paths included |
| Funcs.CallWithFunc | pkg/render/funcs.go:174-175 | after the lookup, splitting off the last argument as the list computes the specification of the rest of the call |
| Funcs.RunHigherOrder | pkg/render/funcs.go:175 | the element loop chosen by the entry (map or filter, flipped or not) computes its specification |
| Funcs.InvokeNative | pkg/render/funcs.go:169-203 | a higher-order call whose name finds a native function returns the element loop's list, or nil and the loop's error |
| Funcs.Invoke | pkg/render/funcs.go:168-203 | a native entry is called directly; a higher-order entry needs a string name first, looks it up and fails with the lookup's error |
| Funcs.WithFunc | pkg/render/funcs.go:173-175 | with no argument after the name it panics on the slice bounds; otherwise the last argument is the list and the rest are the fixed arguments |
| Funcs.RunElements | pkg/render/funcs.go:175 | the filter or map loop, flipped or not, over the found entry; its list on success and nil with the error otherwise |
| Funcs.SetPairsOk | pkg/render/funcs.go:70-75 | `set` succeeds iff the arguments are pairs whose keys are all strings |
| Funcs.SetPairsLastWins | pkg/render/funcs.go:70-75 | a key set by a pair that no later pair repeats holds that pair's value |
| Funcs.SetPairsKeeps | pkg/render/funcs.go:70-75 | keys that no pair names keep their value |
| Funcs.SetPairsKeys | pkg/render/funcs.go:70-75 | every new key comes from some pair |
| Funcs.Dict.Set | pkg/render/funcs.go:70-75 | updates the map in place pair by pair, keeping the writes made before a panic |
| Funcs.Dict.Unset | pkg/render/funcs.go:76-81 | the map loses exactly the given keys |
| Funcs.DictArg | pkg/render/funcs.go:70-76 | the first argument must be a string-keyed map |
| Funcs.StringArgs | pkg/render/funcs.go:76 | the remaining arguments must all be strings |
| Funcs.UnsetCallRemoves | pkg/render/funcs.go:76-81 | `unset` removes every listed key and keeps every other entry |
| Funcs.SetPairs | pkg/render/funcs.go:70-75 | the pairs written left to right; a non-string key or a key without a value panics, keeping the writes before it |
| Funcs.SetCall | pkg/render/funcs.go:70-75 | `set`: the first argument must be a dictionary; the pairs that follow are written into it, and the dictionary is returned; a bad dictionary or a failed pair returns the error and Nil |
| Funcs.UnsetCall | pkg/render/funcs.go:76-81 | `unset`: the first argument must be a dictionary and every other argument a string; the dictionary without those keys is returned, otherwise the error and Nil |
| Funcs.RenderFuncs | pkg/render/funcs.go:20-82 | the registry has exactly the eight codec names plus `set` and `unset` |
| Funcs.SegmentsPrefix | pkg/render/funcs.go:223-225 | the argument list text for fewer arguments is a prefix of the one for more |
| Funcs.SegmentAt | pkg/render/funcs.go:223-225 | the i-th slice of the argument list text is " (index .Args i)" |
| Funcs.WrapperTextShape | pkg/render/funcs.go:222-226 | the wrapper text is "{{return (" + name, then the argument segments, then ")}}" |
| Funcs.BuiltinCall | pkg/render/funcs.go:220-230 | a builtin wrapper runs the wrapper text for its name and argument count on the arguments |
| Funcs.BuildWrapperText | pkg/render/funcs.go:222-226 | the loop builds exactly that wrapper text |
| Funcs.ExtractBuiltinFuncs | pkg/render/funcs.go:206-256 | exactly the 18 built-in names are registered, each to its wrapper |
| Funcs.CopyInto | pkg/render/funcs.go:265-267 | after the copy loop the keys are the union, render's entries win, and every other entry is kept |
| Funcs.AddHigherOrderFuncs | pkg/render/funcs.go:169-203 | the four assignments add exactly those entries, replacing any entry of the same name |
| Funcs.HigherOrderFuncs | pkg/render/funcs.go:169-203 | exactly the four names map, filter, mapFlip and filterFlip, each bound to the higher-order entry of its kind (map or filter, flipped or not) |
| Funcs.RegistryLayers | pkg/render/funcs.go:258-270 | the keys are the library's minus the five blocked names, plus render's and the four higher-order names; a blocked name that render does not define is absent; later layers override earlier ones and other library entries are untouched |
| Funcs.Registry | pkg/render/funcs.go:258-270 | the library minus the blocked names, then render's functions, then the four higher-order entries, each layer overriding the one before |
| Funcs.BuildFuncs | pkg/render/funcs.go:258-270 | the deletions, the copy loop and the higher-order assignments build exactly that layered registry |
| TemplateEngine.Registered | pkg/render/template_source.go:42-47 | the result is the parse outcome; on success the name is bound to the text with the shared delimiters, the functions and missing-key-zero; on failure the registry is unchanged |
| TemplateEngine.TemplateSet.constructor | pkg/render/templates.go:87-88 | a new empty registry with the configured delimiters |
| TemplateEngine.TemplateSet.Register | pkg/render/template_source.go:43-45 | registers one named template and keeps the delimiters |
| TemplateSources.Highest | pkg/render/template_source.go:19-36 | keeps only the first present variant and the name |
| TemplateSources.LowerVariantsIgnored | pkg/render/template_source.go:19-36 | loading looks only at the first present variant |
| TemplateSources.NoVariantLoadsNothing | pkg/render/template_source.go:35 | a source with no variant registers nothing and reports no error |
| TemplateSources.TextVariantsName | pkg/render/template_source.go:42-57 | parameter, stdin and environment sources report their own name even when parsing fails, and register the text under it on success |
| TemplateSources.FileUnreadable | pkg/render/template_source.go:82-86 | an unreadable file yields no names and a read error |
| TemplateSources.FileGlobIgnoresName | pkg/render/template_source.go:63-76 | a glob source's own name plays no part |
| TemplateSources.GlobFilesAllLoaded | pkg/render/template_source.go:68-75 | a glob succeeds iff every matched file loads, and each file is then registered under its path |
| TemplateSources.GlobFilesKeeps | pkg/render/template_source.go:68-75 | registrations are only added or replaced by the file of the same name; names outside the paths keep their template |
| TemplateSources.GlobFilesNoRollback | pkg/render/template_source.go:68-74 | at the first failing file, the earlier files stay registered |
| TemplateSources.GlobFilesRegisteredWith | pkg/render/template_source.go:68-75 | every template the glob adds uses the shared delimiters and functions |
| TemplateSources.LoadRegisteredWith | pkg/render/template_source.go:19-36 | every template any source adds uses the shared delimiters and functions |
| TemplateSources.LoadText | pkg/render/template_source.go:42-47 | the registry and names are the text source's specification |
| TemplateSources.LoadFile | pkg/render/template_source.go:82-98 | the registry and names are the file source's specification |
| TemplateSources.LoadFileGlob | pkg/render/template_source.go:63-76 | the loop computes the glob source's specification |
| TemplateSources.Load | pkg/render/template_source.go:19-36 | the registry and names are the source's specification |
| TemplateSources.TextResult | pkg/render/template_source.go:42-57 | the text registered under the name, the names `[name]` and the parse error |
| TemplateSources.FileResult | pkg/render/template_source.go:82-98 | an unreadable file gives no names and a read error; otherwise the file's text as a text source |
| TemplateSources.GlobFiles | pkg/render/template_source.go:68-75 | the matched files loaded in order under their paths, stopping at the first failure |
| TemplateSources.FileGlobResult | pkg/render/template_source.go:63-76 | a bad pattern returns no names and its error; otherwise the matches are loaded as file sources named by their paths, returning the paths on success and no names, with the templates registered so far, on the first failure |
| TemplateSources.ReadsStdin | pkg/render/template_source.go:51-52 | a source reads standard input exactly when stdin is the variant that acts |
| TemplateSources.AfterLoad | pkg/render/template_source.go:51-52 | the world the next source sees: drained after a source that reads standard input, also when the read failed; otherwise unchanged |
| TemplateSources.LoadResult | pkg/render/template_source.go:19-36 | the first present of the environment, file, glob, parameter and stdin variants acts; with none nothing is registered |
| Templates.RenderShape | pkg/render/templates.go:33-49 | the output starts with a template; outputs come in name order, excluded names skipped; a separator follows a name's output only when that name is not the last |
| Templates.RenderedAll | pkg/render/templates.go:34-49 | after a successful render every non-excluded name has its output |
| Templates.NilExcludeRendersAll | pkg/render/templates.go:36-39 | with no exclusion filter, every name is rendered |
| Templates.TrailingSeparator | pkg/render/templates.go:43-48 | with names "a","b" and "b" excluded, the output ends with a separator |
| Templates.RenderFrom | pkg/render/templates.go:34-49 | from name `i` on: a name without a template panics, an excluded name is skipped, a rendered name is followed by the separator unless it is the last name, and the first error stops |
| Templates.RenderResult | pkg/render/templates.go:24-51 | a separator that does not parse fails before any output; otherwise the render from the first name |
| Templates.RenderToDirOnlyOutputs | pkg/render/templates.go:53-79 | only output paths of non-excluded names are touched on the disk |
| Templates.RenderToDirWrites | pkg/render/templates.go:59-72 | after success each non-excluded name's path holds its output, unless a later name writes the same path |
| Templates.RenderToDirFailures | pkg/render/templates.go:54-76 | a failed run stops at a first failing name `k` (missing template, directory, open or execute) and returns its error; every earlier rendered name whose path no name up to `k` reuses keeps its output on the disk; at `k` an open failure leaves the old file removed and an execute failure keeps the partial output; no name after `k` is touched (the result is that of the names cut after `k`) |
| Templates.RenderFailure | pkg/render/templates.go:34-49 | a failed render stops at a first failing name `k` (missing template, execution, or the separator after it) and returns its error; every earlier step went through, nothing of a name after `k` is written, and the last write is `k`'s output or separator (none when its template is missing) |
| Templates.RenderResultFailure | pkg/render/templates.go:24-49 | a failed `Render` failed either at the separator's parse, with no output, or at a first failing name as above |
| Templates.RenderToDirFrom | pkg/render/templates.go:53-79 | each non-excluded name: its directory made, its old file removed, the file opened and the output written, stopping at the first error |
| Templates.LoadIndependent | pkg/render/template_source.go:19-36 | the names and the error of loading a source do not depend on what is already registered |
| Templates.LoadAllNames | pkg/render/templates.go:90-97 | on success the names are all sources' names in order |
| Templates.LoadAllFailure | pkg/render/templates.go:91-97 | on failure there is a first failing source: the names are those of the sources before it, the error is its own in the world they leave, and no later source was loaded |
| Templates.StdinTemplatesReadOnce | pkg/render/template_source.go:51-57 | of two stdin sources in a row, the first parses what standard input held and the second the empty text |
| Templates.LoadAll | pkg/render/templates.go:90-97 | the sources loaded in order into one registry, names appended, stopping at the first failure whose names are dropped; standard input is spent once read |
| Templates.LoadSources | pkg/render/templates.go:91-97 | the loop computes the in-order loading specification |
| Templates.Templates.constructor | pkg/render/templates.go:12-18 | the template set holds the given registry, functions, variables, names and filter |
| Templates.Templates.Render | pkg/render/templates.go:24-51 | the separator is compiled first, then each name is rendered in turn, a separator after each rendered name that is not the last, stopping at the first error |
| Templates.Templates.RenderToDir | pkg/render/templates.go:53-79 | each non-excluded template goes to its own path, stopping at the first error |
| Templates.Templates.FromConfig | pkg/render/templates.go:81-98 | an exclusion pattern that fails to compile leaves the set unchanged; otherwise there is a fresh registry with the configured delimiters, and the names are those loaded so far |
| Params.ParseVarParameter | cmd/render/params.go:30-43 | refused iff there is no non-empty key before the first '='; otherwise key and value rebuild the flag value and the key has no '=' |
| Params.ParseVarFileSlurp | cmd/render/params.go:70-83 | the same rule for name and path |
| Params.ParseVarFile | cmd/render/params.go:45-68 | never refused; the key is empty iff the value is unnamed; the path rests after the key, and "-" means stdin |
| Params.FileSource | cmd/render/params.go:53-64 | the path "-" selects stdin and any other path a file |
| Params.ParseVarEnv | cmd/render/params.go:85-100 | any '=' splits, even at the start; otherwise the whole value is the prefix with an empty key |
| Params.VarsRoundTrip | cmd/render/params.go:30-83 | joining a key without '=' to a value and parsing gives them back |
| Params.EnvRoundTrip | cmd/render/params.go:85-100 | the same for environment flags, with the empty key allowed |
| Params.ParseTemplateParameter | cmd/render/params.go:116-131 | an unnamed text is named "__param_<count>" and keeps all of its text; a named one splits at the first '=' |
| Params.TemplateFileParts | cmd/render/params.go:134-138 | an unnamed value is both the name and the path; otherwise it splits at the first '=' |
| Params.ParseTemplateFileAsWritten | cmd/render/params.go:133-155 | as written: an unnamed value is rewritten to `value=value`, a stdin source only when the whole rewritten value is "-", otherwise a file source split at the '=' |
| Params.TemplateRoundTrip | cmd/render/params.go:116-138 | joining a name and a text and parsing gives them back |
| Params.TemplateFileAsWrittenParts | cmd/render/params.go:133-155 | as written, the name is as for the path split, only the file or stdin variant is set, and a file's path is the split's path |
| Params.TemplateFileStdinUnreachable | cmd/render/params.go:139-144 | as written, no value ever selects stdin |
| Params.TemplateFileDashAsWritten | cmd/render/params.go:133-155 | as written, "-" gives a file source named "-" with path "-" |
| Params.ParseTemplateFile | cmd/render/params.go:133-155 | the corrected parser: the path "-" selects stdin and any other path a file |
| Params.TemplateFileCorrection | cmd/render/params.go:133-155 | when the path is not "-", the corrected parser gives the same source as the code |
| Params.TemplateFileDash | cmd/render/params.go:139-144 | corrected, "-" reads the template named "-" from standard input |
| Params.ParseTemplateFileGlob | cmd/render/params.go:157-166 | the pattern is both the name and the glob |
| Params.VarsSourceList.SetParameter | cmd/render/params.go:30-43 | a refused value leaves the list unchanged and returns the syntax error; an accepted one is appended |
| Params.VarsSourceList.SetFile | cmd/render/params.go:45-68 | appends the parsed file or stdin source |
| Params.VarsSourceList.SetFileSlurp | cmd/render/params.go:70-83 | a refused value leaves the list unchanged; an accepted one is appended |
| Params.VarsSourceList.SetEnvPrefix | cmd/render/params.go:85-100 | appends the parsed environment source |
| Params.TemplateSourceList.SetParameter | cmd/render/params.go:116-131 | appends the parsed source, named after the list's length when it is unnamed |
| Params.TemplateSourceList.SetFile | cmd/render/params.go:133-155 | appends the corrected parse of the value |
| Params.TemplateSourceList.SetFileGlob | cmd/render/params.go:157-166 | appends the glob source |

## Where the code and its help text differ

- The help of `-set-separator` calls it a template printed *between* templates (cmd/render/main.go:55). The code writes it after every non-excluded template that is not the last *name* (pkg/render/templates.go:43). The model follows the code: `Templates.TrailingSeparator` shows a trailing separator when the last name is excluded.
- The help of `-var-env` speaks of variables matching a prefix (cmd/render/main.go:40). The code does not type-check as written:
  - `VarsSourceEnv` has a `Glob` field, which it compiles and then passes to `fromEnv(prefix string)` (pkg/render/vars_source.go:155-167);
  - the flag parser fills a `Prefix` field that does not exist (cmd/render/params.go:94).

  The model takes the prefix reading that `fromEnv` implements. The empty prefix copies every entry, so the glob-compile error branch does not arise.
- The help of `-template-file` promises stdin for "-" (cmd/render/main.go:44); the parser never selects it (see Findings).

## Findings

| source | as written | input that shows it | evidently intended | confidence | as-written member | corrected member |
|---|---|---|---|---|---|---|
| cmd/render/params.go:139-144 | after an unnamed value is rewritten to `value=value`, the stdin test compares the whole rewritten value with "-" | `-template-file -` gives a file source named "-" with path "-" | the path "-" reads the template from standard input, as `-var-file -` does | high (not executed) | Params.ParseTemplateFileAsWritten, Params.TemplateFileAsWrittenParts, Params.TemplateFileStdinUnreachable, Params.TemplateFileDashAsWritten | Params.ParseTemplateFile, Params.TemplateFileCorrection, Params.TemplateFileDash, used by Params.TemplateSourceList.SetFile |

## Left out

- I/O is a value. File contents, standard input, the environment list and the path-glob function are fields of `Io.World`. Output files are a map from path to contents, and `Templates` records rendered output as a list of pieces instead of writing to a stream.
- The JSON, YAML and TOML decoders, and the encoders `toJSON`, `toYAML`, `toTOML`, `toCSV` and `fromCSV`, are opaque functions. Their formats are not modelled.
- The template library, text/template, is opaque: parse and execute are parameters. Its template language, `{{define}}`/`{{template}}`, sharing of parse trees and the rule that an empty re-parse does not replace a template are not modelled. Registering a name again replaces it.
- The sprig function library is opaque: it is a parameter of `Funcs.BuildFuncs`.
- The glob syntax is opaque: a pattern compiler is a parameter, and the exclusion filter is the compiled matcher.
- Funcs.Invoke: nested higher-order calls are bounded by a depth parameter. A call from a higher-order entry into another higher-order entry at depth 0 fails with a "nesting depth exceeded" panic. This bound is the model's, not the program's.
- Funcs.CallHigherOrder: of reflection's panics only the zero-Value argument (a nil) is modelled; those on wrong argument counts and types are not, and neither are typed slices other than lists. Strings in `AsSlice` stand for byte slices, and their elements become `Int` values: the `uint8` element type is lost, so a function applied to them sees integers, not bytes.
- Funcs.MapCall, Funcs.FilterCall, Funcs.ReflectMap, Funcs.ReflectFilter: the same holds; an argument count or type the function does not accept is up to the opaque function.
- Funcs.SetCall: the map is updated in the caller's variables in place in Go. The model returns a new map, so aliasing through the variable store is not captured. A nil map argument is a `BadArgs` error in the model.
- An error outcome carries `Nil` where Go returns a nil slice or map.
- Templates.Templates.RenderToDir:
  - `path.Join`/`path.Dir` and `os.MkdirAll` are abstracted as the file-system parameter's `join` and `mkdirAll`;
  - the error from `os.Remove` is ignored, as in the code, and the model assumes the removal succeeds: when it fails and opening succeeds, Go's `OpenFile` without `O_TRUNC` overwrites only a prefix of the old file, which is not modelled;
  - file modes are not modelled.
- Funcs.BuildFuncs builds a fresh registry. The Go code mutates the shared sprig map that `sprig.TxtFuncMap` returns, and that aliasing is not captured.
- `Vars.Save`, `Config` and its persistence (pkg/render/config.go), and the `main` program (cmd/render/main.go) are not part of this model. Neither are the flag values' `String` methods or the config-path flag.
- Vars.Narrow: when a string key and an int key have the same text (the key "1" and the key 1), Go's unspecified map iteration order decides which value survives; the model always keeps the string key's value, one of the outcomes Go allows.
- Files.Get: the panic message does not name the dynamic type that Go's message names.
- Standard input is one stream, spent by the first source that reads it; a failed read also counts as spent. Within the variable sources and within the template sources this is modelled (`VarsSources.LoadAllResult`, `Templates.LoadAll`). Between the two phases the stream is shared by `main` (cmd/render/main.go), which is not part of this model: `Templates.Templates.FromConfig` takes the world as the variable phase left it from its caller.
- Go's integer widths do not arise. The only integers in the core are lengths and indices, and YAML integer keys, which are modelled as unbounded.
- Strings are sequences of characters, each standing for one byte. There is no Unicode handling.
