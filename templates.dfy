/**
 * `Templates`: the loaded template set with its names in order, rendered one after another
 * to a single writer with a separator between them, or each to its own file in a directory.
 */
module Templates {
  import opened Wrappers
  import opened Values
  import opened Io
  import opened Funcs
  import opened TemplateEngine
  import opened TemplateSources

  /** One write to the output: the text template `index` of the names produced, or a separator after it. */
  datatype Piece = Out(index: nat, name: string, text: string) | Sep(after: nat, text: string)

  /** Whether the exclusion pattern, if any, matches the name. */
  predicate Excluded(exclude: Option<Matcher>, name: string)
  {
    exclude.Some? && exclude.value(name)
  }

  /** The separator, parsed on its own with the default delimiters and the shared functions. */
  function SeparatorSet(separator: string, funcs: FuncMap): map<string, Compiled>
  {
    map["separator" := Compiled(separator, DefaultDelims, funcs, true)]
  }

  /** `pieces` written before a result. */
  function Prefixed(pieces: seq<Piece>, r: (seq<Piece>, Option<Error>)): (seq<Piece>, Option<Error>)
  {
    (pieces + r.0, r.1)
  }

  /** Writing `a` and then `b` before a result is writing `a + b` before it. */
  lemma PrefixedPrefixed(a: seq<Piece>, b: seq<Piece>, r: (seq<Piece>, Option<Error>))
    ensures Prefixed(a, Prefixed(b, r)) == Prefixed(a + b, r)
    ensures Prefixed(a, ([], r.1)) == (a, r.1)
  {
    assert a + (b + r.0) == (a + b) + r.0;
    assert a + [] == a;
  }

  /** The panic of using the template a name without one looks up (`Lookup` returns nil). */
  const NilLookup := Panic("invalid memory address or nil pointer dereference")

  /** The render loop from index `i` of the names on. */
  function RenderFrom(names: seq<string>, i: nat, templates: map<string, Compiled>, exclude: Option<Matcher>,
                      vars: map<string, Value>, sep: map<string, Compiled>, engine: Engine): (seq<Piece>, Option<Error>)
    decreases |names| - i
  {
    if i >= |names| then ([], None)
    else if names[i] !in templates then ([], Some(NilLookup))
    else if Excluded(exclude, names[i]) then RenderFrom(names, i + 1, templates, exclude, vars, sep, engine)
    else
      var o := engine.exec(templates, names[i], vars);
      if o.err.Some? then ([Out(i, names[i], o.written)], o.err)
      else if i < |names| - 1 then
        var s := engine.exec(sep, "separator", vars);
        if s.err.Some? then ([Out(i, names[i], o.written), Sep(i, s.written)], s.err)
        else Prefixed([Out(i, names[i], o.written), Sep(i, s.written)],
                      RenderFrom(names, i + 1, templates, exclude, vars, sep, engine))
      else Prefixed([Out(i, names[i], o.written)], RenderFrom(names, i + 1, templates, exclude, vars, sep, engine))
  }

  /** `Templates.Render`: a separator that does not parse fails before anything is written. */
  function RenderResult(names: seq<string>, templates: map<string, Compiled>, exclude: Option<Matcher>,
                        vars: map<string, Value>, separator: string, funcs: FuncMap, engine: Engine)
    : (seq<Piece>, Option<Error>)
  {
    var perr := engine.parse("separator", separator, DefaultDelims, funcs);
    if perr.Some? then ([], perr)
    else RenderFrom(names, 0, templates, exclude, vars, SeparatorSet(separator, funcs), engine)
  }

  /**
   * Where separators go: each follows, immediately, the output of the template at the index it
   * names, which is not the last index; and every template output at a non-last index is
   * followed by its separator, unless it is the failing last write of a failed render.
   */
  ghost predicate SeparatorsPlaced(ps: seq<Piece>, n: nat, failed: bool)
  {
    && (forall j | 0 <= j < |ps| && ps[j].Sep? ::
          j > 0 && ps[j - 1].Out? && ps[j - 1].index == ps[j].after && ps[j].after < n - 1)
    && (forall j | 0 <= j < |ps| && ps[j].Out? && ps[j].index < n - 1 && (j + 1 < |ps| || !failed) ::
          j + 1 < |ps| && ps[j + 1].Sep? && ps[j + 1].after == ps[j].index)
  }

  /** The template pieces come from names at or after `i`, in increasing order, none excluded. */
  ghost predicate OutsOrdered(ps: seq<Piece>, names: seq<string>, i: nat, exclude: Option<Matcher>)
  {
    && (forall j | 0 <= j < |ps| && ps[j].Out? ::
          i <= ps[j].index < |names| && ps[j].name == names[ps[j].index] && !Excluded(exclude, ps[j].name))
    && (forall j, k | 0 <= j < k < |ps| && ps[j].Out? && ps[k].Out? :: ps[j].index < ps[k].index)
  }

  /** The output never starts with a separator, and separators sit exactly where the loop puts them. */
  lemma {:induction false} RenderShape(names: seq<string>, i: nat, templates: map<string, Compiled>, exclude: Option<Matcher>,
                                       vars: map<string, Value>, sep: map<string, Compiled>, engine: Engine)
    ensures var (ps, err) := RenderFrom(names, i, templates, exclude, vars, sep, engine);
      && (|ps| > 0 ==> ps[0].Out?)
      && SeparatorsPlaced(ps, |names|, err.Some?)
      && OutsOrdered(ps, names, i, exclude)
    decreases |names| - i
  {
    if i < |names| && names[i] in templates {
      var rest := RenderFrom(names, i + 1, templates, exclude, vars, sep, engine);
      RenderShape(names, i + 1, templates, exclude, vars, sep, engine);
      if Excluded(exclude, names[i]) {
        OutsOrderedFrom(rest.0, names, i, exclude);
      } else {
        var o := engine.exec(templates, names[i], vars);
        if o.err.Some? {
          FailedHeadShape([Out(i, names[i], o.written)], names, i, exclude);
        } else if i < |names| - 1 && engine.exec(sep, "separator", vars).err.Some? {
          FailedHeadShape([Out(i, names[i], o.written), Sep(i, engine.exec(sep, "separator", vars).written)], names, i, exclude);
        } else {
          var head := if i < |names| - 1 then [Out(i, names[i], o.written), Sep(i, engine.exec(sep, "separator", vars).written)]
                      else [Out(i, names[i], o.written)];
          PrependShape(head, rest.0, rest.1.Some?, names, i, exclude);
          assert RenderFrom(names, i, templates, exclude, vars, sep, engine) == (head + rest.0, rest.1);
        }
      }
    }
  }

  /** Pieces from names after `i` are also pieces from names at or after `i`. */
  lemma OutsOrderedFrom(ps: seq<Piece>, names: seq<string>, i: nat, exclude: Option<Matcher>)
    requires OutsOrdered(ps, names, i + 1, exclude)
    ensures OutsOrdered(ps, names, i, exclude)
  {
  }

  /** A render that fails at template `i`'s output or separator leaves that output (and separator) as its last pieces. */
  lemma FailedHeadShape(head: seq<Piece>, names: seq<string>, i: nat, exclude: Option<Matcher>)
    requires i < |names| && !Excluded(exclude, names[i])
    requires |head| >= 1 && head[0] == Out(i, names[i], head[0].text)
    requires |head| == 1 || (|head| == 2 && i < |names| - 1 && head[1].Sep? && head[1].after == i)
    ensures (|head| > 0 ==> head[0].Out?) && SeparatorsPlaced(head, |names|, true) && OutsOrdered(head, names, i, exclude)
  {
  }

  /** Putting one template's output (and its separator, if not last) in front of a well-shaped rest keeps the shape. */
  lemma PrependShape(head: seq<Piece>, rest: seq<Piece>, failed: bool, names: seq<string>, i: nat, exclude: Option<Matcher>)
    requires i < |names| && !Excluded(exclude, names[i])
    requires |head| >= 1 && head[0].Out? && head[0].index == i && head[0].name == names[i]
    requires |head| == (if i < |names| - 1 then 2 else 1)
    requires |head| == 2 ==> head[1].Sep? && head[1].after == i
    requires |rest| > 0 ==> rest[0].Out?
    requires SeparatorsPlaced(rest, |names|, failed) && OutsOrdered(rest, names, i + 1, exclude)
    ensures SeparatorsPlaced(head + rest, |names|, failed) && OutsOrdered(head + rest, names, i, exclude)
  {
    PrependSeparators(head, rest, failed, names, i);
    PrependOrdered(head, rest, names, i, exclude);
  }

  /** The separator half of `PrependShape`. */
  lemma PrependSeparators(head: seq<Piece>, rest: seq<Piece>, failed: bool, names: seq<string>, i: nat)
    requires i < |names|
    requires |head| >= 1 && head[0].Out? && head[0].index == i
    requires |head| == (if i < |names| - 1 then 2 else 1)
    requires |head| == 2 ==> head[1].Sep? && head[1].after == i
    requires |rest| > 0 ==> rest[0].Out?
    requires SeparatorsPlaced(rest, |names|, failed)
    ensures SeparatorsPlaced(head + rest, |names|, failed)
  {
    var ps := head + rest;
    var h := |head|;
    forall j | 0 <= j < |ps| && ps[j].Sep?
      ensures j > 0 && ps[j - 1].Out? && ps[j - 1].index == ps[j].after && ps[j].after < |names| - 1
    {
      if j >= h {
        assert ps[j] == rest[j - h];
        assert j - h > 0 by { assert rest[0].Out?; }
        assert ps[j - 1] == rest[j - 1 - h];
      }
    }
    forall j | 0 <= j < |ps| && ps[j].Out? && ps[j].index < |names| - 1 && (j + 1 < |ps| || !failed)
      ensures j + 1 < |ps| && ps[j + 1].Sep? && ps[j + 1].after == ps[j].index
    {
      if j >= h {
        assert ps[j] == rest[j - h];
        if j + 1 < |ps| { assert ps[j + 1] == rest[j + 1 - h]; }
      }
    }
  }

  /** The ordering half of `PrependShape`. */
  lemma PrependOrdered(head: seq<Piece>, rest: seq<Piece>, names: seq<string>, i: nat, exclude: Option<Matcher>)
    requires i < |names| && !Excluded(exclude, names[i])
    requires |head| >= 1 && head[0].Out? && head[0].index == i && head[0].name == names[i]
    requires |head| <= 2 && (|head| == 2 ==> head[1].Sep?)
    requires OutsOrdered(rest, names, i + 1, exclude)
    ensures OutsOrdered(head + rest, names, i, exclude)
  {
    var ps := head + rest;
    var h := |head|;
    forall j | 0 <= j < |ps| && ps[j].Out?
      ensures i <= ps[j].index < |names| && ps[j].name == names[ps[j].index] && !Excluded(exclude, ps[j].name)
    {
      if j >= h {
        assert ps[j] == rest[j - h];
      }
    }
    forall j, k | 0 <= j < k < |ps| && ps[j].Out? && ps[k].Out?
      ensures ps[j].index < ps[k].index
    {
      assert k >= h;
      assert ps[k] == rest[k - h];
      if j >= h {
        assert ps[j] == rest[j - h];
      }
    }
  }

  /** Whether the template at index `k` of the names has its output among the pieces. */
  ghost predicate Rendered(ps: seq<Piece>, k: nat)
  {
    exists j | 0 <= j < |ps| :: ps[j].Out? && ps[j].index == k
  }

  /**
   * When the render succeeds, every name from index `i` on that is not excluded has its
   * template output (and, by `OutsOrdered`, no other name does).
   */
  lemma {:induction false} RenderedAll(names: seq<string>, i: nat, templates: map<string, Compiled>, exclude: Option<Matcher>,
                                       vars: map<string, Value>, sep: map<string, Compiled>, engine: Engine)
    requires RenderFrom(names, i, templates, exclude, vars, sep, engine).1.None?
    ensures var ps := RenderFrom(names, i, templates, exclude, vars, sep, engine).0;
      forall k | i <= k < |names| && !Excluded(exclude, names[k]) :: Rendered(ps, k)
    decreases |names| - i
  {
    if i < |names| {
      var ps := RenderFrom(names, i, templates, exclude, vars, sep, engine).0;
      var rest := RenderFrom(names, i + 1, templates, exclude, vars, sep, engine);
      RenderedAll(names, i + 1, templates, exclude, vars, sep, engine);
      if !Excluded(exclude, names[i]) {
        var h := if i < |names| - 1 then 2 else 1;
        assert ps == ps[..h] + rest.0;
        assert ps[0].Out? && ps[0].index == i;
        assert Rendered(ps, i) by { assert ps[0].Out? && ps[0].index == i; }
        forall k | i < k < |names| && !Excluded(exclude, names[k])
          ensures Rendered(ps, k)
        {
          var j :| 0 <= j < |rest.0| && rest.0[j].Out? && rest.0[j].index == k;
          assert ps[j + h] == rest.0[j];
        }
      } else {
        assert ps == rest.0;
      }
    }
  }

  /** With no exclusion pattern, a successful render outputs every template. */
  lemma NilExcludeRendersAll(names: seq<string>, templates: map<string, Compiled>, vars: map<string, Value>,
                             separator: string, funcs: FuncMap, engine: Engine)
    requires RenderResult(names, templates, None, vars, separator, funcs, engine).1.None?
    ensures var ps := RenderResult(names, templates, None, vars, separator, funcs, engine).0;
      forall k | 0 <= k < |names| :: Rendered(ps, k)
  {
    RenderedAll(names, 0, templates, None, vars, SeparatorSet(separator, funcs), engine);
    assert forall k | 0 <= k < |names| :: !Excluded(None, names[k]);
  }

  /**
   * The separator rule looks at the index, not at what follows: with names a and b where b is
   * excluded, the output ends with the separator written after a.
   */
  lemma TrailingSeparator(templates: map<string, Compiled>, vars: map<string, Value>, separator: string,
                          funcs: FuncMap, engine: Engine, exclude: Matcher)
    requires "a" in templates && "b" in templates && !exclude("a") && exclude("b")
    requires engine.parse("separator", separator, DefaultDelims, funcs).None?
    requires engine.exec(templates, "a", vars).err.None?
    requires engine.exec(SeparatorSet(separator, funcs), "separator", vars).err.None?
    ensures RenderResult(["a", "b"], templates, Some(exclude), vars, separator, funcs, engine) ==
      ([Out(0, "a", engine.exec(templates, "a", vars).written),
        Sep(0, engine.exec(SeparatorSet(separator, funcs), "separator", vars).written)], None)
  {
    var names := ["a", "b"];
    var sep := SeparatorSet(separator, funcs);
    assert RenderFrom(names, 2, templates, Some(exclude), vars, sep, engine) == ([], None);
    assert RenderFrom(names, 1, templates, Some(exclude), vars, sep, engine) == ([], None);
    var pieces := [Out(0, "a", engine.exec(templates, "a", vars).written), Sep(0, engine.exec(sep, "separator", vars).written)];
    assert pieces + [] == pieces;
  }

  /** Where a piece sits in the name order: its template's index, or the index it follows. */
  function PieceIndex(p: Piece): nat
  {
    if p.Out? then p.index else p.after
  }

  /** The error, if any, of the render loop's step at name `k`: a missing template, its execution, or the separator after it. */
  function StepError(names: seq<string>, k: nat, templates: map<string, Compiled>, exclude: Option<Matcher>,
                     vars: map<string, Value>, sep: map<string, Compiled>, engine: Engine): Option<Error>
    requires k < |names|
  {
    if names[k] !in templates then Some(NilLookup)
    else if Excluded(exclude, names[k]) then None
    else if engine.exec(templates, names[k], vars).err.Some? then engine.exec(templates, names[k], vars).err
    else if k < |names| - 1 then engine.exec(sep, "separator", vars).err
    else None
  }

  /**
   * A render from name `i` that stopped at name `k`: every step before `k` went through, the step
   * at `k` failed with the error returned, nothing of a later name was written, and the last write
   * is `k`'s output or its separator (nothing at all of `k` when its template is missing).
   */
  ghost predicate RenderFailedAt(r: (seq<Piece>, Option<Error>), names: seq<string>, i: nat, k: nat,
                                 templates: map<string, Compiled>, exclude: Option<Matcher>, vars: map<string, Value>,
                                 sep: map<string, Compiled>, engine: Engine)
  {
    && i <= k < |names|
    && (forall j | i <= j < k :: StepError(names, j, templates, exclude, vars, sep, engine).None?)
    && StepError(names, k, templates, exclude, vars, sep, engine).Some?
    && r.1 == StepError(names, k, templates, exclude, vars, sep, engine)
    && (forall j | 0 <= j < |r.0| :: PieceIndex(r.0[j]) <= k)
    && (names[k] in templates ==> |r.0| > 0 && PieceIndex(r.0[|r.0| - 1]) == k)
    && (names[k] !in templates ==> forall j | 0 <= j < |r.0| :: PieceIndex(r.0[j]) < k)
  }

  /** A render that fails stops at the first failing name: its error is returned and nothing after it is written. */
  lemma {:induction false} RenderFailure(names: seq<string>, i: nat, templates: map<string, Compiled>, exclude: Option<Matcher>,
                                         vars: map<string, Value>, sep: map<string, Compiled>, engine: Engine)
    requires RenderFrom(names, i, templates, exclude, vars, sep, engine).1.Some?
    ensures exists k :: RenderFailedAt(RenderFrom(names, i, templates, exclude, vars, sep, engine), names, i, k,
                                       templates, exclude, vars, sep, engine)
    decreases |names| - i
  {
    var r := RenderFrom(names, i, templates, exclude, vars, sep, engine);
    assert i < |names|;
    if StepError(names, i, templates, exclude, vars, sep, engine).Some? {
      assert RenderFailedAt(r, names, i, i, templates, exclude, vars, sep, engine);
    } else {
      var rest := RenderFrom(names, i + 1, templates, exclude, vars, sep, engine);
      RenderFailure(names, i + 1, templates, exclude, vars, sep, engine);
      var k :| RenderFailedAt(rest, names, i + 1, k, templates, exclude, vars, sep, engine);
      RenderFailsLater(names, i, k, templates, exclude, vars, sep, engine);
    }
  }

  /** A step at `i` that goes through, followed by a render failed at `k`, is a render from `i` failed at `k`. */
  lemma RenderFailsLater(names: seq<string>, i: nat, k: nat, templates: map<string, Compiled>, exclude: Option<Matcher>,
                         vars: map<string, Value>, sep: map<string, Compiled>, engine: Engine)
    requires i < |names| && StepError(names, i, templates, exclude, vars, sep, engine).None?
    requires RenderFailedAt(RenderFrom(names, i + 1, templates, exclude, vars, sep, engine), names, i + 1, k,
                            templates, exclude, vars, sep, engine)
    ensures RenderFailedAt(RenderFrom(names, i, templates, exclude, vars, sep, engine), names, i, k,
                           templates, exclude, vars, sep, engine)
  {
    var r := RenderFrom(names, i, templates, exclude, vars, sep, engine);
    var rest := RenderFrom(names, i + 1, templates, exclude, vars, sep, engine);
    if Excluded(exclude, names[i]) {
      RenderFailedPrepend([], rest, names, i, k, templates, exclude, vars, sep, engine);
      assert [] + rest.0 == rest.0;
    } else {
      var o := engine.exec(templates, names[i], vars);
      // a failure at `k > i` means `i` is not the last name, so its separator was written
      var head := [Out(i, names[i], o.written), Sep(i, engine.exec(sep, "separator", vars).written)];
      assert r == (head + rest.0, rest.1);
      RenderFailedPrepend(head, rest, names, i, k, templates, exclude, vars, sep, engine);
    }
  }

  /** Writes of a step at `i` that went through, put in front of a render that failed at `k`, make a render failed at `k`. */
  lemma RenderFailedPrepend(head: seq<Piece>, rest: (seq<Piece>, Option<Error>), names: seq<string>, i: nat, k: nat,
                            templates: map<string, Compiled>, exclude: Option<Matcher>, vars: map<string, Value>,
                            sep: map<string, Compiled>, engine: Engine)
    requires i < |names| && StepError(names, i, templates, exclude, vars, sep, engine).None?
    requires forall j | 0 <= j < |head| :: PieceIndex(head[j]) == i
    requires RenderFailedAt(rest, names, i + 1, k, templates, exclude, vars, sep, engine)
    ensures RenderFailedAt((head + rest.0, rest.1), names, i, k, templates, exclude, vars, sep, engine)
  {
    var ps := head + rest.0;
    forall j | 0 <= j < |ps|
      ensures PieceIndex(ps[j]) <= k && (names[k] !in templates ==> PieceIndex(ps[j]) < k)
    {
      if j >= |head| {
        assert ps[j] == rest.0[j - |head|];
      }
    }
    if names[k] in templates {
      assert ps[|ps| - 1] == rest.0[|rest.0| - 1];
    }
  }

  /**
   * `Templates.Render` fails either at the separator, before any output, or at a first failing
   * name, as `RenderFailure` describes.
   */
  lemma RenderResultFailure(names: seq<string>, templates: map<string, Compiled>, exclude: Option<Matcher>,
                            vars: map<string, Value>, separator: string, funcs: FuncMap, engine: Engine)
    requires RenderResult(names, templates, exclude, vars, separator, funcs, engine).1.Some?
    ensures var r := RenderResult(names, templates, exclude, vars, separator, funcs, engine);
      var perr := engine.parse("separator", separator, DefaultDelims, funcs);
      && (perr.Some? ==> r == ([], perr))
      && (perr.None? ==> exists k :: RenderFailedAt(r, names, 0, k, templates, exclude, vars, SeparatorSet(separator, funcs), engine))
  {
    if engine.parse("separator", separator, DefaultDelims, funcs).None? {
      RenderFailure(names, 0, templates, exclude, vars, SeparatorSet(separator, funcs), engine);
    }
  }

  // ---- writing each template to its own file ----

  /** The file-system operations `RenderToDir` uses; each can fail. */
  datatype OutputFs = OutputFs(
    join: (string, string) -> string,      // `path.Join`
    mkdirAll: string -> Option<Error>,     // `os.MkdirAll` of the directory of a file path
    openFile: string -> Option<Error>)     // `os.OpenFile` for writing, after `os.Remove`

  /** The loop of `RenderToDir` from index `i` on, over the output files as a path → content map. */
  function RenderToDirFrom(names: seq<string>, i: nat, templates: map<string, Compiled>, exclude: Option<Matcher>,
                           vars: map<string, Value>, dir: string, disk: map<string, string>, fs: OutputFs,
                           engine: Engine): (map<string, string>, Option<Error>)
    decreases |names| - i
  {
    if i >= |names| then (disk, None)
    else if names[i] !in templates then (disk, Some(NilLookup))
    else if Excluded(exclude, names[i]) then RenderToDirFrom(names, i + 1, templates, exclude, vars, dir, disk, fs, engine)
    else
      var path := fs.join(dir, names[i]);
      if fs.mkdirAll(path).Some? then (disk, fs.mkdirAll(path))
      else
        var removed := disk - {path};
        if fs.openFile(path).Some? then (removed, fs.openFile(path))
        else
          var o := engine.exec(templates, names[i], vars);
          var written := removed[path := o.written];
          if o.err.Some? then (written, o.err)
          else RenderToDirFrom(names, i + 1, templates, exclude, vars, dir, written, fs, engine)
  }

  /** The output paths of the names from index `i` on that are not excluded. */
  function OutputPaths(names: seq<string>, i: nat, exclude: Option<Matcher>, dir: string, fs: OutputFs): set<string>
  {
    set k | i <= k < |names| && !Excluded(exclude, names[k]) :: fs.join(dir, names[k])
  }

  /** `RenderToDir` touches no file except the outputs of the templates it renders, whether or not it fails. */
  lemma {:induction false} RenderToDirOnlyOutputs(names: seq<string>, i: nat, templates: map<string, Compiled>,
                                                  exclude: Option<Matcher>, vars: map<string, Value>, dir: string,
                                                  disk: map<string, string>, fs: OutputFs, engine: Engine, p: string)
    requires p !in OutputPaths(names, i, exclude, dir, fs)
    ensures var out := RenderToDirFrom(names, i, templates, exclude, vars, dir, disk, fs, engine).0;
      (p in out <==> p in disk) && (p in disk ==> out[p] == disk[p])
    decreases |names| - i
  {
    if i < |names| && names[i] in templates {
      assert OutputPaths(names, i + 1, exclude, dir, fs) <= OutputPaths(names, i, exclude, dir, fs);
      if Excluded(exclude, names[i]) {
        RenderToDirOnlyOutputs(names, i + 1, templates, exclude, vars, dir, disk, fs, engine, p);
      } else {
        var path := fs.join(dir, names[i]);
        assert path in OutputPaths(names, i, exclude, dir, fs);
        var removed := disk - {path};
        if fs.mkdirAll(path).None? && fs.openFile(path).None? {
          var o := engine.exec(templates, names[i], vars);
          var written := removed[path := o.written];
          assert (p in written <==> p in disk) && (p in disk ==> written[p] == disk[p]);
          if o.err.None? {
            RenderToDirOnlyOutputs(names, i + 1, templates, exclude, vars, dir, written, fs, engine, p);
          }
        }
      }
    }
  }

  /**
   * When `RenderToDir` succeeds, the output of a template whose path no later rendered template
   * reuses is that template's execution output.
   */
  lemma {:induction false} RenderToDirWrites(names: seq<string>, i: nat, templates: map<string, Compiled>,
                                             exclude: Option<Matcher>, vars: map<string, Value>, dir: string,
                                             disk: map<string, string>, fs: OutputFs, engine: Engine, k: nat)
    requires RenderToDirFrom(names, i, templates, exclude, vars, dir, disk, fs, engine).1.None?
    requires i <= k < |names| && !Excluded(exclude, names[k])
    requires fs.join(dir, names[k]) !in OutputPaths(names, k + 1, exclude, dir, fs)
    ensures var out := RenderToDirFrom(names, i, templates, exclude, vars, dir, disk, fs, engine).0;
      fs.join(dir, names[k]) in out && out[fs.join(dir, names[k])] == engine.exec(templates, names[k], vars).written
    decreases |names| - i
  {
    var path := fs.join(dir, names[i]);
    if Excluded(exclude, names[i]) {
      RenderToDirWrites(names, i + 1, templates, exclude, vars, dir, disk, fs, engine, k);
    } else {
      var o := engine.exec(templates, names[i], vars);
      var written := (disk - {path})[path := o.written];
      if k == i {
        RenderToDirOnlyOutputs(names, i + 1, templates, exclude, vars, dir, written, fs, engine, path);
      } else {
        RenderToDirWrites(names, i + 1, templates, exclude, vars, dir, written, fs, engine, k);
      }
    }
  }

  /** The error, if any, of `RenderToDir`'s step at name `k`: a missing template, its directory, opening its file, or its execution. */
  function DirStepError(names: seq<string>, k: nat, templates: map<string, Compiled>, exclude: Option<Matcher>,
                        vars: map<string, Value>, dir: string, fs: OutputFs, engine: Engine): Option<Error>
    requires k < |names|
  {
    if names[k] !in templates then Some(NilLookup)
    else if Excluded(exclude, names[k]) then None
    else
      var path := fs.join(dir, names[k]);
      if fs.mkdirAll(path).Some? then fs.mkdirAll(path)
      else if fs.openFile(path).Some? then fs.openFile(path)
      else engine.exec(templates, names[k], vars).err
  }

  /** Whether a name after `j`, up to and including `k`, is rendered to the same path as name `j`. */
  ghost predicate PathReused(names: seq<string>, j: nat, k: nat, exclude: Option<Matcher>, dir: string, fs: OutputFs)
    requires j <= k < |names|
  {
    exists m | j < m <= k :: !Excluded(exclude, names[m]) && fs.join(dir, names[m]) == fs.join(dir, names[j])
  }

  /**
   * A `RenderToDir` from name `i` that stopped at name `k`: every step before `k` went through and
   * the step at `k` failed with the error returned; each earlier rendered name whose path no name
   * up to `k` reuses keeps its output on the disk; at `k` an open failure leaves the old file
   * removed and an execution failure keeps the partial output; and no name after `k` was touched,
   * for the result is that of the names cut after `k`.
   */
  ghost predicate RenderToDirFailedAt(r: (map<string, string>, Option<Error>), names: seq<string>, i: nat, k: nat,
                                      templates: map<string, Compiled>, exclude: Option<Matcher>, vars: map<string, Value>,
                                      dir: string, disk: map<string, string>, fs: OutputFs, engine: Engine)
  {
    && i <= k < |names|
    && (forall j | i <= j < k :: DirStepError(names, j, templates, exclude, vars, dir, fs, engine).None?)
    && DirStepError(names, k, templates, exclude, vars, dir, fs, engine).Some?
    && r.1 == DirStepError(names, k, templates, exclude, vars, dir, fs, engine)
    && (forall j | i <= j < k && !Excluded(exclude, names[j]) && !PathReused(names, j, k, exclude, dir, fs) ::
          fs.join(dir, names[j]) in r.0 && r.0[fs.join(dir, names[j])] == engine.exec(templates, names[j], vars).written)
    && (names[k] in templates && fs.mkdirAll(fs.join(dir, names[k])).None? ==>
          if fs.openFile(fs.join(dir, names[k])).Some? then fs.join(dir, names[k]) !in r.0
          else fs.join(dir, names[k]) in r.0 && r.0[fs.join(dir, names[k])] == engine.exec(templates, names[k], vars).written)
    && r == RenderToDirFrom(names[..k + 1], i, templates, exclude, vars, dir, disk, fs, engine)
  }

  /**
   * A `RenderToDir` that fails stops at the first failing name and keeps the files written
   * before it, as `RenderToDirFailedAt` describes.
   */
  lemma {:induction false} RenderToDirFailures(names: seq<string>, i: nat, templates: map<string, Compiled>,
                                               exclude: Option<Matcher>, vars: map<string, Value>, dir: string,
                                               disk: map<string, string>, fs: OutputFs, engine: Engine)
    requires RenderToDirFrom(names, i, templates, exclude, vars, dir, disk, fs, engine).1.Some?
    ensures exists k :: RenderToDirFailedAt(RenderToDirFrom(names, i, templates, exclude, vars, dir, disk, fs, engine),
                                            names, i, k, templates, exclude, vars, dir, disk, fs, engine)
    decreases |names| - i
  {
    assert i < |names|;
    if DirStepError(names, i, templates, exclude, vars, dir, fs, engine).Some? {
      RenderToDirFailsFirst(names, i, templates, exclude, vars, dir, disk, fs, engine);
    } else {
      var next := if Excluded(exclude, names[i]) then disk
                  else (disk - {fs.join(dir, names[i])})[fs.join(dir, names[i]) := engine.exec(templates, names[i], vars).written];
      assert RenderToDirFrom(names, i, templates, exclude, vars, dir, disk, fs, engine) ==
             RenderToDirFrom(names, i + 1, templates, exclude, vars, dir, next, fs, engine);
      RenderToDirFailures(names, i + 1, templates, exclude, vars, dir, next, fs, engine);
      var k :| RenderToDirFailedAt(RenderToDirFrom(names, i + 1, templates, exclude, vars, dir, next, fs, engine),
                                   names, i + 1, k, templates, exclude, vars, dir, next, fs, engine);
      RenderToDirFailsLater(names, i, k, templates, exclude, vars, dir, disk, next, fs, engine);
    }
  }

  /** A step at `i` that fails is the failure point of the render from `i`. */
  lemma RenderToDirFailsFirst(names: seq<string>, i: nat, templates: map<string, Compiled>, exclude: Option<Matcher>,
                              vars: map<string, Value>, dir: string, disk: map<string, string>, fs: OutputFs, engine: Engine)
    requires i < |names| && DirStepError(names, i, templates, exclude, vars, dir, fs, engine).Some?
    ensures RenderToDirFailedAt(RenderToDirFrom(names, i, templates, exclude, vars, dir, disk, fs, engine),
                                names, i, i, templates, exclude, vars, dir, disk, fs, engine)
  {
    assert names[..i + 1][i] == names[i];
  }

  /** A step at `i` that goes through, followed by a render failed at `k`, is a render from `i` failed at `k`. */
  lemma RenderToDirFailsLater(names: seq<string>, i: nat, k: nat, templates: map<string, Compiled>, exclude: Option<Matcher>,
                              vars: map<string, Value>, dir: string, disk: map<string, string>, next: map<string, string>,
                              fs: OutputFs, engine: Engine)
    requires i < |names| && DirStepError(names, i, templates, exclude, vars, dir, fs, engine).None?
    requires next == if Excluded(exclude, names[i]) then disk
                     else (disk - {fs.join(dir, names[i])})[fs.join(dir, names[i]) := engine.exec(templates, names[i], vars).written]
    requires RenderToDirFailedAt(RenderToDirFrom(names, i + 1, templates, exclude, vars, dir, next, fs, engine),
                                 names, i + 1, k, templates, exclude, vars, dir, next, fs, engine)
    ensures RenderToDirFailedAt(RenderToDirFrom(names, i + 1, templates, exclude, vars, dir, next, fs, engine),
                                names, i, k, templates, exclude, vars, dir, disk, fs, engine)
  {
    var r := RenderToDirFrom(names, i + 1, templates, exclude, vars, dir, next, fs, engine);
    var cut := names[..k + 1];
    assert cut[i] == names[i];
    assert RenderToDirFrom(cut, i, templates, exclude, vars, dir, disk, fs, engine) ==
           RenderToDirFrom(cut, i + 1, templates, exclude, vars, dir, next, fs, engine);
    if !Excluded(exclude, names[i]) && !PathReused(names, i, k, exclude, dir, fs) {
      var path := fs.join(dir, names[i]);
      assert path !in OutputPaths(cut, i + 1, exclude, dir, fs);
      RenderToDirOnlyOutputs(cut, i + 1, templates, exclude, vars, dir, next, fs, engine, path);
    }
  }

  // ---- loading ----

  /** The part of the configuration `FromConfig` reads. */
  datatype Config = Config(
    templateOutExclude: string,
    templateLeftDelim: string,
    templateRightDelim: string,
    templateSources: seq<TemplateSource>)

  /**
   * The template sources in order: names concatenated, stopping at the first failing source, whose
   * names are dropped. The sources share one standard input, spent by the first that reads it.
   */
  function LoadAll(sources: seq<TemplateSource>, templates: map<string, Compiled>, delims: Delims,
                   funcs: FuncMap, world: World, engine: Engine): Loaded
  {
    if |sources| == 0 then Loaded([], templates, None)
    else
      var r := LoadResult(sources[0], templates, delims, funcs, world, engine);
      if r.err.Some? then Loaded([], r.templates, r.err)
      else
        var rest := LoadAll(sources[1..], r.templates, delims, funcs, AfterLoad(sources[0], world), engine);
        Loaded(r.names + rest.names, rest.templates, rest.err)
  }

  /** The world after every source of the list has been loaded. */
  function WorldAfter(sources: seq<TemplateSource>, world: World): World
  {
    if |sources| == 0 then world else WorldAfter(sources[1..], AfterLoad(sources[0], world))
  }

  /**
   * Two stdin sources in a row: the first parses what the stream held, the second the empty text
   * that is left.
   */
  lemma StdinTemplatesReadOnce(first: TemplateSource, second: TemplateSource, templates: map<string, Compiled>,
                               delims: Delims, funcs: FuncMap, world: World, engine: Engine)
    requires ReadsStdin(first) && ReadsStdin(second)
    ensures var r := TextResult(first.name, world.stdin.data, templates, delims, funcs, engine);
      var s := TextResult(second.name, "", r.templates, delims, funcs, engine);
      LoadAll([first, second], templates, delims, funcs, world, engine) ==
        if r.err.Some? then Loaded([], r.templates, r.err)
        else if s.err.Some? then Loaded(r.names, s.templates, s.err)
        else Loaded(r.names + s.names, s.templates, None)
  {
    var r := TextResult(first.name, world.stdin.data, templates, delims, funcs, engine);
    var s := TextResult(second.name, "", r.templates, delims, funcs, engine);
    assert [first, second][1..] == [second];
    assert [second][1..] == [];
    assert LoadResult(first, templates, delims, funcs, world, engine) == r;
    assert AfterLoad(first, world) == Drained(world);
    assert LoadResult(second, r.templates, delims, funcs, Drained(world), engine) == s;
    assert s.names + [] == s.names && r.names + [] == r.names;
    var tail := LoadAll([second], r.templates, delims, funcs, Drained(world), engine);
    assert [second][0] == second;
    assert LoadAll([], s.templates, delims, funcs, AfterLoad(second, Drained(world)), engine) == Loaded([], s.templates, None);
    assert tail == if s.err.Some? then Loaded([], s.templates, s.err) else Loaded(s.names, s.templates, None);
    if r.err.None? {
      assert LoadAll([first, second], templates, delims, funcs, world, engine) == Loaded(r.names + tail.names, tail.templates, tail.err);
    }
  }

  /** A source's names and error do not depend on what is already registered. */
  lemma {:induction false} LoadIndependent(source: TemplateSource, t1: map<string, Compiled>, t2: map<string, Compiled>,
                                           delims: Delims, funcs: FuncMap, world: World, engine: Engine)
    ensures LoadResult(source, t1, delims, funcs, world, engine).names == LoadResult(source, t2, delims, funcs, world, engine).names
    ensures LoadResult(source, t1, delims, funcs, world, engine).err == LoadResult(source, t2, delims, funcs, world, engine).err
  {
    if source.fromEnv.None? && source.fromFile.None? && source.fromFileGlob.Some? {
      var globbed := world.glob(source.fromFileGlob.value.glob);
      if globbed.Ok? {
        GlobFilesIndependent(globbed.value, t1, t2, delims, funcs, world, engine);
      }
    }
  }

  /** The glob loop's error does not depend on what is already registered. */
  lemma {:induction false} GlobFilesIndependent(paths: seq<string>, t1: map<string, Compiled>, t2: map<string, Compiled>,
                                                delims: Delims, funcs: FuncMap, world: World, engine: Engine)
    ensures GlobFiles(paths, t1, delims, funcs, world, engine).1 == GlobFiles(paths, t2, delims, funcs, world, engine).1
  {
    if |paths| > 0 {
      var r1 := FileResult(paths[0], paths[0], t1, delims, funcs, world, engine);
      var r2 := FileResult(paths[0], paths[0], t2, delims, funcs, world, engine);
      GlobFilesIndependent(paths[1..], r1.templates, r2.templates, delims, funcs, world, engine);
    }
  }

  /** The names each source would return on its own, in the world it finds, concatenated. */
  function SourceNames(sources: seq<TemplateSource>, delims: Delims, funcs: FuncMap, world: World, engine: Engine): seq<string>
  {
    if |sources| == 0 then []
    else
      LoadResult(sources[0], map[], delims, funcs, world, engine).names +
      SourceNames(sources[1..], delims, funcs, AfterLoad(sources[0], world), engine)
  }

  /** `Names` is the in-order concatenation of the names each source returns. */
  lemma {:induction false} LoadAllNames(sources: seq<TemplateSource>, templates: map<string, Compiled>, delims: Delims,
                                        funcs: FuncMap, world: World, engine: Engine)
    ensures var r := LoadAll(sources, templates, delims, funcs, world, engine);
      r.err.None? ==> r.names == SourceNames(sources, delims, funcs, world, engine)
  {
    if |sources| > 0 {
      var r := LoadResult(sources[0], templates, delims, funcs, world, engine);
      LoadIndependent(sources[0], templates, map[], delims, funcs, world, engine);
      if r.err.None? {
        LoadAllNames(sources[1..], r.templates, delims, funcs, AfterLoad(sources[0], world), engine);
      }
    }
  }

  /** Taking a prefix of the tail is taking a longer prefix and dropping its head. */
  lemma PrefixTail(sources: seq<TemplateSource>, k: nat)
    requires k < |sources|
    ensures sources[..k + 1][0] == sources[0] && sources[..k + 1][1..] == sources[1..][..k]
  {
  }

  /** The first source failing: no names, its error, and nothing after it loaded. */
  lemma LoadAllFailsFirst(sources: seq<TemplateSource>, templates: map<string, Compiled>, delims: Delims,
                          funcs: FuncMap, world: World, engine: Engine)
    requires |sources| > 0 && LoadResult(sources[0], templates, delims, funcs, world, engine).err.Some?
    ensures var r := LoadAll(sources, templates, delims, funcs, world, engine);
      && r.names == SourceNames(sources[..0], delims, funcs, world, engine)
      && r.err == LoadResult(sources[0], map[], delims, funcs, WorldAfter(sources[..0], world), engine).err
      && r == LoadAll(sources[..1], templates, delims, funcs, world, engine)
  {
    LoadIndependent(sources[0], templates, map[], delims, funcs, world, engine);
    PrefixTail(sources, 0);
    assert sources[..0] == [];
  }

  /** A failure at `k` among the later sources is a failure at `k + 1` of the whole list. */
  lemma LoadAllFailsLater(sources: seq<TemplateSource>, templates: map<string, Compiled>, delims: Delims,
                          funcs: FuncMap, world: World, engine: Engine, k: nat)
    requires 0 < |sources| && k < |sources| - 1
    requires LoadResult(sources[0], templates, delims, funcs, world, engine).err.None?
    requires var t := LoadResult(sources[0], templates, delims, funcs, world, engine).templates;
      var w := AfterLoad(sources[0], world);
      var rest := LoadAll(sources[1..], t, delims, funcs, w, engine);
      && rest.err.Some?
      && rest.names == SourceNames(sources[1..][..k], delims, funcs, w, engine)
      && rest.err == LoadResult(sources[1..][k], map[], delims, funcs, WorldAfter(sources[1..][..k], w), engine).err
      && rest == LoadAll(sources[1..][..k + 1], t, delims, funcs, w, engine)
    ensures var r := LoadAll(sources, templates, delims, funcs, world, engine);
      && r.names == SourceNames(sources[..k + 1], delims, funcs, world, engine)
      && r.err == LoadResult(sources[k + 1], map[], delims, funcs, WorldAfter(sources[..k + 1], world), engine).err
      && r == LoadAll(sources[..k + 2], templates, delims, funcs, world, engine)
  {
    LoadIndependent(sources[0], templates, map[], delims, funcs, world, engine);
    PrefixTail(sources, k);
    PrefixTail(sources, k + 1);
    assert sources[1..][k] == sources[k + 1];
  }

  /**
   * At the first failing source `k`, `Names` holds the names of the sources before `k`, the
   * error is `k`'s in the world the sources before it leave, and the sources after `k` are never loaded.
   */
  lemma {:induction false} LoadAllFailure(sources: seq<TemplateSource>, templates: map<string, Compiled>, delims: Delims,
                                          funcs: FuncMap, world: World, engine: Engine)
    ensures var r := LoadAll(sources, templates, delims, funcs, world, engine);
      r.err.Some? ==> exists k | 0 <= k < |sources| ::
        && r.names == SourceNames(sources[..k], delims, funcs, world, engine)
        && r.err == LoadResult(sources[k], map[], delims, funcs, WorldAfter(sources[..k], world), engine).err
        && r == LoadAll(sources[..k + 1], templates, delims, funcs, world, engine)
  {
    if |sources| > 0 {
      var r := LoadResult(sources[0], templates, delims, funcs, world, engine);
      if r.err.Some? {
        LoadAllFailsFirst(sources, templates, delims, funcs, world, engine);
      } else {
        var w := AfterLoad(sources[0], world);
        LoadAllFailure(sources[1..], r.templates, delims, funcs, w, engine);
        var rest := LoadAll(sources[1..], r.templates, delims, funcs, w, engine);
        if rest.err.Some? {
          var k :| 0 <= k < |sources[1..]| &&
            rest.names == SourceNames(sources[1..][..k], delims, funcs, w, engine) &&
            rest.err == LoadResult(sources[1..][k], map[], delims, funcs, WorldAfter(sources[1..][..k], w), engine).err &&
            rest == LoadAll(sources[1..][..k + 1], r.templates, delims, funcs, w, engine);
          LoadAllFailsLater(sources, templates, delims, funcs, world, engine, k);
        }
      }
    }
  }

  /** The names of a load written after `names`. */
  function AfterNames(names: seq<string>, r: Loaded): Loaded
  {
    Loaded(names + r.names, r.templates, r.err)
  }

  /** `LoadAll` from source `i` on, one step unfolded. */
  lemma LoadAllStep(sources: seq<TemplateSource>, i: nat, templates: map<string, Compiled>, delims: Delims,
                    funcs: FuncMap, world: World, engine: Engine)
    requires i < |sources|
    ensures var r := LoadResult(sources[i], templates, delims, funcs, world, engine);
      LoadAll(sources[i..], templates, delims, funcs, world, engine) ==
        if r.err.Some? then Loaded([], r.templates, r.err)
        else AfterNames(r.names, LoadAll(sources[i + 1..], r.templates, delims, funcs, AfterLoad(sources[i], world), engine))
  {
    assert sources[i..][0] == sources[i] && sources[i..][1..] == sources[i + 1..];
  }

  /** Names put in front of a result in two steps are put in front at once. */
  lemma AfterNamesAfterNames(a: seq<string>, b: seq<string>, r: Loaded)
    ensures AfterNames(a, AfterNames(b, r)) == AfterNames(a + b, r)
    ensures AfterNames(a, Loaded([], r.templates, r.err)) == Loaded(a, r.templates, r.err)
  {
    assert a + (b + r.names) == (a + b) + r.names;
    assert a + [] == a;
  }

  /** The loop of `FromConfig`: each source loaded into the root in turn, its names appended, until one fails. */
  method LoadSources(sources: seq<TemplateSource>, funcs: FuncMap, root: TemplateSet, world: World, engine: Engine)
    returns (names: seq<string>, err: Option<Error>)
    modifies root
    ensures root.delims == old(root.delims)
    ensures Loaded(names, root.templates, err) == LoadAll(sources, old(root.templates), root.delims, funcs, world, engine)
  {
    names := [];
    var current := world;
    assert AfterNames([], LoadAll(sources, root.templates, root.delims, funcs, world, engine)) ==
           LoadAll(sources, root.templates, root.delims, funcs, world, engine);
    for i := 0 to |sources|
      invariant root.delims == old(root.delims)
      invariant LoadAll(sources, old(root.templates), root.delims, funcs, world, engine) ==
                AfterNames(names, LoadAll(sources[i..], root.templates, root.delims, funcs, current, engine))
    {
      LoadAllStep(sources, i, root.templates, root.delims, funcs, current, engine);
      var loaded, e := Load(sources[i], funcs, root, current, engine);
      ghost var rest := LoadAll(sources[i + 1..], root.templates, root.delims, funcs, AfterLoad(sources[i], current), engine);
      AfterNamesAfterNames(names, loaded, rest);
      if e.Some? {
        return names, e;
      }
      current := AfterLoad(sources[i], current);
      names := names + loaded;
    }
    assert sources[|sources|..] == [];
    assert names + [] == names;
    return names, None;
  }

  /** The renderer's state (`Templates`). */
  class Templates {
    var root: TemplateSet
    var funcs: FuncMap
    var vars: map<string, Value>
    var names: seq<string>
    var exclude: Option<Matcher>

    constructor (root: TemplateSet, funcs: FuncMap, vars: map<string, Value>, names: seq<string>, exclude: Option<Matcher>)
      ensures this.root == root && this.funcs == funcs && this.vars == vars
      ensures this.names == names && this.exclude == exclude
    {
      this.root := root;
      this.funcs := funcs;
      this.vars := vars;
      this.names := names;
      this.exclude := exclude;
    }

    /** `Render`: the pieces written, in order, and the error that stopped it. `excludes` is not used. */
    method Render(excludes: string, separator: string, engine: Engine) returns (written: seq<Piece>, err: Option<Error>)
      ensures (written, err) == RenderResult(names, root.templates, exclude, vars, separator, funcs, engine)
    {
      err := engine.parse("separator", separator, DefaultDelims, funcs);
      if err.Some? {
        return [], err;
      }
      var sep := SeparatorSet(separator, funcs);
      var n := |names|;
      written := [];
      assert [] + RenderFrom(names, 0, root.templates, exclude, vars, sep, engine).0 ==
             RenderFrom(names, 0, root.templates, exclude, vars, sep, engine).0;
      for i := 0 to n
        invariant RenderFrom(names, 0, root.templates, exclude, vars, sep, engine) ==
                  Prefixed(written, RenderFrom(names, i, root.templates, exclude, vars, sep, engine))
      {
        var name := names[i];
        ghost var rest := RenderFrom(names, i + 1, root.templates, exclude, vars, sep, engine);
        if name !in root.templates {
          PrefixedPrefixed(written, [], ([], Some(NilLookup)));
          return written, Some(NilLookup);
        }
        if Excluded(exclude, name) {
          continue;
        }
        var o := engine.exec(root.templates, name, vars);
        if o.err.Some? {
          PrefixedPrefixed(written, [Out(i, name, o.written)], ([], o.err));
          written := written + [Out(i, name, o.written)];
          return written, o.err;
        }
        if i < n - 1 {
          var s := engine.exec(sep, "separator", vars);
          var pair := [Out(i, name, o.written), Sep(i, s.written)];
          if s.err.Some? {
            PrefixedPrefixed(written, pair, ([], s.err));
            written := written + pair;
            return written, s.err;
          }
          PrefixedPrefixed(written, pair, rest);
          written := written + pair;
        } else {
          PrefixedPrefixed(written, [Out(i, name, o.written)], rest);
          written := written + [Out(i, name, o.written)];
        }
      }
      PrefixedPrefixed(written, [], ([], None));
      return written, None;
    }

    /** `RenderToDir`: the output files after rendering into `dir`, and the error that stopped it. */
    method RenderToDir(excludes: string, dir: string, disk: map<string, string>, fs: OutputFs, engine: Engine)
      returns (out: map<string, string>, err: Option<Error>)
      ensures (out, err) == RenderToDirFrom(names, 0, root.templates, exclude, vars, dir, disk, fs, engine)
    {
      out := disk;
      for i := 0 to |names|
        invariant RenderToDirFrom(names, i, root.templates, exclude, vars, dir, out, fs, engine) ==
                  RenderToDirFrom(names, 0, root.templates, exclude, vars, dir, disk, fs, engine)
      {
        var name := names[i];
        if name !in root.templates {
          return out, Some(NilLookup);
        }
        if Excluded(exclude, name) {
          continue;
        }
        var path := fs.join(dir, name);
        err := fs.mkdirAll(path);
        if err.Some? {
          return;
        }
        out := out - {path};
        err := fs.openFile(path);
        if err.Some? {
          return;
        }
        var o := engine.exec(root.templates, name, vars);
        out := out[path := o.written];
        if o.err.Some? {
          return out, o.err;
        }
      }
      return out, None;
    }

    /**
     * `FromConfig`: a bad exclusion pattern fails before anything changes; otherwise a fresh
     * root with the configured delimiters is filled from the sources in order.
     */
    method FromConfig(funcs: FuncMap, config: Config, compile: string -> Result<Matcher, Error>,
                      world: World, engine: Engine) returns (err: Option<Error>)
      modifies this
      ensures compile(config.templateOutExclude).Err? ==>
                err == Some(compile(config.templateOutExclude).error) &&
                root == old(root) && this.funcs == old(this.funcs) && names == old(names) && exclude == old(exclude)
      ensures compile(config.templateOutExclude).Ok? ==>
                && fresh(root) && exclude == Some(compile(config.templateOutExclude).value) && this.funcs == funcs
                && root.delims == Delims(config.templateLeftDelim, config.templateRightDelim)
                && Loaded(names, root.templates, err) ==
                     LoadAll(config.templateSources, map[], root.delims, funcs, world, engine)
      ensures vars == old(vars)
    {
      var compiled := compile(config.templateOutExclude);
      if compiled.Err? {
        return Some(compiled.error);
      }
      exclude := Some(compiled.value);
      root := new TemplateSet(Delims(config.templateLeftDelim, config.templateRightDelim));
      this.funcs := funcs;
      names := [];
      var loaded;
      loaded, err := LoadSources(config.templateSources, funcs, root, world, engine);
      names := names + loaded;
      assert names == loaded;
    }
  }
}
