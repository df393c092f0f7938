/**
 * The template engine (`text/template`) as the core uses it, with parsing and execution
 * passed in as opaque functions, and the shared set of named templates that loaders add to.
 */
module TemplateEngine {
  import opened Wrappers
  import opened Values
  import opened Funcs

  /** Action delimiters; the empty string selects the engine's default ("{{" or "}}"). */
  datatype Delims = Delims(left: string, right: string)

  const DefaultDelims: Delims := Delims("", "")

  /** A parsed template: its text, the delimiters and functions it was parsed with, and its options. */
  datatype Compiled = Compiled(text: string, delims: Delims, funcs: FuncMap, missingKeyZero: bool)

  /** What executing a template wrote before it finished or failed, and the failure. */
  datatype ExecOut = ExecOut(written: string, err: Option<Error>)

  /**
   * The engine: `parse(name, text, delims, funcs)` reports a syntax error or none;
   * `exec(set, name, vars)` runs the template of that name in a set of templates.
   */
  datatype Engine = Engine(
    parse: (string, string, Delims, FuncMap) -> Option<Error>,
    exec: (map<string, Compiled>, string, map<string, Value>) -> ExecOut)

  /**
   * Registering `text` under `name` (`t.New(name).Funcs(funcs)`, `missingkey=zero`, `Parse`):
   * a template that parses replaces any earlier one of that name; one that does not leaves the set as it was.
   */
  function Registered(templates: map<string, Compiled>, name: string, text: string, delims: Delims,
                      funcs: FuncMap, engine: Engine): (r: (map<string, Compiled>, Option<Error>))
    ensures r.1 == engine.parse(name, text, delims, funcs)
    ensures r.1.None? ==> r.0 == templates[name := Compiled(text, delims, funcs, true)]
    ensures r.1.Some? ==> r.0 == templates
  {
    var err := engine.parse(name, text, delims, funcs);
    if err.Some? then (templates, err) else (templates[name := Compiled(text, delims, funcs, true)], None)
  }

  /** Every template in `after` is one of `before` or was parsed with these delimiters and functions and `missingkey=zero`. */
  ghost predicate RegisteredWith(before: map<string, Compiled>, after: map<string, Compiled>, delims: Delims, funcs: FuncMap)
  {
    forall n | n in after ::
      (n in before && after[n] == before[n]) ||
      (after[n].delims == delims && after[n].funcs == funcs && after[n].missingKeyZero)
  }

  /** `RegisteredWith` composes over successive registrations. */
  lemma RegisteredWithTrans(a: map<string, Compiled>, b: map<string, Compiled>, c: map<string, Compiled>,
                            delims: Delims, funcs: FuncMap)
    requires RegisteredWith(a, b, delims, funcs) && RegisteredWith(b, c, delims, funcs)
    ensures RegisteredWith(a, c, delims, funcs)
  {
  }

  /** The root template (`*template.Template`) all loaders register into. */
  class TemplateSet {
    var delims: Delims
    var templates: map<string, Compiled>

    /** `template.New(...).Delims(left, right)`: an empty set. */
    constructor (delims: Delims)
      ensures this.delims == delims && templates == map[]
    {
      this.delims := delims;
      templates := map[];
    }

    /** Registers one template with this set's delimiters. */
    method Register(name: string, text: string, funcs: FuncMap, engine: Engine) returns (err: Option<Error>)
      modifies this
      ensures delims == old(delims)
      ensures (templates, err) == Registered(old(templates), name, text, delims, funcs, engine)
    {
      err := engine.parse(name, text, delims, funcs);
      if err.None? {
        templates := templates[name := Compiled(text, delims, funcs, true)];
      }
    }
  }
}
