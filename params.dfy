/**
 * The command-line flag values that add variable and template sources: each splits its text
 * at the first '=' and appends one source to the configuration's list.
 */
module Params {
  import opened Wrappers
  import opened Values
  import opened Strings
  import Decimal
  import opened VarsSources
  import opened TemplateSources

  /** Whether a flag value has no name part: no '=', or '=' as its first character. */
  predicate Unnamed(value: string)
  {
    '=' !in value || value[0] == '='
  }

  /** A value is unnamed exactly when its first '=' is missing or at the start. */
  lemma UnnamedIndex(value: string)
    ensures Unnamed(value) <==> IndexByte(value, '=') <= 0
  {
  }

  /** Splitting at the first '=' rebuilds the text: the part before it has no '='. */
  lemma SplitAtFirst(value: string, i: int)
    requires i == IndexByte(value, '=') && 0 <= i
    ensures '=' !in value[..i] && value[..i] + "=" + value[i + 1..] == value
  {
    assert value == value[..i] + [value[i]] + value[i + 1..];
  }

  // ---- variable sources ----

  /** `-var key=value`: a parameter source; a value without a non-empty key is refused. */
  function ParseVarParameter(value: string): (r: Result<VarsSource, Error>)
    ensures r.Err? <==> Unnamed(value)
    ensures r.Err? ==> r.error == Syntax("syntax: key=value")
    ensures r.Ok? ==> && r.value.fromParameter.Some?
                      && r.value == VarsSource("", None, None, None, None, r.value.fromParameter, false)
                      && r.value.fromParameter.value.key != "" && '=' !in r.value.fromParameter.value.key
                      && r.value.fromParameter.value.key + "=" + r.value.fromParameter.value.value == value
  {
    var i := IndexByte(value, '=');
    if i <= 0 then Err(Syntax("syntax: key=value"))
    else
      SplitAtFirst(value, i);
      Ok(VarsSource("", None, None, None, None, Some(ParameterVars(value[..i], value[i + 1..])), false))
  }

  /** `-var-file-slurp name=path`: the same acceptance rule, splitting into a name and a path. */
  function ParseVarFileSlurp(value: string): (r: Result<VarsSource, Error>)
    ensures r.Err? <==> Unnamed(value)
    ensures r.Err? ==> r.error == Syntax("syntax: name=path")
    ensures r.Ok? ==> && r.value.fromFileSlurp.Some?
                      && r.value == VarsSource("", None, None, r.value.fromFileSlurp, None, None, false)
                      && r.value.fromFileSlurp.value.name != "" && '=' !in r.value.fromFileSlurp.value.name
                      && r.value.fromFileSlurp.value.name + "=" + r.value.fromFileSlurp.value.path == value
  {
    var i := IndexByte(value, '=');
    if i <= 0 then Err(Syntax("syntax: name=path"))
    else
      SplitAtFirst(value, i);
      Ok(VarsSource("", None, None, Some(FileSlurpVars(value[..i], value[i + 1..])), None, None, false))
  }

  /** The path of a file source, or "-" for stdin. */
  function VarFilePath(s: VarsSource): string
  {
    if s.fromFile.Some? then s.fromFile.value.path else "-"
  }

  /**
   * `-var-file [key=]path`: never refused. A namespace key is taken only when '=' comes after
   * at least one character; what remains is the path, and exactly "-" means stdin.
   */
  function ParseVarFile(value: string): (s: VarsSource)
    ensures s.fromEnv.None? && s.fromFileSlurp.None? && s.fromFilesSlurp.None? && s.fromParameter.None?
    ensures s.fromStdin <==> s.fromFile.None?
    ensures s.fromFile.Some? ==> s.fromFile.value.path != "-"
    ensures s.key == "" <==> Unnamed(value)
    ensures s.key == "" ==> VarFilePath(s) == value
    ensures s.key != "" ==> '=' !in s.key && s.key + "=" + VarFilePath(s) == value
  {
    var i := IndexByte(value, '=');
    var key := if i > 0 then value[..i] else "";
    var rest := if i > 0 then value[i + 1..] else value;
    if i > 0 then SplitAtFirst(value, i); FileSource(key, rest) else FileSource(key, rest)
  }

  /** The source for a file path with a key: stdin for "-". */
  function FileSource(key: string, path: string): (s: VarsSource)
    ensures s.key == key && VarFilePath(s) == path
    ensures s.fromStdin <==> path == "-"
  {
    if path == "-" then VarsSource(key, None, None, None, None, None, true)
    else VarsSource(key, None, Some(FileVars(path)), None, None, None, false)
  }

  /**
   * `-var-env [key=]prefix`: never refused; any '=' splits, even the first character, so "=p"
   * has an empty key; with no '=' the whole value is the prefix.
   */
  function ParseVarEnv(value: string): (s: VarsSource)
    ensures s.fromEnv.Some? && s == VarsSource(s.key, s.fromEnv, None, None, None, None, false)
    ensures '=' in value ==> '=' !in s.key && s.key + "=" + s.fromEnv.value.prefix == value
    ensures '=' !in value ==> s.key == "" && s.fromEnv.value.prefix == value
  {
    var i := IndexByte(value, '=');
    if i >= 0 then
      SplitAtFirst(value, i);
      VarsSource(value[..i], Some(EnvVars(value[i + 1..])), None, None, None, None, false)
    else VarsSource("", Some(EnvVars(value)), None, None, None, None, false)
  }

  /** Joining a key and a value and splitting again gives them back, for every splitter that takes the key. */
  lemma {:induction false} VarsRoundTrip(k: string, v: string)
    requires k != "" && '=' !in k
    ensures ParseVarParameter(k + "=" + v) == Ok(VarsSource("", None, None, None, None, Some(ParameterVars(k, v)), false))
    ensures ParseVarFileSlurp(k + "=" + v) == Ok(VarsSource("", None, None, Some(FileSlurpVars(k, v)), None, None, false))
    ensures ParseVarFile(k + "=" + v) == FileSource(k, v)
  {
    var s := k + "=" + v;
    IndexByteOfJoin(k, '=', v);
    assert s[..|k|] == k && s[|k| + 1..] == v;
  }

  /** The environment splitter also takes an empty key: "=p" is the prefix p at the top level. */
  lemma {:induction false} EnvRoundTrip(k: string, p: string)
    requires '=' !in k
    ensures ParseVarEnv(k + "=" + p) == VarsSource(k, Some(EnvVars(p)), None, None, None, None, false)
  {
    var s := k + "=" + p;
    IndexByteOfJoin(k, '=', p);
    assert s[..|k|] == k && s[|k| + 1..] == p;
  }

  // ---- template sources ----

  /** The name an unnamed parameter template gets: its position in the list. */
  function ParamName(count: nat): string
  {
    "__param_" + Decimal.Itoa(count)
  }

  /** `-template [name=]text`: an unnamed text is named after the number of sources before it and keeps all of its text. */
  function ParseTemplateParameter(value: string, count: nat): (s: TemplateSource)
    ensures s.fromParameter.Some? && s == TemplateSource(s.name, None, None, None, s.fromParameter, false)
    ensures Unnamed(value) ==> s.name == ParamName(count) && s.fromParameter.value.value == value
    ensures !Unnamed(value) ==> s.name != "" && '=' !in s.name && s.name + "=" + s.fromParameter.value.value == value
  {
    var i := IndexByte(value, '=');
    if i <= 0 then TemplateSource(ParamName(count), None, None, None, Some(ParameterTemplate(value)), false)
    else
      SplitAtFirst(value, i);
      TemplateSource(value[..i], None, None, None, Some(ParameterTemplate(value[i + 1..])), false)
  }

  /** The name and path a `-template-file` value denotes: split at the first '=', or the whole value as both. */
  function TemplateFileParts(value: string): (r: (string, string))
    ensures Unnamed(value) ==> r == (value, value)
    ensures !Unnamed(value) ==> r.0 != "" && '=' !in r.0 && r.0 + "=" + r.1 == value
  {
    var i := IndexByte(value, '=');
    UnnamedIndex(value);
    if i <= 0 then (value, value)
    else SplitAtFirst(value, i); (value[..i], value[i + 1..])
  }

  /**
   * `-template-file [name=]path` as written: the stdin test looks at the rebuilt value, which
   * always contains '=' and so is never "-"; every value becomes a file source.
   */
  function ParseTemplateFileAsWritten(value: string): TemplateSource
  {
    var i := IndexByte(value, '=');
    if i <= 0 then
      RebuiltSource(value + "=" + value, |value|)
    else
      RebuiltSource(value, i)
  }

  /** As written, the name and path still come out as the split describes, and only a file or stdin variant is set. */
  lemma TemplateFileAsWrittenParts(value: string)
    ensures var s := ParseTemplateFileAsWritten(value);
      && s.name == TemplateFileParts(value).0
      && s == TemplateSource(s.name, None, s.fromFile, None, None, s.fromStdin)
      && (s.fromFile.Some? ==> s.fromFile.value.path == TemplateFileParts(value).1)
  {
    if IndexByte(value, '=') <= 0 { AsWrittenUnnamed(value); } else { AsWrittenNamed(value); }
  }

  /** The unnamed case: the value rebuilt as `value=value` splits back into the value twice. */
  lemma AsWrittenUnnamed(value: string)
    requires IndexByte(value, '=') <= 0
    ensures var s := ParseTemplateFileAsWritten(value);
      && s.name == TemplateFileParts(value).0
      && s == TemplateSource(s.name, None, s.fromFile, None, None, s.fromStdin)
      && (s.fromFile.Some? ==> s.fromFile.value.path == TemplateFileParts(value).1)
  {
    UnnamedIndex(value);
    var value' := value + "=" + value;
    assert value'[..|value|] == value && value'[|value| + 1..] == value && value'[|value|] == '=';
    assert value' != "-";
  }

  /** The named case: the split at the first '='. */
  lemma AsWrittenNamed(value: string)
    requires IndexByte(value, '=') > 0
    ensures var s := ParseTemplateFileAsWritten(value);
      && s.name == TemplateFileParts(value).0
      && s == TemplateSource(s.name, None, s.fromFile, None, None, s.fromStdin)
      && (s.fromFile.Some? ==> s.fromFile.value.path == TemplateFileParts(value).1)
  {
    UnnamedIndex(value);
    SplitAtFirst(value, IndexByte(value, '='));
    assert value[IndexByte(value, '=')] == '=' && value != "-";
  }

  /** The source the code builds from the (possibly rebuilt) value and the split index. */
  function RebuiltSource(value: string, i: nat): TemplateSource
    requires i < |value|
  {
    if value == "-" then TemplateSource(value[..i], None, None, None, None, true)
    else TemplateSource(value[..i], None, Some(FileTemplate(value[i + 1..])), None, None, false)
  }

  /** As written, the stdin branch can never be taken: every value becomes a file source. */
  lemma TemplateFileStdinUnreachable(value: string)
    ensures !ParseTemplateFileAsWritten(value).fromStdin
    ensures ParseTemplateFileAsWritten(value).fromFile.Some?
  {
    var i := IndexByte(value, '=');
    if i <= 0 {
      var value' := value + "=" + value;
      assert value'[|value|] == '=';
      assert value' != "-";
    } else {
      assert value[i] == '=';
    }
  }

  /** As written, "-" reads a file named "-" rather than stdin. */
  lemma TemplateFileDashAsWritten()
    ensures ParseTemplateFileAsWritten("-") == TemplateSource("-", None, Some(FileTemplate("-")), None, None, false)
  {
    var dash := "-" + "=" + "-";
    assert IndexByte("-", '=') == -1;
    assert dash[..1] == "-" && dash[2..] == "-";
  }

  /** `-template-file [name=]path`, with the path "-" selecting stdin as the branch intends. */
  function ParseTemplateFile(value: string): (s: TemplateSource)
    ensures s.name == TemplateFileParts(value).0
    ensures s.fromStdin <==> TemplateFileParts(value).1 == "-"
    ensures !s.fromStdin ==> s == TemplateSource(s.name, None, Some(FileTemplate(TemplateFileParts(value).1)), None, None, false)
    ensures s.fromStdin ==> s == TemplateSource(s.name, None, None, None, None, true)
  {
    var (name, path) := TemplateFileParts(value);
    if path == "-" then TemplateSource(name, None, None, None, None, true)
    else TemplateSource(name, None, Some(FileTemplate(path)), None, None, false)
  }

  /** The corrected parser differs from the code only where the path is "-". */
  lemma TemplateFileCorrection(value: string)
    ensures TemplateFileParts(value).1 != "-" ==> ParseTemplateFile(value) == ParseTemplateFileAsWritten(value)
  {
    TemplateFileStdinUnreachable(value);
    TemplateFileAsWrittenParts(value);
  }

  /** With the correction, "-" reads the template named "-" from stdin. */
  lemma TemplateFileDash()
    ensures ParseTemplateFile("-") == TemplateSource("-", None, None, None, None, true)
  {
    assert IndexByte("-", '=') == -1;
  }

  /** `-template-file-glob pattern`: the pattern is both the name and the glob. */
  function ParseTemplateFileGlob(value: string): (s: TemplateSource)
    ensures s.name == value && s.fromFileGlob == Some(FileGlobTemplate(value))
    ensures s.fromEnv.None? && s.fromFile.None? && s.fromParameter.None? && !s.fromStdin
  {
    TemplateSource(value, None, None, Some(FileGlobTemplate(value)), None, false)
  }

  /** Joining a name and a text and splitting again gives them back. */
  lemma {:induction false} TemplateRoundTrip(k: string, v: string, count: nat)
    requires k != "" && '=' !in k
    ensures ParseTemplateParameter(k + "=" + v, count) == TemplateSource(k, None, None, None, Some(ParameterTemplate(v)), false)
    ensures TemplateFileParts(k + "=" + v) == (k, v)
  {
    var s := k + "=" + v;
    IndexByteOfJoin(k, '=', v);
    assert s[..|k|] == k && s[|k| + 1..] == v;
  }

  // ---- the flag values, appending to the shared lists ----

  /** The configuration's list of variable sources, which the variable flags append to. */
  class VarsSourceList {
    var items: seq<VarsSource>

    constructor ()
      ensures items == []
    {
      items := [];
    }

    /** `varsSourcesParameter.Set`. */
    method SetParameter(value: string) returns (err: Option<Error>)
      modifies this
      ensures ParseVarParameter(value).Err? ==> err == Some(ParseVarParameter(value).error) && items == old(items)
      ensures ParseVarParameter(value).Ok? ==> err.None? && items == old(items) + [ParseVarParameter(value).value]
    {
      var i := IndexByte(value, '=');
      if i <= 0 {
        return Some(Syntax("syntax: key=value"));
      }
      var source := VarsSource("", None, None, None, None, Some(ParameterVars(value[..i], value[i + 1..])), false);
      items := items + [source];
      return None;
    }

    /** `varsSourcesFile.Set`. */
    method SetFile(value: string)
      modifies this
      ensures items == old(items) + [ParseVarFile(value)]
    {
      var value := value;
      var i := IndexByte(value, '=');
      var key := "";
      if i > 0 {
        key := value[..i];
        value := value[i + 1..];
      }
      var source;
      if value == "-" {
        source := VarsSource(key, None, None, None, None, None, true);
      } else {
        source := VarsSource(key, None, Some(FileVars(value)), None, None, None, false);
      }
      items := items + [source];
    }

    /** `varsSourcesFileSlurp.Set`. */
    method SetFileSlurp(value: string) returns (err: Option<Error>)
      modifies this
      ensures ParseVarFileSlurp(value).Err? ==> err == Some(ParseVarFileSlurp(value).error) && items == old(items)
      ensures ParseVarFileSlurp(value).Ok? ==> err.None? && items == old(items) + [ParseVarFileSlurp(value).value]
    {
      var i := IndexByte(value, '=');
      if i <= 0 {
        return Some(Syntax("syntax: name=path"));
      }
      var source := VarsSource("", None, None, Some(FileSlurpVars(value[..i], value[i + 1..])), None, None, false);
      items := items + [source];
      return None;
    }

    /** `varsSourcesEnvPrefix.Set`. */
    method SetEnvPrefix(value: string)
      modifies this
      ensures items == old(items) + [ParseVarEnv(value)]
    {
      var value := value;
      var i := IndexByte(value, '=');
      var key := "";
      if i >= 0 {
        key := value[..i];
        value := value[i + 1..];
      }
      items := items + [VarsSource(key, Some(EnvVars(value)), None, None, None, None, false)];
    }
  }

  /** The configuration's list of template sources, which the template flags append to. */
  class TemplateSourceList {
    var items: seq<TemplateSource>

    constructor ()
      ensures items == []
    {
      items := [];
    }

    /** `templateSourcesParameter.Set`: an unnamed text gets its name from the list's length. */
    method SetParameter(value: string)
      modifies this
      ensures items == old(items) + [ParseTemplateParameter(value, |old(items)|)]
    {
      var value := value;
      var i := IndexByte(value, '=');
      if i <= 0 {
        var name := ParamName(|items|);
        i := |name|;
        value := name + "=" + value;
        assert value[..i] == name;
      }
      items := items + [TemplateSource(value[..i], None, None, None, Some(ParameterTemplate(value[i + 1..])), false)];
    }

    /** `templateSourcesFile.Set`, with the stdin test on the path. */
    method SetFile(value: string)
      modifies this
      ensures items == old(items) + [ParseTemplateFile(value)]
    {
      var original := value;
      var value := value;
      var i := IndexByte(value, '=');
      UnnamedIndex(value);
      if i <= 0 {
        i := |value|;
        value := value + "=" + value;
        assert value[i] == '=';
        assert value[..i] == original && value[i + 1..] == original;
      }
      var source;
      if value[i + 1..] == "-" {
        source := TemplateSource(value[..i], None, None, None, None, true);
      } else {
        source := TemplateSource(value[..i], None, Some(FileTemplate(value[i + 1..])), None, None, false);
      }
      items := items + [source];
    }

    /** `templateSourcesFileGlob.Set`. */
    method SetFileGlob(value: string)
      modifies this
      ensures items == old(items) + [ParseTemplateFileGlob(value)]
    {
      items := items + [TemplateSource(value, None, None, Some(FileGlobTemplate(value)), None, false)];
    }
  }
}
