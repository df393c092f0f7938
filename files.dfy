/** `Files`: the path → content map a files-slurp source produces, and its helpers. */
module Files {
  import opened Wrappers
  import opened Values
  import opened Io

  newtype byte = b: int | 0 <= b < 256

  /** A string whose characters all stand for single bytes, as every Go string is. */
  predicate IsByteString(s: string)
  {
    forall i | 0 <= i < |s| :: s[i] as int < 256
  }

  /** The panic of Go's `f[name].(string)` when the entry is missing (a nil interface) or not a string. */
  const NotAString := Panic("interface conversion: interface {} is not string")

  /**
   * `Files.Get`: the string stored under the name. The type assertion panics when the name is
   * absent (also in a nil `Files`, where every lookup misses) or holds anything but a string.
   */
  function Get(f: map<string, Value>, name: string): (r: Result<string, Error>)
    ensures r.Ok? <==> name in f && f[name].Str?
    ensures r.Ok? ==> f[name] == Str(r.value)
    ensures r.Err? ==> r.error == NotAString
  {
    if name in f && f[name].Str? then Ok(f[name].s) else Err(NotAString)
  }

  /** `Files.GetBytes`: the bytes of `Get(name)`, one per character, or `Get`'s panic. */
  function GetBytes(f: map<string, Value>, name: string): (r: Result<seq<byte>, Error>)
    requires name in f && f[name].Str? ==> IsByteString(f[name].s)
    ensures r.Err? <==> Get(f, name).Err?
    ensures r.Err? ==> r.error == Get(f, name).error
    ensures r.Ok? ==> |r.value| == |Get(f, name).value| &&
                      forall i | 0 <= i < |r.value| :: r.value[i] as int == Get(f, name).value[i] as int
  {
    match Get(f, name)
    case Err(e) => Err(e)
    case Ok(s) => Ok(seq(|s|, i requires 0 <= i < |s| => s[i] as int as byte))
  }

  /**
   * `Files.Glob`: a new map of exactly the entries whose names match the pattern, with the
   * same values; an invalid pattern gives its error. `f` is a value and stays as it was.
   */
  method Glob(f: map<string, Value>, pattern: string, compile: string -> Result<Matcher, Error>)
    returns (r: Result<map<string, Value>, Error>)
    ensures compile(pattern).Err? ==> r == Err(compile(pattern).error)
    ensures compile(pattern).Ok? ==> r.Ok?
    ensures r.Ok? ==> forall name :: name in r.value <==> name in f && compile(pattern).value(name)
    ensures r.Ok? ==> forall name | name in r.value :: r.value[name] == f[name]
  {
    var g := compile(pattern);
    if g.Err? {
      return Err(g.error);
    }
    var result: map<string, Value> := map[];
    var todo := f.Keys;
    while todo != {}
      invariant todo <= f.Keys
      invariant forall name :: name in result <==> name in f && name !in todo && g.value(name)
      invariant forall name | name in result :: result[name] == f[name]
      decreases todo
    {
      var name :| name in todo;
      if g.value(name) {
        result := result[name := f[name]];
      }
      todo := todo - {name};
    }
    return Ok(result);
  }
}
