/**
 * The dynamically typed values that variables hold (Go's `interface{}` as the decoders and
 * the variable store produce it), and the errors the core reports.
 */
module Values {
  import opened Wrappers

  /** A key of a map with `interface{}` keys, as the YAML decoder produces them. */
  datatype Key =
    | KeyStr(s: string)
    | KeyInt(i: int)
    | KeyBool(b: bool)
    | KeyFloat(f: real)
    | KeyNil

  /**
   * A variable value. The three string-keyed map variants stand for three different Go types
   * with the same underlying type: `map[string]interface{}` (Map), the named type `Vars`
   * (VarsMap) and the named type `Files` (FilesMap); a type switch tells them apart.
   */
  datatype Value =
    | Nil
    | Bool(b: bool)
    | Int(i: int)
    | Float(f: real)
    | Str(s: string)
    | List(items: seq<Value>)
    | Map(m: map<string, Value>)
    | VarsMap(m: map<string, Value>)
    | FilesMap(m: map<string, Value>)
    | NilFiles
    | AnyMap(a: map<Key, Value>)

  datatype Format = Json | Yaml | Toml

  datatype Error =
    | NoSuchFunction(name: string)           // a name neither registry knows
    | CallFailed(msg: string)                // the error a called function returned
    | Panic(msg: string)                     // a run-time panic, which the template engine turns into an error
    | BadArgs(msg: string)                   // arguments the template engine cannot pass to a function
    | Syntax(msg: string)                    // a malformed command-line flag value
    | ReadFailed(path: string)               // opening or reading a file failed
    | StdinFailed(msg: string)               // reading standard input failed
    | DecodeFailed(format: Format, msg: string)
    | BadPattern(pattern: string)            // a glob pattern that does not compile
    | ParseFailed(name: string, msg: string) // template text with a syntax error
    | ExecFailed(name: string, msg: string)  // a template failed while executing
    | WriteFailed(path: string)              // creating an output file or its directory failed

  /** The text of an error; only the first two are texts the core itself composes. */
  function Message(e: Error): string
  {
    match e
    case NoSuchFunction(name) => "no such function: '" + name + "'"
    case Syntax(msg) => msg
    case CallFailed(msg) => msg
    case Panic(msg) => msg
    case BadArgs(msg) => msg
    case ReadFailed(path) => path
    case StdinFailed(msg) => msg
    case DecodeFailed(_, msg) => msg
    case BadPattern(pattern) => pattern
    case ParseFailed(_, msg) => msg
    case ExecFailed(_, msg) => msg
    case WriteFailed(path) => path
  }
}
