/**
 * The world outside the core, passed in as values: the readable files, what reading standard
 * input returns, the process environment and the expansion of `filepath.Glob` patterns.
 */
module Io {
  import opened Wrappers
  import opened Values
  import opened Strings

  /** What `ioutil.ReadAll(os.Stdin)` returns: the bytes read, and an error if the read failed. */
  datatype StdinRead = StdinRead(data: string, err: Option<Error>)

  datatype WorldState = WorldState(
    files: map<string, string>,                   // the files that can be opened and read, by path
    stdin: StdinRead,
    environ: seq<string>,                         // `os.Environ()`
    glob: string -> Result<seq<string>, Error>)   // `filepath.Glob`: the matches in order, or a pattern error

  /** The world as the operating system presents it: every environment entry has the form key=value. */
  type World = w: WorldState | WellFormedEnviron(w.environ)
    witness WorldState(map[], StdinRead("", None), [], (p: string) => Ok([]))

  /**
   * The world once standard input has been read to its end: a later `ioutil.ReadAll(os.Stdin)`
   * returns no bytes and no error. Everything else is as it was.
   */
  function Drained(world: World): World
  {
    world.(stdin := StdinRead("", None))
  }

  /** A compiled glob pattern (`glob.Glob`): whether a name matches. */
  type Matcher = string -> bool

  /**
   * `os.Environ()` yields only entries that contain '='. It also yields each key once; the model
   * does not require that, so what it proves about repeated keys covers more than can occur
   * (with distinct keys every entry is the last of its key).
   */
  predicate WellFormedEnviron(environ: seq<string>)
  {
    forall i | 0 <= i < |environ| :: '=' in environ[i]
  }

  /** The key of an environment entry: the text before its first '='. */
  function EntryKey(entry: string): string
    requires '=' in entry
  {
    entry[..IndexByte(entry, '=')]
  }

  /** The value of an environment entry: everything after its first '='. */
  function EntryValue(entry: string): string
    requires '=' in entry
  {
    entry[IndexByte(entry, '=') + 1..]
  }

  /** An entry is its key, an '=' and its value, and the key holds no '='. */
  lemma EntrySplit(entry: string)
    requires '=' in entry
    ensures EntryKey(entry) + "=" + EntryValue(entry) == entry
    ensures '=' !in EntryKey(entry)
  {
  }

  /** `os.Getenv`: the value of the first entry with that key, or "" when there is none. */
  function Getenv(environ: seq<string>, key: string): (v: string)
    requires WellFormedEnviron(environ)
    ensures (forall i | 0 <= i < |environ| :: EntryKey(environ[i]) != key) ==> v == ""
    ensures forall i | 0 <= i < |environ| && EntryKey(environ[i]) == key ::
              (forall j | 0 <= j < i :: EntryKey(environ[j]) != key) ==> v == EntryValue(environ[i])
  {
    if |environ| == 0 then ""
    else if EntryKey(environ[0]) == key then EntryValue(environ[0])
    else Getenv(environ[1..], key)
  }
}
