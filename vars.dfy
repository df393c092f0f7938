/**
 * The variable store (`Vars`): normalisation of decoded values, merging, the environment
 * loaders and the three decoders, which are opaque functions here.
 */
module Vars {
  import opened Wrappers
  import opened Values
  import opened Strings
  import opened Decimal
  import opened Io

  /** True when every key of an interface-keyed map is a string or an int. */
  predicate StringOrIntKeys(a: map<Key, Value>)
  {
    forall k | k in a :: k.KeyStr? || k.KeyInt?
  }

  /** The string a string or int key becomes: itself, or `strconv.Itoa` of it. */
  function KeyText(k: Key): string
    requires k.KeyStr? || k.KeyInt?
  {
    if k.KeyStr? then k.s else Itoa(k.i)
  }

  lemma ItoaInjectiveAll()
    ensures forall a: int, b: int {:trigger Itoa(a), Itoa(b)} :: Itoa(a) == Itoa(b) ==> a == b
  {
    forall a: int, b: int | Itoa(a) == Itoa(b) ensures a == b {
      ItoaInjective(a, b);
    }
  }

  /** The entries of the int keys, under their decimal text. */
  function IntKeyed(f: map<Key, Value>): (r: map<string, Value>)
    ensures forall i | KeyInt(i) in f :: Itoa(i) in r && r[Itoa(i)] == f[KeyInt(i)]
    ensures forall t | t in r :: exists i | KeyInt(i) in f :: Itoa(i) == t
  {
    ItoaInjectiveAll();
    map k | k in f && k.KeyInt? :: Itoa(k.i) := f[k]
  }

  /** The entries of the string keys. */
  function StringKeyed(f: map<Key, Value>): (r: map<string, Value>)
    ensures forall s :: s in r <==> KeyStr(s) in f
    ensures forall s | s in r :: r[s] == f[KeyStr(s)]
  {
    map k | k in f && k.KeyStr? :: k.s := f[k]
  }

  /**
   * The string-keyed map an interface-keyed map with only string and int keys becomes. Go
   * iterates the map in an unspecified order, so when a string key and an int key have the
   * same text either may win; the model lets the string key win.
   */
  function Narrow(f: map<Key, Value>): (r: map<string, Value>)
    requires StringOrIntKeys(f)
    ensures forall s | KeyStr(s) in f :: s in r && r[s] == f[KeyStr(s)]
    ensures forall i | KeyInt(i) in f && KeyStr(Itoa(i)) !in f :: Itoa(i) in r && r[Itoa(i)] == f[KeyInt(i)]
  {
    IntKeyed(f) + StringKeyed(f)
  }

  /** Narrowing keeps exactly the texts of the keys. */
  lemma NarrowKeys(f: map<Key, Value>)
    requires StringOrIntKeys(f)
    ensures Narrow(f).Keys == set k | k in f :: KeyText(k)
  {
    var r := Narrow(f);
    forall t | t in r ensures t in set k | k in f :: KeyText(k) {
      if KeyStr(t) in f {
        assert KeyText(KeyStr(t)) == t;
      } else {
        var i :| KeyInt(i) in f && Itoa(i) == t;
        assert KeyText(KeyInt(i)) == t;
      }
    }
    forall k | k in f ensures KeyText(k) in r {
      if k.KeyInt? { assert Itoa(k.i) in IntKeyed(f); }
    }
  }

  /** Every entry of a narrowed map comes from an entry of the original with that text. */
  lemma NarrowFrom(f: map<Key, Value>, t: string)
    requires StringOrIntKeys(f) && t in Narrow(f)
    ensures exists k | k in f :: KeyText(k) == t && Narrow(f)[t] == f[k]
  {
    if KeyStr(t) in f {
      assert KeyText(KeyStr(t)) == t;
    } else {
      var i :| KeyInt(i) in f && Itoa(i) == t;
      assert KeyText(KeyInt(i)) == t;
    }
  }

  /** `flatten`: narrows the interface-keyed maps the YAML decoder produces to string-keyed maps. */
  function Flatten(v: Value): (r: Value)
    decreases v, 1
    ensures v.Map? || v.VarsMap? ==> r.Map? && r.m.Keys == v.m.Keys
    ensures v.List? ==> r.List? && |r.items| == |v.items|
    ensures v.AnyMap? && StringOrIntKeys(v.a) ==> r.Map? && r.m.Keys == set k | k in v.a :: KeyText(k)
    ensures v.AnyMap? && !StringOrIntKeys(v.a) ==> r == v
    ensures !(v.Map? || v.VarsMap? || v.AnyMap? || v.List?) ==> r == v
  {
    match v
    case VarsMap(m) => Map(map k | k in m :: Flatten(m[k]))
    case Map(m) => Map(map k | k in m :: Flatten(m[k]))
    case AnyMap(a) =>
      if StringOrIntKeys(a) then
        var f := FlattenValues(a);
        assert StringOrIntKeys(f);
        NarrowKeys(f);
        Map(Narrow(f))
      else v
    case List(items) => List(seq(|items|, i requires 0 <= i < |items| => Flatten(items[i])))
    case _ => v
  }

  /** The entries of an interface-keyed map with every value flattened, before narrowing. */
  function FlattenValues(a: map<Key, Value>): (f: map<Key, Value>)
    ensures f.Keys == a.Keys
    decreases AnyMap(a), 0
  {
    map k | k in a :: Flatten(a[k])
  }

  /** An interface-keyed map with only string and int keys flattens to its narrowed flattened entries. */
  lemma FlattenAnyMapIs(a: map<Key, Value>)
    requires StringOrIntKeys(a)
    ensures StringOrIntKeys(FlattenValues(a))
    ensures Flatten(AnyMap(a)) == Map(Narrow(FlattenValues(a)))
  {
    var v := AnyMap(a);
    assert v.AnyMap? && v.a == a;
  }

  /** Each entry of a narrowed map is the normalised value of an entry with the same text. */
  lemma FlattenAnyMapEntry(a: map<Key, Value>, t: string)
    requires StringOrIntKeys(a) && t in Flatten(AnyMap(a)).m
    ensures exists k | k in a :: KeyText(k) == t && Flatten(AnyMap(a)).m[t] == Flatten(a[k])
  {
    var f := FlattenValues(a);
    FlattenAnyMapIs(a);
    NarrowFrom(f, t);
    var k :| k in f && KeyText(k) == t && Narrow(f)[t] == f[k];
    assert f[k] == Flatten(a[k]);
  }

  /**
   * The normal form `flatten` produces: no `Vars`-typed map, and no interface-keyed map whose
   * keys are all strings or ints, reachable through string-keyed maps and slices. An
   * interface-keyed map with another key is left as it is, together with everything inside it,
   * and so are `Files` maps.
   */
  predicate Normalized(v: Value)
  {
    match v
    case Map(m) => forall k | k in m :: Normalized(m[k])
    case VarsMap(_) => false
    case AnyMap(a) => !StringOrIntKeys(a)
    case List(items) => forall i | 0 <= i < |items| :: Normalized(items[i])
    case _ => true
  }

  /** `flatten` always yields the normal form. */
  lemma {:induction false} FlattenNormalizes(v: Value)
    ensures Normalized(Flatten(v))
  {
    match v
    case VarsMap(m) =>
      forall k | k in m ensures Normalized(Flatten(m[k])) { FlattenNormalizes(m[k]); }
    case Map(m) =>
      forall k | k in m ensures Normalized(Flatten(m[k])) { FlattenNormalizes(m[k]); }
    case AnyMap(a) =>
      if StringOrIntKeys(a) {
        var r := Flatten(v).m;
        forall t | t in r ensures Normalized(r[t]) {
          FlattenAnyMapEntry(a, t);
          var k :| k in a && KeyText(k) == t && r[t] == Flatten(a[k]);
          FlattenNormalizes(a[k]);
        }
      }
    case List(items) =>
      forall i | 0 <= i < |items| ensures Normalized(Flatten(items[i])) { FlattenNormalizes(items[i]); }
    case _ =>
  }

  /** A value already in normal form is left exactly as it is. */
  lemma {:induction false} FlattenFixesNormalized(v: Value)
    requires Normalized(v)
    ensures Flatten(v) == v
  {
    match v
    case Map(m) =>
      forall k | k in m ensures Flatten(m[k]) == m[k] { FlattenFixesNormalized(m[k]); }
      assert Flatten(v).m == m;
    case List(items) =>
      forall i | 0 <= i < |items| ensures Flatten(items[i]) == items[i] { FlattenFixesNormalized(items[i]); }
      assert Flatten(v).items == items;
    case _ =>
  }

  /** Normalising twice is normalising once. */
  lemma FlattenIdempotent(v: Value)
    ensures Flatten(Flatten(v)) == Flatten(v)
  {
    FlattenNormalizes(v);
    FlattenFixesNormalized(Flatten(v));
  }

  /** The decoders, opaque: each turns the bytes of a document into a top-level mapping or fails. */
  datatype Codecs = Codecs(
    json: string -> Result<map<string, Value>, Error>,
    yaml: string -> Result<map<string, Value>, Error>,
    toml: string -> Result<map<string, Value>, Error>)

  /** The store after `fromEnv(prefix)`: matching entries applied in environment order. */
  function EnvOverlay(m: map<string, Value>, environ: seq<string>, prefix: string): map<string, Value>
    requires WellFormedEnviron(environ)
    decreases |environ|
  {
    if |environ| == 0 then m
    else
      var key := EntryKey(environ[0]);
      EnvOverlay(if HasPrefix(key, prefix) then m[key := Str(EntryValue(environ[0]))] else m,
                 environ[1..], prefix)
  }

  /** `fromEnv` adds exactly the keys of the entries that have the prefix. */
  lemma {:induction false} EnvOverlayKeys(m: map<string, Value>, environ: seq<string>, prefix: string, k: string)
    requires WellFormedEnviron(environ)
    ensures k in EnvOverlay(m, environ, prefix) <==>
              k in m || exists i | 0 <= i < |environ| :: EntryKey(environ[i]) == k && HasPrefix(k, prefix)
    decreases |environ|
  {
    if |environ| > 0 {
      var key := EntryKey(environ[0]);
      var next := if HasPrefix(key, prefix) then m[key := Str(EntryValue(environ[0]))] else m;
      EnvOverlayKeys(next, environ[1..], prefix, k);
      assert forall i | 1 <= i < |environ| :: environ[1..][i - 1] == environ[i];
      if exists i | 0 <= i < |environ| :: EntryKey(environ[i]) == k && HasPrefix(k, prefix) {
        var i :| 0 <= i < |environ| && EntryKey(environ[i]) == k && HasPrefix(k, prefix);
        if i > 0 { assert EntryKey(environ[1..][i - 1]) == k; }
      }
    }
  }

  /** The entry of a key that comes last in the environment gives that key's value. */
  lemma {:induction false} EnvOverlayLastWins(m: map<string, Value>, environ: seq<string>, prefix: string, i: nat)
    requires WellFormedEnviron(environ)
    requires i < |environ| && HasPrefix(EntryKey(environ[i]), prefix)
    requires forall j | i < j < |environ| :: EntryKey(environ[j]) != EntryKey(environ[i])
    ensures EntryKey(environ[i]) in EnvOverlay(m, environ, prefix)
    ensures EnvOverlay(m, environ, prefix)[EntryKey(environ[i])] == Str(EntryValue(environ[i]))
    decreases |environ|
  {
    var key := EntryKey(environ[0]);
    var next := if HasPrefix(key, prefix) then m[key := Str(EntryValue(environ[0]))] else m;
    if i == 0 {
      EnvOverlayUntouched(next, environ[1..], prefix, key);
    } else {
      assert environ[1..][i - 1] == environ[i];
      EnvOverlayLastWins(next, environ[1..], prefix, i - 1);
    }
  }

  /** A key no matching entry mentions keeps its value. */
  lemma {:induction false} EnvOverlayUntouched(m: map<string, Value>, environ: seq<string>, prefix: string, k: string)
    requires WellFormedEnviron(environ) && k in m
    requires forall j | 0 <= j < |environ| :: EntryKey(environ[j]) != k || !HasPrefix(k, prefix)
    ensures k in EnvOverlay(m, environ, prefix) && EnvOverlay(m, environ, prefix)[k] == m[k]
    decreases |environ|
  {
    if |environ| > 0 {
      var key := EntryKey(environ[0]);
      var next := if HasPrefix(key, prefix) then m[key := Str(EntryValue(environ[0]))] else m;
      assert forall j | 0 <= j < |environ| - 1 :: environ[1..][j] == environ[j + 1];
      EnvOverlayUntouched(next, environ[1..], prefix, k);
    }
  }

  /** An empty prefix copies every entry of the environment. */
  lemma EnvOverlayEmptyPrefix(m: map<string, Value>, environ: seq<string>, i: nat)
    requires WellFormedEnviron(environ) && i < |environ|
    ensures EntryKey(environ[i]) in EnvOverlay(m, environ, "")
  {
    assert HasPrefix(EntryKey(environ[i]), "");
    EnvOverlayKeys(m, environ, "", EntryKey(environ[i]));
  }

  /** A `Vars` value, which the loaders update in place. */
  class VarsStore {
    var entries: map<string, Value>

    constructor (entries: map<string, Value>)
      ensures this.entries == entries
    {
      this.entries := entries;
    }

    /** `overwriteWith`: every key of `other` takes `other`'s value; every other key is kept. */
    method OverwriteWith(other: map<string, Value>)
      modifies this
      ensures entries == old(entries) + other
    {
      var todo := other.Keys;
      while todo != {}
        invariant todo <= other.Keys
        invariant entries == old(entries) + map k | k in other && k !in todo :: other[k]
        decreases todo
      {
        var k :| k in todo;
        entries := entries[k := other[k]];
        todo := todo - {k};
      }
      assert (map k | k in other && k !in todo :: other[k]) == other;
    }

    /** `fromJSON`: the decoded mapping is merged only when decoding succeeds. */
    method FromJSON(content: string, codecs: Codecs) returns (err: Option<Error>)
      modifies this
      ensures codecs.json(content).Ok? ==> err == None && entries == old(entries) + codecs.json(content).value
      ensures codecs.json(content).Err? ==> err == Some(codecs.json(content).error) && entries == old(entries)
    {
      var decoded := codecs.json(content);
      if decoded.Err? {
        return Some(decoded.error);
      }
      OverwriteWith(decoded.value);
      return None;
    }

    /** `fromYAML`: as `fromJSON`, with the decoded mapping normalised by `flatten`. */
    method FromYAML(content: string, codecs: Codecs) returns (err: Option<Error>)
      modifies this
      ensures codecs.yaml(content).Ok? ==>
                err == None && entries == old(entries) + Flatten(VarsMap(codecs.yaml(content).value)).m
      ensures codecs.yaml(content).Err? ==> err == Some(codecs.yaml(content).error) && entries == old(entries)
    {
      var raw := codecs.yaml(content);
      if raw.Err? {
        return Some(raw.error);
      }
      var flat := Flatten(VarsMap(raw.value));
      OverwriteWith(flat.m);
      return None;
    }

    /** `fromTOML`: as `fromYAML`, with the TOML decoder. */
    method FromTOML(content: string, codecs: Codecs) returns (err: Option<Error>)
      modifies this
      ensures codecs.toml(content).Ok? ==>
                err == None && entries == old(entries) + Flatten(VarsMap(codecs.toml(content).value)).m
      ensures codecs.toml(content).Err? ==> err == Some(codecs.toml(content).error) && entries == old(entries)
    {
      var raw := codecs.toml(content);
      if raw.Err? {
        return Some(raw.error);
      }
      var flat := Flatten(VarsMap(raw.value));
      OverwriteWith(flat.m);
      return None;
    }

    /** `fromEnvSingle(key)`: sets exactly `key`, to that variable's value ("" when unset). */
    method FromEnvSingle(key: string, environ: seq<string>)
      requires WellFormedEnviron(environ)
      modifies this
      ensures entries == old(entries)[key := Str(Getenv(environ, key))]
    {
      entries := entries[key := Str(Getenv(environ, key))];
    }

    /** `fromEnv(prefix)`: copies each entry whose key has the prefix, in environment order. */
    method FromEnv(prefix: string, environ: seq<string>)
      requires WellFormedEnviron(environ)
      modifies this
      ensures entries == EnvOverlay(old(entries), environ, prefix)
    {
      var n := 0;
      while n < |environ|
        invariant 0 <= n <= |environ|
        invariant EnvOverlay(entries, environ[n..], prefix) == EnvOverlay(old(entries), environ, prefix)
      {
        var entry := environ[n];
        var i := IndexByte(entry, '=');
        var key := entry[..i];
        if HasPrefix(key, prefix) {
          var value := entry[i + 1..];
          entries := entries[key := Str(value)];
        }
        assert environ[n..][1..] == environ[n + 1..];
        n := n + 1;
      }
    }
  }
}
