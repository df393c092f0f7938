/**
 * The template function registry: the higher-order `map`/`filter` family that looks functions
 * up by name, the `set`/`unset` dictionary mutators, the wrappers around the template
 * language's builtins, and the composition of the registry in `Funcs()`.
 */
module Funcs {
  import opened Wrappers
  import opened Values
  import Decimal

  /** What one call of a template function gives: its first result and, if it has one, its error. */
  datatype Outcome = Outcome(primary: Value, err: Option<Error>)

  /** A function the engine can call, as `reflect.Value.Call` sees it. */
  type Callable = seq<Value> -> Outcome

  datatype HigherOrderOp = MapOp | FilterOp | MapFlipOp | FilterFlipOp

  /** The `Flip` variants pass the element last instead of first. */
  predicate LastArg(op: HigherOrderOp)
  {
    op == MapFlipOp || op == FilterFlipOp
  }

  /** `filter` and `filterFlip` keep elements; `map` and `mapFlip` transform them. */
  predicate Keeps(op: HigherOrderOp)
  {
    op == FilterOp || op == FilterFlipOp
  }

  /**
   * A registry entry. The higher-order entries are closures over the registry they are stored
   * in, so they are kept symbolic and given meaning by `Invoke` against that registry.
   */
  datatype Func = Native(call: Callable) | HigherOrder(op: HigherOrderOp)

  type FuncMap = map<string, Func>

  // ---- lookup ----

  /** `findFunc`: the registry first, then the builtin wrappers, else an error naming the function. */
  function FindFunc(funcs: FuncMap, builtins: map<string, Callable>, name: string): (r: Result<Func, Error>)
    ensures r.Ok? <==> name in funcs || name in builtins
    ensures name in funcs ==> r.value == funcs[name]
    ensures name !in funcs && name in builtins ==> r.value == Native(builtins[name])
    ensures r.Err? ==> r.error == NoSuchFunction(name) && Message(r.error) == "no such function: '" + name + "'"
  {
    if name in funcs then Ok(funcs[name])
    else if name in builtins then Ok(Native(builtins[name]))
    else Err(NoSuchFunction(name))
  }

  // ---- map and filter ----

  /** The arguments of one element call: the element first, or last for the `Flip` variants. */
  function CallArgs(fixed: seq<Value>, x: Value, lastArg: bool): (args: seq<Value>)
    ensures |args| == |fixed| + 1
    ensures lastArg ==> args[|fixed|] == x && args[..|fixed|] == fixed
    ensures !lastArg ==> args[0] == x && args[1..] == fixed
  {
    if lastArg then fixed + [x] else [x] + fixed
  }

  /** What `reflect.Value.Call` panics with when an argument is the zero Value. */
  const ZeroValueArgument := Panic("reflect: Call using zero Value argument")

  /**
   * `reflect.Value.Call` on the arguments `reflect.ValueOf` made of `args`: a nil becomes the zero
   * Value, which `Call` refuses before the function runs.
   */
  function ReflectCall(call: Callable, args: seq<Value>): Outcome
  {
    if HasNil(args) then Outcome(Nil, Some(ZeroValueArgument)) else call(args)
  }

  /** Whether some argument is nil, looked at from the first on. */
  predicate HasNil(args: seq<Value>)
  {
    |args| > 0 && (args[0] == Nil || HasNil(args[1..]))
  }

  /** `HasNil` is membership of nil. */
  lemma {:induction false} HasNilIn(args: seq<Value>)
    ensures HasNil(args) <==> Nil in args
  {
    if |args| > 0 {
      HasNilIn(args[1..]);
      assert args == [args[0]] + args[1..];
    }
  }

  /** The call for element `x`. */
  function At(call: Callable, fixed: seq<Value>, x: Value, lastArg: bool): Outcome
  {
    ReflectCall(call, CallArgs(fixed, x, lastArg))
  }

  /** `ys` in front of a successful result; an error stays as it is. */
  function Prepend(ys: seq<Value>, r: Result<seq<Value>, Error>): Result<seq<Value>, Error>
  {
    match r
    case Ok(zs) => Ok(ys + zs)
    case Err(e) => Err(e)
  }

  /** Putting `a` in front of `b` in front of a result is putting `a + b` in front of it. */
  lemma PrependPrepend(a: seq<Value>, b: seq<Value>, r: Result<seq<Value>, Error>)
    ensures Prepend(a, Prepend(b, r)) == Prepend(a + b, r)
    ensures Prepend([], r) == r
  {
    if r.Ok? {
      assert a + (b + r.value) == (a + b) + r.value;
      assert [] + r.value == r.value;
    }
  }

  /** What `reflectMap` computes: the primary results in order, or the first error. */
  function Mapped(call: Callable, fixed: seq<Value>, xs: seq<Value>, lastArg: bool): Result<seq<Value>, Error>
  {
    if |xs| == 0 then Ok([])
    else
      var o := At(call, fixed, xs[0], lastArg);
      if o.err.Some? then Err(o.err.value)
      else Prepend([o.primary], Mapped(call, fixed, xs[1..], lastArg))
  }

  /** What `reflectFilter` computes: the elements whose call returned the bool true, or the first error. */
  function Filtered(call: Callable, fixed: seq<Value>, xs: seq<Value>, lastArg: bool): Result<seq<Value>, Error>
  {
    if |xs| == 0 then Ok([])
    else
      var o := At(call, fixed, xs[0], lastArg);
      if o.err.Some? then Err(o.err.value)
      else Prepend(if o.primary == Bool(true) then [xs[0]] else [], Filtered(call, fixed, xs[1..], lastArg))
  }

  /** The elements of `xs` at the positions where `flags` holds the bool true. */
  function KeepWhere(xs: seq<Value>, flags: seq<Value>): (ys: seq<Value>)
    requires |xs| == |flags|
    ensures |ys| <= |xs|
  {
    if |xs| == 0 then []
    else (if flags[0] == Bool(true) then [xs[0]] else []) + KeepWhere(xs[1..], flags[1..])
  }

  /** `map` succeeds iff no element call fails; then element `i` is the primary result of call `i`. */
  lemma {:induction false} MappedOk(call: Callable, fixed: seq<Value>, xs: seq<Value>, lastArg: bool)
    ensures Mapped(call, fixed, xs, lastArg).Ok? <==>
              forall i | 0 <= i < |xs| :: At(call, fixed, xs[i], lastArg).err.None?
    ensures Mapped(call, fixed, xs, lastArg).Ok? ==>
              var ys := Mapped(call, fixed, xs, lastArg).value;
              |ys| == |xs| && forall i | 0 <= i < |xs| :: ys[i] == At(call, fixed, xs[i], lastArg).primary
  {
    if |xs| > 0 {
      MappedOk(call, fixed, xs[1..], lastArg);
      assert forall i | 1 <= i < |xs| :: xs[1..][i - 1] == xs[i];
    }
  }

  /**
   * The first failing element call aborts `map`: its error is the result, and the elements after
   * it play no part (the result is the same with them cut off).
   */
  lemma {:induction false} MappedFirstError(call: Callable, fixed: seq<Value>, xs: seq<Value>, lastArg: bool, i: nat)
    requires i < |xs| && At(call, fixed, xs[i], lastArg).err.Some?
    requires forall j | 0 <= j < i :: At(call, fixed, xs[j], lastArg).err.None?
    ensures Mapped(call, fixed, xs, lastArg) == Err(At(call, fixed, xs[i], lastArg).err.value)
    ensures Mapped(call, fixed, xs, lastArg) == Mapped(call, fixed, xs[..i + 1], lastArg)
  {
    if i > 0 {
      assert forall j | 0 <= j < i - 1 :: xs[1..][j] == xs[j + 1];
      assert xs[..i + 1][1..] == xs[1..][..i];
      MappedFirstError(call, fixed, xs[1..], lastArg, i - 1);
    }
  }

  /** The same abort rule for `filter`. */
  lemma {:induction false} FilteredFirstError(call: Callable, fixed: seq<Value>, xs: seq<Value>, lastArg: bool, i: nat)
    requires i < |xs| && At(call, fixed, xs[i], lastArg).err.Some?
    requires forall j | 0 <= j < i :: At(call, fixed, xs[j], lastArg).err.None?
    ensures Filtered(call, fixed, xs, lastArg) == Err(At(call, fixed, xs[i], lastArg).err.value)
    ensures Filtered(call, fixed, xs, lastArg) == Filtered(call, fixed, xs[..i + 1], lastArg)
  {
    if i > 0 {
      assert forall j | 0 <= j < i - 1 :: xs[1..][j] == xs[j + 1];
      assert xs[..i + 1][1..] == xs[1..][..i];
      FilteredFirstError(call, fixed, xs[1..], lastArg, i - 1);
    }
  }

  /**
   * `filter` fails exactly when `map` does, with the same error; otherwise it keeps the elements
   * whose mapped value is the bool true. Any other value, a non-bool included, drops the element.
   */
  lemma {:induction false} FilteredIsKeepWhere(call: Callable, fixed: seq<Value>, xs: seq<Value>, lastArg: bool)
    ensures Filtered(call, fixed, xs, lastArg).Ok? == Mapped(call, fixed, xs, lastArg).Ok?
    ensures Mapped(call, fixed, xs, lastArg).Err? ==> Filtered(call, fixed, xs, lastArg) == Mapped(call, fixed, xs, lastArg)
    ensures Mapped(call, fixed, xs, lastArg).Ok? ==>
              MappedLength(call, fixed, xs, lastArg) &&
              Filtered(call, fixed, xs, lastArg).value == KeepWhere(xs, Mapped(call, fixed, xs, lastArg).value)
  {
    if |xs| > 0 {
      FilteredIsKeepWhere(call, fixed, xs[1..], lastArg);
    }
  }

  /** A successful `map` has one result per element. */
  predicate MappedLength(call: Callable, fixed: seq<Value>, xs: seq<Value>, lastArg: bool)
  {
    Mapped(call, fixed, xs, lastArg).Ok? ==> |Mapped(call, fixed, xs, lastArg).value| == |xs|
  }

  /** What `KeepWhere` keeps: every flagged element, and only flagged elements. */
  lemma {:induction false} KeepWhereMembers(xs: seq<Value>, flags: seq<Value>)
    requires |xs| == |flags|
    ensures forall i | 0 <= i < |xs| && flags[i] == Bool(true) :: xs[i] in KeepWhere(xs, flags)
    ensures forall y | y in KeepWhere(xs, flags) :: exists i | 0 <= i < |xs| :: flags[i] == Bool(true) && xs[i] == y
  {
    if |xs| > 0 {
      KeepWhereMembers(xs[1..], flags[1..]);
      forall i | 1 <= i < |xs| && flags[i] == Bool(true) ensures xs[i] in KeepWhere(xs, flags) {
        assert xs[1..][i - 1] == xs[i] && flags[1..][i - 1] == flags[i];
      }
      forall y | y in KeepWhere(xs, flags)
        ensures exists i | 0 <= i < |xs| :: flags[i] == Bool(true) && xs[i] == y
      {
        if y !in KeepWhere(xs[1..], flags[1..]) {
          assert flags[0] == Bool(true) && xs[0] == y;
        } else {
          var i :| 0 <= i < |xs| - 1 && flags[1..][i] == Bool(true) && xs[1..][i] == y;
          assert flags[i + 1] == Bool(true) && xs[i + 1] == y;
        }
      }
    }
  }

  /** Filtering what a filter kept keeps all of it: every kept element passes again. */
  lemma {:induction false} FilteredIdempotent(call: Callable, fixed: seq<Value>, xs: seq<Value>, lastArg: bool)
    requires Filtered(call, fixed, xs, lastArg).Ok?
    ensures Filtered(call, fixed, Filtered(call, fixed, xs, lastArg).value, lastArg) == Filtered(call, fixed, xs, lastArg)
  {
    if |xs| > 0 {
      var rest := Filtered(call, fixed, xs[1..], lastArg).value;
      FilteredIdempotent(call, fixed, xs[1..], lastArg);
      if At(call, fixed, xs[0], lastArg).primary == Bool(true) {
        assert ([xs[0]] + rest)[0] == xs[0];
        assert ([xs[0]] + rest)[1..] == rest;
      } else {
        assert [] + rest == rest;
      }
    }
  }

  /** `asEmptyInterfaceSlice`: a list as it is, a string as its bytes, an empty map as no elements. */
  function AsSlice(v: Value): (r: Result<seq<Value>, Error>)
  {
    match v
    case List(items) => Ok(items)
    case Str(s) => Ok(seq(|s|, i requires 0 <= i < |s| => Int(s[i] as int)))
    case Map(m) => if |m| == 0 then Ok([]) else Err(Panic("reflect: call of reflect.Value.Index on map Value"))
    case VarsMap(m) => if |m| == 0 then Ok([]) else Err(Panic("reflect: call of reflect.Value.Index on map Value"))
    case FilesMap(m) => if |m| == 0 then Ok([]) else Err(Panic("reflect: call of reflect.Value.Index on map Value"))
    case AnyMap(a) => if |a| == 0 then Ok([]) else Err(Panic("reflect: call of reflect.Value.Index on map Value"))
    case NilFiles => Ok([])
    case _ => Err(Panic("reflect: call of reflect.Value.Len on a value without length"))
  }

  /**
   * The meaning of a registry entry called with `args` against the registry `funcs`.
   * `depth` bounds how deeply higher-order entries may call higher-order entries.
   */
  function Invoke(funcs: FuncMap, builtins: map<string, Callable>, f: Func, args: seq<Value>, depth: nat): Outcome
    decreases depth, if f.HigherOrder? then 5 else 0
  {
    match f
    case Native(call) => call(args)
    case HigherOrder(op) =>
      if |args| == 0 || !args[0].Str? then Outcome(Nil, Some(BadArgs("wrong type for value; expected string")))
      else match FindFunc(funcs, builtins, args[0].s)
        case Err(e) => Outcome(Nil, Some(e))
        case Ok(g) => WithFunc(funcs, builtins, op, g, args[1..], depth)
  }

  /** A higher-order entry after its name was found as `g`: split off the list, then run the element loop. */
  function WithFunc(funcs: FuncMap, builtins: map<string, Callable>, op: HigherOrderOp, g: Func,
                    rest: seq<Value>, depth: nat): Outcome
    decreases depth, 4
  {
    if |rest| == 0 then Outcome(Nil, Some(Panic("slice bounds out of range [:-1]")))
    else match AsSlice(rest[|rest| - 1])
      case Err(e) => Outcome(Nil, Some(e))
      case Ok(xs) => RunElements(funcs, builtins, op, g, rest[..|rest| - 1], xs, depth)
  }

  /**
   * The element loop of a higher-order entry once its arguments are unpacked: the looked-up
   * entry `g` is called for each item, one nesting level down when it is itself higher-order.
   */
  function RunElements(funcs: FuncMap, builtins: map<string, Callable>, op: HigherOrderOp, g: Func,
                       fixed: seq<Value>, xs: seq<Value>, depth: nat): Outcome
    decreases depth, 2
  {
    if g.HigherOrder? && depth == 0 then Outcome(Nil, Some(Panic("nesting depth exceeded")))
    else
      var call := ElementCall(funcs, builtins, g, if g.HigherOrder? then depth - 1 else depth);
      var r := if Keeps(op) then Filtered(call, fixed, xs, LastArg(op))
               else Mapped(call, fixed, xs, LastArg(op));
      match r
      case Ok(ys) => Outcome(List(ys), None)
      case Err(e) => Outcome(Nil, Some(e))
  }

  /** The function a higher-order entry calls for each element: the looked-up entry itself. */
  function ElementCall(funcs: FuncMap, builtins: map<string, Callable>, g: Func, depth: nat): Callable
    decreases depth, if g.HigherOrder? then 6 else 1
  {
    (a: seq<Value>) => Invoke(funcs, builtins, g, a, depth)
  }

  /** An unknown name makes every higher-order entry fail with that name before anything is called. */
  lemma UnknownNameFails(funcs: FuncMap, builtins: map<string, Callable>, op: HigherOrderOp,
                         name: string, rest: seq<Value>, depth: nat)
    requires name !in funcs && name !in builtins
    ensures Invoke(funcs, builtins, HigherOrder(op), [Str(name)] + rest, depth) == Outcome(Nil, Some(NoSuchFunction(name)))
  {
  }

  /** A higher-order entry whose name finds a native function runs the element loop over the list's items with that function. */
  lemma InvokeNative(funcs: FuncMap, builtins: map<string, Callable>, op: HigherOrderOp, name: string, c: Callable,
                     fixed: seq<Value>, xs: seq<Value>, depth: nat)
    requires FindFunc(funcs, builtins, name) == Ok(Native(c))
    ensures var call := ElementCall(funcs, builtins, Native(c), depth);
      var r := if Keeps(op) then Filtered(call, fixed, xs, LastArg(op)) else Mapped(call, fixed, xs, LastArg(op));
      Invoke(funcs, builtins, HigherOrder(op), [Str(name)] + fixed + [List(xs)], depth) ==
        if r.Ok? then Outcome(List(r.value), None) else Outcome(Nil, Some(r.error))
  {
    var args := [Str(name)] + fixed + [List(xs)];
    assert args[0] == Str(name) && args[|args| - 1] == List(xs);
    assert args[1..|args| - 1] == fixed;
    InvokeUnpacked(funcs, builtins, op, args, Native(c), xs, depth);
  }

  /** Each element call of a native entry is the native function called by reflection on the element's arguments. */
  lemma NativeElementCall(funcs: FuncMap, builtins: map<string, Callable>, c: Callable,
                          fixed: seq<Value>, xs: seq<Value>, flip: bool, depth: nat)
    ensures forall i | 0 <= i < |xs| ::
      At(ElementCall(funcs, builtins, Native(c), depth), fixed, xs[i], flip) == ReflectCall(c, CallArgs(fixed, xs[i], flip))
  {
    var call := ElementCall(funcs, builtins, Native(c), depth);
    forall i | 0 <= i < |xs| ensures At(call, fixed, xs[i], flip) == ReflectCall(c, CallArgs(fixed, xs[i], flip)) {
      assert call(CallArgs(fixed, xs[i], flip)) == Invoke(funcs, builtins, Native(c), CallArgs(fixed, xs[i], flip), depth);
    }
  }

  /**
   * `map name a1 … ak xs` calls the named function once per element, with the element first
   * (or last, for `mapFlip`), and yields one primary result per element, in order.
   */
  lemma MapCall(funcs: FuncMap, builtins: map<string, Callable>, name: string, c: Callable,
                fixed: seq<Value>, xs: seq<Value>, flip: bool, depth: nat)
    requires FindFunc(funcs, builtins, name) == Ok(Native(c))
    requires forall i | 0 <= i < |xs| :: ReflectCall(c, CallArgs(fixed, xs[i], flip)).err.None?
    ensures var out := Invoke(funcs, builtins, HigherOrder(if flip then MapFlipOp else MapOp), [Str(name)] + fixed + [List(xs)], depth);
      && out.err.None? && out.primary.List? && |out.primary.items| == |xs|
      && forall i | 0 <= i < |xs| ::
           out.primary.items[i] == ReflectCall(c, if flip then fixed + [xs[i]] else [xs[i]] + fixed).primary
  {
    var call := ElementCall(funcs, builtins, Native(c), depth);
    InvokeNative(funcs, builtins, if flip then MapFlipOp else MapOp, name, c, fixed, xs, depth);
    NativeElementCall(funcs, builtins, c, fixed, xs, flip, depth);
    MappedOk(call, fixed, xs, flip);
  }

  /**
   * `filter name a1 … ak xs` keeps, in order, the elements for which the named function
   * returned the bool true, when no call fails; it never keeps an element it did not get.
   */
  lemma FilterCall(funcs: FuncMap, builtins: map<string, Callable>, name: string, c: Callable,
                   fixed: seq<Value>, xs: seq<Value>, flip: bool, depth: nat)
    requires FindFunc(funcs, builtins, name) == Ok(Native(c))
    requires forall i | 0 <= i < |xs| :: ReflectCall(c, CallArgs(fixed, xs[i], flip)).err.None?
    ensures var out := Invoke(funcs, builtins, HigherOrder(if flip then FilterFlipOp else FilterOp), [Str(name)] + fixed + [List(xs)], depth);
      && out.err.None? && out.primary.List?
      && (forall i | 0 <= i < |xs| && ReflectCall(c, CallArgs(fixed, xs[i], flip)).primary == Bool(true) :: xs[i] in out.primary.items)
      && (forall y | y in out.primary.items :: y in xs && ReflectCall(c, CallArgs(fixed, y, flip)).primary == Bool(true))
  {
    var call := ElementCall(funcs, builtins, Native(c), depth);
    InvokeNative(funcs, builtins, if flip then FilterFlipOp else FilterOp, name, c, fixed, xs, depth);
    NativeElementCall(funcs, builtins, c, fixed, xs, flip, depth);
    MappedOk(call, fixed, xs, flip);
    FilteredIsKeepWhere(call, fixed, xs, flip);
    var flags := Mapped(call, fixed, xs, flip).value;
    KeepWhereMembers(xs, flags);
  }

  /**
   * A nil argument reaches `reflect.Value.Call` as the zero Value: a nil among the fixed arguments,
   * or a nil element `i` whose earlier calls all succeeded, makes `map`, `filter` and their `Flip`
   * variants fail with `Call`'s panic, whatever the named function would do.
   */
  lemma NilArgumentPanics(funcs: FuncMap, builtins: map<string, Callable>, op: HigherOrderOp, name: string, c: Callable,
                          fixed: seq<Value>, xs: seq<Value>, i: nat, depth: nat)
    requires FindFunc(funcs, builtins, name) == Ok(Native(c))
    requires i < |xs| && (Nil in fixed || xs[i] == Nil)
    requires forall j | 0 <= j < i :: ReflectCall(c, CallArgs(fixed, xs[j], LastArg(op))).err.None?
    ensures Invoke(funcs, builtins, HigherOrder(op), [Str(name)] + fixed + [List(xs)], depth) ==
              Outcome(Nil, Some(ZeroValueArgument))
  {
    var call := ElementCall(funcs, builtins, Native(c), depth);
    InvokeNative(funcs, builtins, op, name, c, fixed, xs, depth);
    NativeElementCall(funcs, builtins, c, fixed, xs, LastArg(op), depth);
    var args := CallArgs(fixed, xs[i], LastArg(op));
    HasNilIn(args);
    if Nil in fixed {
      var k :| 0 <= k < |fixed| && fixed[k] == Nil;
      assert args[if LastArg(op) then k else k + 1] == Nil;
    } else {
      assert args[Slot(fixed, LastArg(op))] == Nil;
    }
    if Keeps(op) {
      FilteredFirstError(call, fixed, xs, LastArg(op), i);
    } else {
      MappedFirstError(call, fixed, xs, LastArg(op), i);
    }
  }

  /** The position of the element in the argument buffer: last, or first. */
  function Slot(fixed: seq<Value>, lastArg: bool): (k: nat)
    ensures k <= |fixed|
  {
    if lastArg then |fixed| else 0
  }

  /** Writing the element slot of a call's arguments gives the arguments for the new element. */
  lemma CallArgsReplace(fixed: seq<Value>, x: Value, y: Value, lastArg: bool)
    ensures CallArgs(fixed, x, lastArg)[Slot(fixed, lastArg) := y] == CallArgs(fixed, y, lastArg)
  {
    var a := CallArgs(fixed, x, lastArg)[Slot(fixed, lastArg) := y];
    var b := CallArgs(fixed, y, lastArg);
    forall k | 0 <= k < |a| ensures a[k] == b[k] {
      if lastArg {
        if k < |fixed| { assert a[k] == a[..|fixed|][k]; }
      } else {
        if 0 < k { assert a[k] == a[1..][k - 1]; }
      }
    }
  }

  /** The argument buffer of `reflectMap` and `reflectFilter`: the fixed arguments around an empty element slot. */
  method FillArgs(fixed: seq<Value>, lastArg: bool) returns (argsValues: array<Value>)
    ensures fresh(argsValues)
    ensures argsValues[..] == CallArgs(fixed, Nil, lastArg)
  {
    argsValues := new Value[1 + |fixed|](_ => Nil);
    var offset := if lastArg then 0 else 1;
    for j := 0 to |fixed|
      invariant forall t | 0 <= t < j :: argsValues[offset + t] == fixed[t]
      invariant argsValues[Slot(fixed, lastArg)] == Nil
    {
      argsValues[offset + j] := fixed[j];
    }
    var args := CallArgs(fixed, Nil, lastArg);
    forall k | 0 <= k < argsValues.Length ensures argsValues[k] == args[k] {
      if lastArg {
        if k < |fixed| { assert argsValues[0 + k] == fixed[k]; }
      } else {
        if 0 < k { assert argsValues[1 + (k - 1)] == fixed[k - 1]; }
      }
    }
  }

  /** One step of `Mapped` over a suffix of the input. */
  lemma MappedStep(call: Callable, fixed: seq<Value>, xs: seq<Value>, lastArg: bool, i: nat)
    requires i < |xs|
    ensures var o := At(call, fixed, xs[i], lastArg);
      Mapped(call, fixed, xs[i..], lastArg) ==
        if o.err.Some? then Err(o.err.value) else Prepend([o.primary], Mapped(call, fixed, xs[i + 1..], lastArg))
  {
    assert xs[i..][0] == xs[i] && xs[i..][1..] == xs[i + 1..];
  }

  /** `reflectMap`: fills the output by index, reusing one argument buffer for every call. */
  method ReflectMap(call: Callable, fixed: seq<Value>, xs: seq<Value>, lastArg: bool) returns (r: Result<seq<Value>, Error>)
    ensures r == Mapped(call, fixed, xs, lastArg)
  {
    var output := new Value[|xs|](_ => Nil);
    var argsValues := FillArgs(fixed, lastArg);
    ghost var current := Nil;
    assert xs[0..] == xs && output[..0] == [];
    PrependPrepend([], [], Mapped(call, fixed, xs, lastArg));
    for i := 0 to |xs|
      invariant output != argsValues
      invariant argsValues[..] == CallArgs(fixed, current, lastArg)
      invariant Mapped(call, fixed, xs, lastArg) == Prepend(output[..i], Mapped(call, fixed, xs[i..], lastArg))
    {
      CallArgsReplace(fixed, current, xs[i], lastArg);
      argsValues[Slot(fixed, lastArg)] := xs[i];
      current := xs[i];
      var returned := ReflectCall(call, argsValues[..]);
      MappedStep(call, fixed, xs, lastArg, i);
      if returned.err.Some? {
        return Err(returned.err.value);
      }
      PrependPrepend(output[..i], [returned.primary], Mapped(call, fixed, xs[i + 1..], lastArg));
      output[i] := returned.primary;
      assert output[..i + 1] == output[..i] + [returned.primary];
    }
    assert output[..|xs|] == output[..] && xs[|xs|..] == [];
    assert output[..] + [] == output[..];
    return Ok(output[..]);
  }

  /** One step of `Filtered` over a suffix of the input. */
  lemma FilteredStep(call: Callable, fixed: seq<Value>, xs: seq<Value>, lastArg: bool, i: nat)
    requires i < |xs|
    ensures var o := At(call, fixed, xs[i], lastArg);
      Filtered(call, fixed, xs[i..], lastArg) ==
        if o.err.Some? then Err(o.err.value)
        else Prepend(if o.primary == Bool(true) then [xs[i]] else [], Filtered(call, fixed, xs[i + 1..], lastArg))
  {
    assert xs[i..][0] == xs[i] && xs[i..][1..] == xs[i + 1..];
  }

  /** `reflectFilter`: appends each element whose call returned the bool true. */
  method ReflectFilter(call: Callable, fixed: seq<Value>, xs: seq<Value>, lastArg: bool) returns (r: Result<seq<Value>, Error>)
    ensures r == Filtered(call, fixed, xs, lastArg)
  {
    var output: seq<Value> := [];
    var argsValues := FillArgs(fixed, lastArg);
    ghost var current := Nil;
    assert xs[0..] == xs;
    PrependPrepend([], [], Filtered(call, fixed, xs, lastArg));
    for i := 0 to |xs|
      invariant argsValues[..] == CallArgs(fixed, current, lastArg)
      invariant Filtered(call, fixed, xs, lastArg) == Prepend(output, Filtered(call, fixed, xs[i..], lastArg))
    {
      CallArgsReplace(fixed, current, xs[i], lastArg);
      argsValues[Slot(fixed, lastArg)] := xs[i];
      current := xs[i];
      var returned := ReflectCall(call, argsValues[..]);
      FilteredStep(call, fixed, xs, lastArg, i);
      if returned.err.Some? {
        return Err(returned.err.value);
      }
      var kept := if returned.primary == Bool(true) then [xs[i]] else [];
      PrependPrepend(output, kept, Filtered(call, fixed, xs[i + 1..], lastArg));
      output := output + kept;
    }
    assert output + [] == output;
    return Ok(output);
  }

  /** `asEmptyInterfaceSlice`, copying a string's bytes one by one. */
  method AsEmptyInterfaceSlice(v: Value) returns (r: Result<seq<Value>, Error>)
    ensures r == AsSlice(v)
  {
    if !v.Str? {
      return AsSlice(v);
    }
    var s := v.s;
    var slice := new Value[|s|](_ => Nil);
    for i := 0 to |s|
      invariant forall j | 0 <= j < i :: slice[j] == Int(s[j] as int)
    {
      slice[i] := Int(s[i] as int);
    }
    assert slice[..] == seq(|s|, i requires 0 <= i < |s| => Int(s[i] as int));
    return Ok(slice[..]);
  }

  /** The closures `addHigherOrderFuncs` installs: look the name up, split off the list, run the loop. */
  method CallHigherOrder(funcs: FuncMap, builtins: map<string, Callable>, op: HigherOrderOp,
                         args: seq<Value>, depth: nat) returns (out: Outcome)
    ensures out == Invoke(funcs, builtins, HigherOrder(op), args, depth)
  {
    if |args| == 0 || !args[0].Str? {
      return Outcome(Nil, Some(BadArgs("wrong type for value; expected string")));
    }
    var found := FindFunc(funcs, builtins, args[0].s);
    if found.Err? {
      return Outcome(Nil, Some(found.error));
    }
    out := CallWithFunc(funcs, builtins, op, found.value, args[1..], depth);
  }

  /** The rest of a higher-order closure once `findFunc` succeeded. */
  method CallWithFunc(funcs: FuncMap, builtins: map<string, Callable>, op: HigherOrderOp, g: Func,
                      rest: seq<Value>, depth: nat) returns (out: Outcome)
    ensures out == WithFunc(funcs, builtins, op, g, rest, depth)
  {
    var n := |rest|;
    if n == 0 {
      return Outcome(Nil, Some(Panic("slice bounds out of range [:-1]")));
    }
    var slice := AsEmptyInterfaceSlice(rest[n - 1]);
    if slice.Err? {
      return Outcome(Nil, Some(slice.error));
    }
    out := RunHigherOrder(funcs, builtins, op, g, rest[..n - 1], slice.value, depth);
  }

  /** Once the name is found and the last argument is a list, a higher-order entry runs its element loop. */
  lemma InvokeUnpacked(funcs: FuncMap, builtins: map<string, Callable>, op: HigherOrderOp, args: seq<Value>,
                       g: Func, xs: seq<Value>, depth: nat)
    requires |args| >= 2 && args[0].Str? && FindFunc(funcs, builtins, args[0].s) == Ok(g)
    requires AsSlice(args[|args| - 1]) == Ok(xs)
    ensures Invoke(funcs, builtins, HigherOrder(op), args, depth) == RunElements(funcs, builtins, op, g, args[1..|args| - 1], xs, depth)
  {
    var rest := args[1..];
    assert rest[|rest| - 1] == args[|args| - 1];
    assert rest[..|rest| - 1] == args[1..|args| - 1];
  }

  /** The element loop of `CallHigherOrder`, on the unpacked arguments. */
  method RunHigherOrder(funcs: FuncMap, builtins: map<string, Callable>, op: HigherOrderOp, g: Func,
                        fixed: seq<Value>, xs: seq<Value>, depth: nat) returns (out: Outcome)
    ensures out == RunElements(funcs, builtins, op, g, fixed, xs, depth)
  {
    if g.HigherOrder? && depth == 0 {
      return Outcome(Nil, Some(Panic("nesting depth exceeded")));
    }
    var call := ElementCall(funcs, builtins, g, if g.HigherOrder? then depth - 1 else depth);
    var r;
    if Keeps(op) {
      r := ReflectFilter(call, fixed, xs, LastArg(op));
    } else {
      r := ReflectMap(call, fixed, xs, LastArg(op));
    }
    if r.Err? {
      return Outcome(Nil, Some(r.error));
    }
    return Outcome(List(r.value), None);
  }

  // ---- set and unset ----

  /** `set`'s arguments after the dictionary: an even number, with a string at every even position. */
  predicate WellFormedPairs(kvs: seq<Value>)
  {
    |kvs| % 2 == 0 && forall j | 0 <= j < |kvs| / 2 :: kvs[2 * j].Str?
  }

  /**
   * What `set` does to the dictionary: the pairs written left to right; a non-string key or a
   * key without a value panics, and the writes made before the panic stay.
   */
  function SetPairs(m: map<string, Value>, kvs: seq<Value>): (map<string, Value>, Option<Error>)
    decreases |kvs|
  {
    if |kvs| == 0 then (m, None)
    else if !kvs[0].Str? then (m, Some(Panic("interface conversion: interface {} is not string")))
    else if |kvs| == 1 then (m, Some(Panic("index out of range")))
    else SetPairs(m[kvs[0].s := kvs[1]], kvs[2..])
  }

  /** Dropping the first pair shifts every later pair down by one. */
  lemma TailPairs(kvs: seq<Value>)
    requires |kvs| >= 2
    ensures |kvs[2..]| / 2 == |kvs| / 2 - 1 && |kvs[2..]| % 2 == |kvs| % 2
    ensures forall t | 0 <= t < |kvs[2..]| / 2 :: kvs[2..][2 * t] == kvs[2 * (t + 1)]
    ensures kvs[2 * 0] == kvs[0]
  {
  }

  /** Pairs are well formed iff the first key is a string and the remaining pairs are well formed. */
  lemma WellFormedStep(kvs: seq<Value>)
    requires |kvs| >= 2
    ensures WellFormedPairs(kvs) <==> kvs[0].Str? && WellFormedPairs(kvs[2..])
  {
    TailPairs(kvs);
    if kvs[0].Str? && WellFormedPairs(kvs[2..]) {
      forall j | 0 <= j < |kvs| / 2 ensures kvs[2 * j].Str? {
        if j > 0 { assert kvs[2..][2 * (j - 1)] == kvs[2 * j]; }
      }
    }
  }

  /** `set` panics exactly when its pairs are malformed. */
  lemma {:induction false} SetPairsOk(m: map<string, Value>, kvs: seq<Value>)
    ensures SetPairs(m, kvs).1.None? <==> WellFormedPairs(kvs)
    decreases |kvs|
  {
    if |kvs| >= 2 {
      WellFormedStep(kvs);
      if kvs[0].Str? {
        SetPairsOk(m[kvs[0].s := kvs[1]], kvs[2..]);
      }
    } else if |kvs| == 1 {
      assert |kvs| % 2 == 1;
    }
  }

  /** In well-formed pairs, the last pair for a key decides its value. */
  lemma {:induction false} SetPairsLastWins(m: map<string, Value>, kvs: seq<Value>, j: nat)
    requires WellFormedPairs(kvs) && j < |kvs| / 2
    requires forall t | j < t < |kvs| / 2 :: kvs[2 * t] != kvs[2 * j]
    ensures kvs[2 * j].s in SetPairs(m, kvs).0 && SetPairs(m, kvs).0[kvs[2 * j].s] == kvs[2 * j + 1]
    decreases |kvs|
  {
    TailPairs(kvs);
    WellFormedStep(kvs);
    var next := m[kvs[0].s := kvs[1]];
    var tail := kvs[2..];
    if j == 0 {
      SetPairsKeeps(next, tail, kvs[0].s);
    } else {
      SetPairsLastWins(next, tail, j - 1);
    }
  }

  /** A key no pair names keeps its value, whether or not `set` panics. */
  lemma {:induction false} SetPairsKeeps(m: map<string, Value>, kvs: seq<Value>, k: string)
    requires k in m
    requires forall t | 0 <= t < |kvs| / 2 :: kvs[2 * t] != Str(k)
    ensures k in SetPairs(m, kvs).0 && SetPairs(m, kvs).0[k] == m[k]
    decreases |kvs|
  {
    if |kvs| >= 2 && kvs[0].Str? {
      TailPairs(kvs);
      SetPairsKeeps(m[kvs[0].s := kvs[1]], kvs[2..], k);
    }
  }

  /** `set` only adds keys that its pairs name. */
  lemma {:induction false} SetPairsKeys(m: map<string, Value>, kvs: seq<Value>, k: string)
    requires k in SetPairs(m, kvs).0 && k !in m
    ensures exists t | 0 <= t < |kvs| / 2 :: kvs[2 * t] == Str(k)
    decreases |kvs|
  {
    if |kvs| >= 2 && kvs[0].Str? {
      if kvs[0] == Str(k) {
        assert kvs[2 * 0] == Str(k);
      } else {
        SetPairsKeys(m[kvs[0].s := kvs[1]], kvs[2..], k);
        TailPairs(kvs);
        var t :| 0 <= t < |kvs[2..]| / 2 && kvs[2..][2 * t] == Str(k);
        assert kvs[2 * (t + 1)] == Str(k);
      }
    }
  }

  /** A `map[string]interface{}` argument: the dictionary `set` and `unset` work in place. */
  class Dict {
    var entries: map<string, Value>

    constructor (entries: map<string, Value>)
      ensures this.entries == entries
    {
      this.entries := entries;
    }

    /** `set`: writes the pairs in order; the error is the panic that stopped it, if any. */
    method Set(kvs: seq<Value>) returns (err: Option<Error>)
      modifies this
      ensures (entries, err) == SetPairs(old(entries), kvs)
    {
      var i := 0;
      while i < |kvs|
        invariant 0 <= i <= |kvs|
        invariant SetPairs(entries, kvs[i..]) == SetPairs(old(entries), kvs)
        decreases |kvs| - i
      {
        assert kvs[i..][0] == kvs[i];
        if !kvs[i].Str? {
          return Some(Panic("interface conversion: interface {} is not string"));
        }
        if i + 1 >= |kvs| {
          return Some(Panic("index out of range"));
        }
        assert kvs[i..][1] == kvs[i + 1] && kvs[i..][2..] == kvs[i + 2..];
        entries := entries[kvs[i].s := kvs[i + 1]];
        i := i + 2;
      }
      assert kvs[i..] == [];
      return None;
    }

    /** `unset`: every listed key is deleted; nothing else changes. */
    method Unset(keys: seq<string>)
      modifies this
      ensures entries == old(entries) - set k | k in keys
    {
      for i := 0 to |keys|
        invariant entries == old(entries) - set k | k in keys[..i]
      {
        var prefix := keys[..i + 1];
        assert prefix == keys[..i] + [keys[i]];
        assert (set k | k in prefix) == (set k | k in keys[..i]) + {keys[i]};
        entries := entries - {keys[i]};
      }
      assert keys[..|keys|] == keys;
    }
  }

  /**
   * The dictionary a `set`/`unset` call receives. The three string-keyed map types are all
   * assignable to the parameter type; anything else the template engine refuses.
   */
  function DictArg(args: seq<Value>): (r: Result<map<string, Value>, Error>)
    ensures r.Ok? <==> |args| > 0 && (args[0].Map? || args[0].VarsMap? || args[0].FilesMap?)
    ensures r.Ok? ==> r.value == args[0].m
  {
    if |args| == 0 then Err(BadArgs("wrong number of args"))
    else match args[0]
      case Map(m) => Ok(m)
      case VarsMap(m) => Ok(m)
      case FilesMap(m) => Ok(m)
      case _ => Err(BadArgs("wrong type for value; expected map[string]interface {}"))
  }

  /** The strings among `unset`'s keys, when all of them are strings. */
  function StringArgs(args: seq<Value>): (r: Option<seq<string>>)
    ensures r.Some? <==> forall i | 0 <= i < |args| :: args[i].Str?
    ensures r.Some? ==> |r.value| == |args| && forall i | 0 <= i < |args| :: args[i] == Str(r.value[i])
  {
    if |args| == 0 then Some([])
    else if !args[0].Str? then None
    else match StringArgs(args[1..])
      case None => None
      case Some(rest) => Some([args[0].s] + rest)
  }

  /** The registry's `set`, returning the dictionary it wrote. */
  function SetCall(args: seq<Value>): Outcome
  {
    match DictArg(args)
    case Err(e) => Outcome(Nil, Some(e))
    case Ok(m) =>
      var (written, err) := SetPairs(m, args[1..]);
      if err.Some? then Outcome(Nil, err) else Outcome(Map(written), None)
  }

  /** The registry's `unset`, returning the dictionary without the keys. */
  function UnsetCall(args: seq<Value>): Outcome
  {
    match DictArg(args)
    case Err(e) => Outcome(Nil, Some(e))
    case Ok(m) =>
      match StringArgs(args[1..])
      case None => Outcome(Nil, Some(BadArgs("wrong type for value; expected string")))
      case Some(keys) => Outcome(Map(m - set k | k in keys), None)
  }

  /** `unset` removes every listed key and keeps every other entry. */
  lemma UnsetCallRemoves(m: map<string, Value>, keys: seq<string>)
    ensures var out := UnsetCall([Map(m)] + seq(|keys|, i requires 0 <= i < |keys| => Str(keys[i])));
      && out.err.None? && out.primary.Map?
      && (forall k | k in keys :: k !in out.primary.m)
      && (forall k | k in m && k !in keys :: k in out.primary.m && out.primary.m[k] == m[k])
  {
    var args := [Map(m)] + seq(|keys|, i requires 0 <= i < |keys| => Str(keys[i]));
    var strs := StringArgs(args[1..]);
    assert strs.Some?;
    assert strs.value == keys;
  }

  // ---- the registry ----

  /** The names `renderFuncs` defines through the codecs. */
  const CodecNames: set<string> := {"toCSV", "fromCSV", "toJSON", "toYAML", "toTOML", "fromJSON", "fromYAML", "fromTOML"}

  /** `renderFuncs`: the codec functions and `set`/`unset`. */
  function RenderFuncs(codec: string -> Callable): (r: FuncMap)
    ensures r.Keys == CodecNames + {"set", "unset"}
    ensures r["set"] == Native(SetCall) && r["unset"] == Native(UnsetCall)
    ensures forall n | n in CodecNames :: r[n] == Native(codec(n))
  {
    (map n | n in CodecNames :: Native(codec(n)))["set" := Native(SetCall)]["unset" := Native(UnsetCall)]
  }

  /** The sprig functions `Funcs()` deletes. */
  const Blocklist: set<string> := {"hello", "toJson", "toPrettyJson", "env", "expandenv"}

  /** The entries `addHigherOrderFuncs` adds. */
  const HigherOrderEntries: map<string, HigherOrderOp> :=
    map["map" := MapOp, "filter" := FilterOp, "mapFlip" := MapFlipOp, "filterFlip" := FilterFlipOp]

  /** The builtins of the template language that get wrappers, in the order they are registered. */
  const BuiltinNames: seq<string> := ["and", "call", "html", "index", "js", "len", "not", "or", "print",
                                      "printf", "println", "urlquery", "eq", "ge", "gt", "le", "lt", "ne"]

  /** One argument of a wrapper template. */
  function Segment(i: nat): string
  {
    " (index .Args " + Decimal.Itoa(i) + ")"
  }

  /** The argument segments for indices 0 to k-1, in order. */
  function Segments(k: nat): string
  {
    if k == 0 then "" else Segments(k - 1) + Segment(k - 1)
  }

  /** The template a wrapper runs to call builtin `name` with `k` arguments. */
  function WrapperText(name: string, k: nat): string
  {
    "{{return (" + name + Segments(k) + ")}}"
  }

  /** A prefix of `a` is also a prefix of `a + b`. */
  lemma PrefixOfConcat(a: string, b: string, n: nat)
    requires n <= |a|
    ensures (a + b)[..n] == a[..n]
  {
  }

  /** The segments for fewer arguments are a prefix of those for more. */
  lemma {:induction false} SegmentsPrefix(i: nat, k: nat)
    requires i <= k
    ensures |Segments(i)| <= |Segments(k)| && Segments(k)[..|Segments(i)|] == Segments(i)
  {
    if i < k {
      SegmentsPrefix(i, k - 1);
      PrefixOfConcat(Segments(k - 1), Segment(k - 1), |Segments(i)|);
    }
  }

  /** Argument `i` (of `k`) appears as its own segment between those of `i - 1` and `i + 1`. */
  lemma SegmentAt(i: nat, k: nat)
    requires i < k
    ensures |Segments(i + 1)| <= |Segments(k)|
    ensures Segments(k)[|Segments(i)|..|Segments(i + 1)|] == Segment(i)
  {
    SegmentsPrefix(i + 1, k);
    assert Segments(i + 1) == Segments(i) + Segment(i);
    assert Segments(k)[|Segments(i)|..|Segments(i + 1)|] == Segments(i + 1)[|Segments(i)|..];
  }

  /** The wrapper text opens with the call of `name` and closes both parentheses it opened. */
  lemma WrapperTextShape(name: string, k: nat)
    ensures var t := WrapperText(name, k);
      && t[..|"{{return ("| + |name|] == "{{return (" + name
      && t[|t| - 3..] == ")}}"
      && t[|"{{return ("| + |name|..|t| - 3] == Segments(k)
  {
  }

  /** Appending segment `i` to a text ending in the first `i` segments ends it in `i + 1`. */
  lemma SegmentsStep(head: string, i: nat, segment: string)
    requires segment == Segment(i)
    ensures (head + Segments(i)) + segment == head + Segments(i + 1)
  {
    assert Segments(i + 1) == Segments(i) + segment;
    assert (head + Segments(i)) + segment == head + (Segments(i) + segment);
  }

  /** The wrapper-text builder of `extractBuiltinFuncs`, appending one segment per argument. */
  method BuildWrapperText(name: string, k: nat) returns (text: string)
    ensures text == WrapperText(name, k)
  {
    var head := "{{return (" + name;
    text := head;
    for i := 0 to k
      invariant text == head + Segments(i)
    {
      var segment := Segment(i);
      SegmentsStep(head, i, segment);
      text := text + segment;
    }
    text := text + ")}}";
  }

  /** The wrapper for builtin `name`: runs its wrapper text on the arguments with the given engine. */
  function BuiltinCall(run: (string, seq<Value>) -> Outcome, name: string): Callable
  {
    (args: seq<Value>) => run(WrapperText(name, |args|), args)
  }

  /** `extractBuiltinFuncs`: one wrapper per builtin name. */
  method ExtractBuiltinFuncs(run: (string, seq<Value>) -> Outcome) returns (funcs: map<string, Callable>)
    ensures funcs.Keys == set n | n in BuiltinNames
    ensures forall n | n in funcs :: funcs[n] == BuiltinCall(run, n)
  {
    funcs := map[];
    for i := 0 to |BuiltinNames|
      invariant funcs.Keys == set n | n in BuiltinNames[..i]
      invariant forall n | n in funcs :: funcs[n] == BuiltinCall(run, n)
    {
      assert BuiltinNames[..i + 1] == BuiltinNames[..i] + [BuiltinNames[i]];
      funcs := funcs[BuiltinNames[i] := BuiltinCall(run, BuiltinNames[i])];
    }
    assert BuiltinNames[..|BuiltinNames|] == BuiltinNames;
  }

  /** Copies every entry of `render` into `base`, replacing entries of the same name. */
  method CopyInto(base: FuncMap, render: FuncMap) returns (funcs: FuncMap)
    ensures funcs.Keys == base.Keys + render.Keys
    ensures forall n | n in render :: funcs[n] == render[n]
    ensures forall n | n in base && n !in render :: funcs[n] == base[n]
  {
    funcs := base;
    var todo := render.Keys;
    while todo != {}
      invariant todo <= render.Keys
      invariant funcs.Keys == base.Keys + (render.Keys - todo)
      invariant forall n | n in render && n !in todo :: funcs[n] == render[n]
      invariant forall n | n in base && (n !in render || n in todo) :: funcs[n] == base[n]
      decreases todo
    {
      var key :| key in todo;
      funcs := funcs[key := render[key]];
      todo := todo - {key};
    }
  }

  /** The four higher-order entries as registry entries. */
  function HigherOrderFuncs(): (r: FuncMap)
    ensures r.Keys == HigherOrderEntries.Keys
    ensures forall n | n in r :: r[n] == HigherOrder(HigherOrderEntries[n])
  {
    map n | n in HigherOrderEntries :: HigherOrder(HigherOrderEntries[n])
  }

  /** The registry `Funcs()` assembles, in layers: sprig without the blocklist, then render's entries, then the higher-order ones. */
  function Registry(sprig: FuncMap, render: FuncMap): FuncMap
  {
    (sprig - Blocklist) + render + HigherOrderFuncs()
  }

  /** What each layer of the registry contributes. */
  lemma RegistryLayers(sprig: FuncMap, render: FuncMap)
    ensures Registry(sprig, render).Keys == (sprig.Keys - Blocklist) + render.Keys + HigherOrderEntries.Keys
    ensures forall n | n in Blocklist && n !in render :: n !in Registry(sprig, render)
    ensures forall n | n in HigherOrderEntries :: Registry(sprig, render)[n] == HigherOrder(HigherOrderEntries[n])
    ensures forall n | n in render && n !in HigherOrderEntries :: Registry(sprig, render)[n] == render[n]
    ensures forall n | n in sprig && n !in Blocklist && n !in render && n !in HigherOrderEntries ::
              Registry(sprig, render)[n] == sprig[n]
  {
  }

  /** The four assignments of `addHigherOrderFuncs` add exactly `HigherOrderFuncs()`. */
  lemma AddHigherOrderFuncs(m: FuncMap)
    ensures m["map" := HigherOrder(MapOp)]["filter" := HigherOrder(FilterOp)]
             ["mapFlip" := HigherOrder(MapFlipOp)]["filterFlip" := HigherOrder(FilterFlipOp)]
            == m + HigherOrderFuncs()
  {
    var u := m["map" := HigherOrder(MapOp)]["filter" := HigherOrder(FilterOp)]
             ["mapFlip" := HigherOrder(MapFlipOp)]["filterFlip" := HigherOrder(FilterFlipOp)];
    var h := HigherOrderFuncs();
    assert h.Keys == {"map", "filter", "mapFlip", "filterFlip"};
    assert u.Keys == (m + h).Keys;
    forall n | n in u
      ensures u[n] == (m + h)[n]
    {
      if n in h {
        assert n in HigherOrderEntries;
      }
    }
  }

  /**
   * `Funcs()`: the sprig catalog without the blocklisted names, overridden by `renderFuncs`,
   * plus the four higher-order entries, which win over both.
   */
  method BuildFuncs(sprig: FuncMap, render: FuncMap) returns (funcs: FuncMap)
    ensures funcs == Registry(sprig, render)
  {
    funcs := sprig;
    funcs := funcs - {"hello"};
    funcs := funcs - {"toJson"};
    funcs := funcs - {"toPrettyJson"};
    funcs := funcs - {"env"};
    funcs := funcs - {"expandenv"};
    assert funcs == sprig - Blocklist;
    var copied := CopyInto(funcs, render);
    assert copied == funcs + render;
    funcs := copied;
    funcs := funcs["map" := HigherOrder(MapOp)];
    funcs := funcs["filter" := HigherOrder(FilterOp)];
    funcs := funcs["mapFlip" := HigherOrder(MapFlipOp)];
    funcs := funcs["filterFlip" := HigherOrder(FilterFlipOp)];
    AddHigherOrderFuncs(copied);
  }
}
