/**
 * The API class `AEL`: a registry of callable functions pre-filled with the
 * standard table, an LRU cache of compiled expressions, and the three entry
 * points `compile`, `execute` and `evaluate` with their argument-count
 * guards and defaults.
 *
 * JavaScript's `arguments.length` is the explicit parameter `argc`; a
 * parameter at a position `>= argc` reads as `undefined`. The expression
 * parser and the expression runner (`AELExpr.execute`) are code this model
 * does not see: they are the arrows `parse` and `run`.
 */
module AelApi {
  import opened AelValues
  import opened AelAst
  import opened AelStdFuncs

  const FuncArity := "AEL#func: invalid number of arguments"
  const CacheArity := "AEL#cache: invalid number of arguments"
  const CompileTooLess := "AEL#compile: too less arguments"
  const CompileTooMany := "AEL#compile: too many arguments"
  const ExecuteTooLess := "AEL#execute: too less arguments"
  const ExecuteTooMany := "AEL#execute: too many arguments"
  const EvaluateTooLess := "AEL#evaluate: too less arguments"
  const EvaluateTooMany := "AEL#evaluate: too many arguments"
  const ParseFailed := "AEL: compile: query parsing failed:\n"

  /** What the parser makes of an expression text: its AST, or the rendered
      error report (every line already prefixed with "ERROR: "). */
  datatype Parsed = Parsed(ast: Node) | ParseError(report: string)

  /** The parameter at position `i` of a call with `argc` arguments. */
  function Arg(argc: nat, i: nat, v: Value): (r: Value)
    ensures i < argc ==> r == v
    ensures i >= argc ==> r == Undefined
  {
    if i < argc then v else Undefined
  }

  /** `if (x === undefined) x = dflt`. */
  function Defaulted(v: Value, dflt: Value): (r: Value)
    ensures v.Undefined? ==> r == dflt
    ensures !v.Undefined? ==> r == v
  {
    if v.Undefined? then dflt else v
  }

  /** A compiled expression (`AELExpr`): no AST until `compile` succeeds. */
  class AELExpr {
    var ast: Option<Node>

    /** `new AELExpr()` */
    constructor ()
      ensures ast == None
    {
      ast := None;
    }

    /** `compile(expr, trace)`: keeps the AST on success and throws the parser's
        report on failure, leaving the AST as it was. The trace output is not
        part of this model. */
    method Compile(parse: string -> Parsed, expr: string) returns (r: Result<AELExpr>)
      modifies this
      ensures parse(expr).Parsed? ==> r == Ok(this) && ast == Some(parse(expr).ast)
      ensures parse(expr).ParseError? ==> r == Throw(HostThrown(ParseFailed + parse(expr).report)) && ast == old(ast)
    {
      var result := parse(expr);
      if result.ParseError? {
        return Throw(HostThrown(ParseFailed + result.report));
      }
      ast := Some(result.ast);
      return Ok(this);
    }
  }

  /** The LRU cache of compiled expressions, keyed by the expression text. The
      eviction policy is not part of this model: `entries` holds what the cache
      may still answer, a lookup may miss at any time, and storing an entry or
      lowering the limit may drop any entries (the new one included) and keeps
      the rest unchanged. */
  class LruCache {
    var entries: map<string, AELExpr>
    /** the last limit configured, `undefined` before any */
    var limit: Value

    constructor ()
      ensures entries == map[] && limit == Undefined
    {
      entries := map[];
      limit := Undefined;
    }

    /** `get(key)`: the entry stored under `key`, or a miss; a key never
        stored always misses. */
    method Get(key: string) returns (r: Option<AELExpr>)
      ensures r.Some? ==> key in entries && r.value == entries[key]
      ensures key !in entries ==> r == None
    {
      r := None;
      if key in entries {
        if * {
          r := Some(entries[key]);
        }
      }
    }

    /** `set(key, value)`: stores the entry; any entries may be evicted. */
    method Set(key: string, value: AELExpr)
      modifies this
      ensures key in entries ==> entries[key] == value
      ensures Retained(old(entries), entries, key)
      ensures limit == old(limit)
    {
      var kept: set<string> :| kept <= entries.Keys + {key};
      entries := map k | k in kept :: if k == key then value else entries[k];
    }

    /** `limit(n)`: records the limit; entries may be evicted to meet it. */
    method Limit(n: Value)
      modifies this
      ensures limit == n
      ensures entries.Keys <= old(entries).Keys
      ensures forall k :: k in entries ==> entries[k] == old(entries)[k]
    {
      var kept: set<string> :| kept <= entries.Keys;
      entries := map k | k in kept :: entries[k];
      limit := n;
    }
  }

  /** Every entry of `after` other than `key` was in `before`, unchanged. */
  predicate Retained(before: map<string, AELExpr>, after: map<string, AELExpr>, key: string) {
    forall k :: k in after && k != key ==> k in before && after[k] == before[k]
  }

  /** The registry after registering `f(n)` under `Str(n)` for each name in
      turn: every name is a key and holds its own function. */
  function Registered(f: string -> Value, names: seq<string>): (m: map<Value, Value>)
    ensures m.Keys == set n | n in names :: Str(n)
    ensures forall n :: n in names ==> m[Str(n)] == f(n)
  {
    if names == [] then map[]
    else
      var init := names[..|names| - 1];
      var last := names[|names| - 1];
      assert names == init + [last];
      Registered(f, init)[Str(last) := f(last)]
  }

  class AEL {
    /** the function registry (`this._funcs`) */
    var funcs: map<Value, Value>
    const cache: LruCache
    const parse: string -> Parsed
    /** `ast.execute(params, vars, funcs, trace)` */
    const run: (Option<Node>, Value, Value, map<Value, Value>, Value) -> Result<Value>

    /** The cache only holds successful compilations, each of its own key. */
    predicate Valid()
      reads this, cache, cache.entries.Values
    {
      forall k :: k in cache.entries ==> parse(k).Parsed? && cache.entries[k].ast == Some(parse(k).ast)
    }

    /** `new AEL()`: registers every function of the standard table under its
        own name (`std(n)` is the table's function object for `n`) and starts
        with an empty cache. */
    constructor (parse: string -> Parsed, run: (Option<Node>, Value, Value, map<Value, Value>, Value) -> Result<Value>,
                 std: string -> Value)
      ensures Valid()
      ensures funcs.Keys == set n | n in StdNames :: Str(n)
      ensures forall n :: n in StdNames ==> funcs[Str(n)] == std(n)
      ensures fresh(cache) && cache.entries == map[]
      ensures this.parse == parse && this.run == run
    {
      this.parse := parse;
      this.run := run;
      funcs := map[];
      cache := new LruCache();
      new;
      for i := 0 to |StdNames|
        invariant funcs == Registered(std, StdNames[..i])
        invariant cache.entries == map[]
      {
        var _ := Func(2, Str(StdNames[i]), std(StdNames[i]));
        assert StdNames[..i + 1] == StdNames[..i] + [StdNames[i]];
      }
      assert StdNames[..|StdNames|] == StdNames;
    }

    /** `func(name, func)`: registers `f` under `name` and answers `this`. */
    method Func(argc: nat, name: Value, f: Value) returns (r: Result<AEL>)
      requires Valid()
      modifies this
      ensures Valid()
      ensures argc != 2 ==> r == Throw(HostThrown(FuncArity)) && funcs == old(funcs)
      ensures argc == 2 ==> r == Ok(this) && funcs == old(funcs)[name := f]
    {
      if argc != 2 {
        return Throw(HostThrown(FuncArity));
      }
      funcs := funcs[name := f];
      return Ok(this);
    }

    /** `cache(entries)`: configures the cache limit and answers `this`. */
    method Cache(argc: nat, entries: Value) returns (r: Result<AEL>)
      requires Valid()
      modifies cache
      ensures Valid()
      ensures argc != 1 ==>
                r == Throw(HostThrown(CacheArity)) && cache.entries == old(cache.entries) && cache.limit == old(cache.limit)
      ensures argc == 1 ==> r == Ok(this) && cache.limit == entries
      ensures cache.entries.Keys <= old(cache.entries).Keys
      ensures forall k :: k in cache.entries ==> cache.entries[k] == old(cache.entries)[k]
    {
      if argc != 1 {
        return Throw(HostThrown(CacheArity));
      }
      cache.Limit(entries);
      return Ok(this);
    }

    /** `compile(expr, trace)`: the cached object on a hit (`hit`); otherwise
        a new one, compiled and stored under `expr` unless the cache evicts it
        at once. A parse failure stores nothing. `trace` only selects trace
        output, which is not modelled. */
    method Compile(argc: nat, expr: string, trace: Value) returns (r: Result<AELExpr>, ghost hit: bool)
      requires Valid()
      modifies cache
      ensures Valid()
      ensures cache.limit == old(cache.limit)
      ensures argc < 1 ==> r == Throw(HostThrown(CompileTooLess)) && cache.entries == old(cache.entries) && !hit
      ensures argc > 2 ==> r == Throw(HostThrown(CompileTooMany)) && cache.entries == old(cache.entries) && !hit
      ensures hit ==> expr in old(cache.entries) && r == Ok(old(cache.entries)[expr]) && cache.entries == old(cache.entries)
      ensures expr !in old(cache.entries) ==> !hit
      ensures 1 <= argc <= 2 && !hit && parse(expr).ParseError? ==>
                r == Throw(HostThrown(ParseFailed + parse(expr).report)) && cache.entries == old(cache.entries)
      ensures 1 <= argc <= 2 && !hit && parse(expr).Parsed? ==>
                r.Ok? && fresh(r.value) && Retained(old(cache.entries), cache.entries, expr)
      ensures r.Ok? ==> parse(expr).Parsed? && r.value.ast == Some(parse(expr).ast)
      ensures 1 <= argc <= 2 && expr in cache.entries ==> r.Ok? && cache.entries[expr] == r.value
    {
      hit := false;
      if argc < 1 {
        return Throw(HostThrown(CompileTooLess)), hit;
      }
      if argc > 2 {
        return Throw(HostThrown(CompileTooMany)), hit;
      }
      var found := cache.Get(expr);
      if found.Some? {
        hit := true;
        return Ok(found.value), hit;
      }
      var ast := new AELExpr();
      var compiled := ast.Compile(parse, expr);
      if compiled.Throw? {
        return compiled, hit;
      }
      cache.Set(expr, ast);
      return Ok(ast), hit;
    }

    /** `execute(ast, params, vars, trace)`: runs the compiled expression with
        the function registry; `params` defaults to the fresh empty object
        `Object(emptyRef, {})` and `trace` to `false`. */
    method Execute(argc: nat, ast: AELExpr, params: Value, vars: Value, trace: Value, emptyRef: nat)
      returns (r: Result<Value>)
      ensures argc < 1 ==> r == Throw(HostThrown(ExecuteTooLess))
      ensures argc > 4 ==> r == Throw(HostThrown(ExecuteTooMany))
      ensures 1 <= argc <= 4 ==>
                r == run(ast.ast, Defaulted(Arg(argc, 1, params), Object(emptyRef, map[])),
                         Arg(argc, 2, vars), funcs, Defaulted(Arg(argc, 3, trace), Bool(false)))
    {
      if argc < 1 {
        return Throw(HostThrown(ExecuteTooLess));
      }
      if argc > 4 {
        return Throw(HostThrown(ExecuteTooMany));
      }
      var p := Arg(argc, 1, params);
      if p == Undefined {
        p := Object(emptyRef, map[]);
      }
      var t := Arg(argc, 3, trace);
      if t == Undefined {
        t := Bool(false);
      }
      r := run(ast.ast, p, Arg(argc, 2, vars), funcs, t);
    }

    /** `evaluate(expr, params, vars, trace)`: `execute(compile(expr, trace), …)`
        with the same defaults. Whether the compiled expression came from the
        cache does not matter: the result is that of running the parse of
        `expr`, or the parse failure. */
    method Evaluate(argc: nat, expr: string, params: Value, vars: Value, trace: Value, emptyRef: nat)
      returns (r: Result<Value>)
      requires Valid()
      modifies cache
      ensures Valid()
      ensures cache.limit == old(cache.limit)
      ensures argc < 1 ==> r == Throw(HostThrown(EvaluateTooLess)) && cache.entries == old(cache.entries)
      ensures argc > 4 ==> r == Throw(HostThrown(EvaluateTooMany)) && cache.entries == old(cache.entries)
      ensures 1 <= argc <= 4 ==>
                var p := Defaulted(Arg(argc, 1, params), Object(emptyRef, map[]));
                var t := Defaulted(Arg(argc, 3, trace), Bool(false));
                match parse(expr)
                case ParseError(report) => r == Throw(HostThrown(ParseFailed + report))
                case Parsed(node) => r == run(Some(node), p, Arg(argc, 2, vars), funcs, t)
    {
      if argc < 1 {
        return Throw(HostThrown(EvaluateTooLess));
      }
      if argc > 4 {
        return Throw(HostThrown(EvaluateTooMany));
      }
      var p := Arg(argc, 1, params);
      if p == Undefined {
        p := Object(emptyRef, map[]);
      }
      var t := Arg(argc, 3, trace);
      if t == Undefined {
        t := Bool(false);
      }
      var compiled, hit := Compile(2, expr, t);
      if compiled.Throw? {
        return Throw(compiled.thrown);
      }
      r := Execute(4, compiled.value, p, Arg(argc, 2, vars), t, emptyRef);
    }
  }

  /** Compiling the same text twice in a row: a failure repeats itself, a
      success compiles to the same AST both times, and when the second lookup
      hits (`hit2`: nothing evicted the entry in between) it answers the very
      same object. */
  method CompileTwice(ael: AEL, argc: nat, expr: string, trace: Value)
    returns (r1: Result<AELExpr>, r2: Result<AELExpr>, ghost hit2: bool)
    requires ael.Valid()
    modifies ael.cache
    ensures ael.Valid()
    ensures r1.Throw? ==> r2 == r1
    ensures r1.Ok? ==> r2.Ok? && r2.value.ast == r1.value.ast
    ensures hit2 ==> r2 == r1
  {
    ghost var hit1;
    r1, hit1 := ael.Compile(argc, expr, trace);
    r2, hit2 := ael.Compile(argc, expr, trace);
  }
}
