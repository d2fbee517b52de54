/**
 * The tree-walking evaluator `AELEval`. Its fields (the expression text, the
 * variables and the trace sink) are set once by the constructor and never
 * change, so they form the context `Ctx` of every evaluation; the only effect
 * of an evaluation is the lines it sends to the sink, which an `Outcome`
 * carries next to the result. A thrown error keeps the lines emitted before it.
 *
 * A node at depth `d` has `d` parent links above it; its children are at
 * depth `d + 1`.
 */
module AelEval {
  import opened AelValues
  import opened AelAst
  import opened AelTracing

  /** The evaluator's fields: `this.expr`, `this.vars`, whether `this.trace`
      is set, and the host operations. */
  datatype Ctx = Ctx(host: Host, expr: string, vars: map<string, Value>, tracing: bool)

  /** The result of an evaluation and the trace lines it emitted, in order. */
  datatype Outcome<+T> = Outcome(res: Result<T>, lines: seq<string>)

  const InvalidNode := "invalid AST node (should not happen)"
  const NotAnObject := "selector base object does not evaluate into a non-null object"
  const NotAFunction := "object does not evaluate into a function"
  const InvalidVariable := "invalid variable reference"

  /** What evaluating an absent child throws: `N.child(i)` is `undefined`,
      and `undefined.type()` fails. */
  const MissingNode := HostThrown("TypeError: Cannot read properties of undefined (reading 'type')")

  /** `this.error(N, origin, message)`: an `AELError` carrying the origin, the
      expression text and the node's position. */
  function ErrorAt(c: Ctx, N: Node, origin: string, message: string): (t: Thrown)
    ensures t.AelThrown? && t.message == message
    ensures t.params.Keys == {"origin", "code", "line", "column"}
    ensures t.params["origin"] == Str(origin) && t.params["code"] == Str(c.expr)
    ensures t.params["line"] == Num(N.pos.line) && t.params["column"] == Num(N.pos.column)
  {
    AelThrown(message, map["origin" := Str(origin), "code" := Str(c.expr),
                           "line" := Num(N.pos.line), "column" := Num(N.pos.column)])
  }

  /** The lines `traceBegin(N)` emits. */
  function Begin(c: Ctx, N: Node, d: nat): seq<string> {
    if c.tracing then [BeginLine(c.host, d, N.kind.Name())] else []
  }

  /** The lines `traceEnd(N, v)` emits. */
  function End(c: Ctx, N: Node, d: nat, v: Value): seq<string> {
    if c.tracing then [EndLine(c.host, d, v)] else []
  }

  /** A node's evaluation returning `v` after emitting `lines`: `traceEnd`
      then `return`. */
  function Done(c: Ctx, N: Node, d: nat, lines: seq<string>, v: Value): Outcome<Value> {
    Outcome(Ok(v), lines + End(c, N, d, v))
  }

  /** `eval(N)` for a node at depth `d`. */
  function Eval(c: Ctx, N: Node, d: nat): Outcome<Value>
    decreases N, 3, 0
  {
    match N.kind
    case ConditionalBinary => EvalConditionalBinary(c, N, d)
    case ConditionalTernary => EvalConditionalTernary(c, N, d)
    case Logical => EvalLogical(c, N, d)
    case Bitwise => EvalBinary(c, N, d, BitwiseOp)
    case Relational => EvalBinary(c, N, d, RelationalOp)
    case Arithmetical => EvalBinary(c, N, d, ArithmeticalOp)
    case Unary => EvalUnary(c, N, d)
    case Select =>
      var o := EvalSelect(c, N, d);
      Outcome(if o.res.Ok? then Ok(o.res.value.1) else Throw(o.res.thrown), o.lines)
    case FuncCall => EvalFuncCall(c, N, d)
    case Identifier => EvalAttribute(c, N, d, "id")
    case Variable => EvalVariable(c, N, d)
    case LiteralString | LiteralRegExp | LiteralNumber | LiteralValue => EvalAttribute(c, N, d, "value")
    case Other(_) => Outcome(Throw(ErrorAt(c, N, "eval", InvalidNode)), [])
  }

  /** `this.eval(N.child(i))`. */
  function Sub(c: Ctx, N: Node, i: nat, d: nat): Outcome<Value>
    decreases N, 0, 0
  {
    if i < |N.children| then Eval(c, N.children[i], d + 1) else Outcome(Throw(MissingNode), [])
  }

  /** `a ?: b`: child 0's value when it is truthy, else child 1's value;
      child 1 is evaluated only in the second case. */
  function EvalConditionalBinary(c: Ctx, N: Node, d: nat): Outcome<Value>
    decreases N, 2, 0
  {
    var pre := Begin(c, N, d);
    var a := Sub(c, N, 0, d);
    if a.res.Throw? then Outcome(a.res, pre + a.lines)
    else if c.host.truthy(a.res.value) then Done(c, N, d, pre + a.lines, a.res.value)
    else
      var b := Sub(c, N, 1, d);
      if b.res.Throw? then Outcome(b.res, pre + a.lines + b.lines)
      else Done(c, N, d, pre + a.lines + b.lines, b.res.value)
  }

  /** `a ? b : c`: child 0, then exactly one of child 1 and child 2. */
  function EvalConditionalTernary(c: Ctx, N: Node, d: nat): Outcome<Value>
    decreases N, 2, 0
  {
    var pre := Begin(c, N, d);
    var a := Sub(c, N, 0, d);
    if a.res.Throw? then Outcome(a.res, pre + a.lines)
    else
      var b := Sub(c, N, if c.host.truthy(a.res.value) then 1 else 2, d);
      if b.res.Throw? then Outcome(b.res, pre + a.lines + b.lines)
      else Done(c, N, d, pre + a.lines + b.lines, b.res.value)
  }

  /** `&&` and `||` with short-circuiting; any other operator yields `false`
      without evaluating a child. */
  function EvalLogical(c: Ctx, N: Node, d: nat): Outcome<Value>
    decreases N, 2, 0
  {
    var pre := Begin(c, N, d);
    var op := Attr(N, "op");
    if op == Str("&&") || op == Str("||") then
      var a := Sub(c, N, 0, d);
      if a.res.Throw? then Outcome(a.res, pre + a.lines)
      else
        var left := c.host.truthy(a.res.value);
        if left == (op == Str("||")) then Done(c, N, d, pre + a.lines, Bool(left))
        else
          var b := Sub(c, N, 1, d);
          if b.res.Throw? then Outcome(b.res, pre + a.lines + b.lines)
          else Done(c, N, d, pre + a.lines + b.lines, Bool(c.host.truthy(b.res.value)))
    else Done(c, N, d, pre, Bool(false))
  }

  /** The operator tables of the three binary node kinds that evaluate both children. */
  datatype BinaryKind = BitwiseOp | RelationalOp | ArithmeticalOp

  /** `evalBitwise`, `evalRelational`, `evalArithmetical`: child 0, then child 1,
      then the operator. */
  function EvalBinary(c: Ctx, N: Node, d: nat, k: BinaryKind): Outcome<Value>
    decreases N, 2, 0
  {
    var pre := Begin(c, N, d);
    var a := Sub(c, N, 0, d);
    if a.res.Throw? then Outcome(a.res, pre + a.lines)
    else
      var b := Sub(c, N, 1, d);
      if b.res.Throw? then Outcome(b.res, pre + a.lines + b.lines)
      else
        var op := Attr(N, "op");
        var v := match k
          case BitwiseOp => Bitwise(c.host, op, a.res.value, b.res.value)
          case RelationalOp => Relational(c.host, op, a.res.value, b.res.value)
          case ArithmeticalOp => Arithmetical(c.host, op, a.res.value, b.res.value);
        Done(c, N, d, pre + a.lines + b.lines, v)
  }

  /** The bitwise operators on the numeric coercions of both operands. */
  function Bitwise(h: Host, op: Value, v1: Value, v2: Value): Value {
    var n1 := h.coerceNumber(v1);
    var n2 := h.coerceNumber(v2);
    if op == Str("&") then Num(h.arith(BitAnd, n1, n2))
    else if op == Str("|") then Num(h.arith(BitOr, n1, n2))
    else if op == Str("<<") then Num(h.arith(Shl, n1, n2))
    else if op == Str(">>") then Num(h.arith(Shr, n1, n2))
    else Undefined
  }

  /** The relational operators: `==` and `!=` are strict (in)equality, the
      orderings compare numerically, `=~` and `!~` match a regular expression. */
  function Relational(h: Host, op: Value, v1: Value, v2: Value): Value {
    if op == Str("==") then Bool(StrictEq(v1, v2))
    else if op == Str("!=") then Bool(!StrictEq(v1, v2))
    else if op == Str("<=") then Bool(h.coerceNumber(v1) <= h.coerceNumber(v2))
    else if op == Str(">=") then Bool(h.coerceNumber(v1) >= h.coerceNumber(v2))
    else if op == Str("<") then Bool(h.coerceNumber(v1) < h.coerceNumber(v2))
    else if op == Str(">") then Bool(h.coerceNumber(v1) > h.coerceNumber(v2))
    else if op == Str("=~") then Bool(h.matches(h.coerceString(v1), h.coerceRegExp(v2)))
    else if op == Str("!~") then Bool(!h.matches(h.coerceString(v1), h.coerceRegExp(v2)))
    else Undefined
  }

  /** The arithmetical operators: `+` concatenates when its left operand is a
      string; `-`, as written, adds. */
  function Arithmetical(h: Host, op: Value, v1: Value, v2: Value): Value {
    var n1 := h.coerceNumber(v1);
    var n2 := h.coerceNumber(v2);
    if op == Str("+") then
      if v1.Str? then Str(v1.s + h.coerceString(v2)) else Num(h.arith(Add, n1, n2))
    else if op == Str("-") then Num(h.arith(Add, n1, n2))
    else if op == Str("*") then Num(h.arith(Mul, n1, n2))
    else if op == Str("/") then Num(h.arith(Div, n1, n2))
    else if op == Str("%") then Num(h.arith(Mod, n1, n2))
    else if op == Str("**") then Num(h.arith(Pow, n1, n2))
    else Undefined
  }

  /** `!` negates the boolean coercion, `~` complements the numeric one. */
  function EvalUnary(c: Ctx, N: Node, d: nat): Outcome<Value>
    decreases N, 2, 0
  {
    var pre := Begin(c, N, d);
    var a := Sub(c, N, 0, d);
    if a.res.Throw? then Outcome(a.res, pre + a.lines)
    else
      var op := Attr(N, "op");
      var v := if op == Str("!") then Bool(!c.host.coerceBoolean(a.res.value))
               else if op == Str("~") then Num(c.host.bitNot(c.host.coerceNumber(a.res.value)))
               else Undefined;
      Done(c, N, d, pre + a.lines, v)
  }

  /** `child.get("optional") ?? false`, taken as a condition. */
  predicate Optional(step: Node) {
    JsTruthy(Attr(step, "optional"))
  }

  /** `obj[key]` on an object, an array or a regular expression: own keys of an
      object, canonical indices and `length` of an array, and whatever the host
      says for a regular expression; anything else reads as `undefined`. */
  function Property(h: Host, obj: Value, key: string): Value
    requires obj.IsObject()
  {
    match obj
    case Object(_, fields) => if key in fields then fields[key] else Undefined
    case Array(_, elems) =>
      if key == "length" then Num(|elems|)
      else
        var i := ArrayIndexOf(key);
        if i.Some? && i.value < |elems| then elems[i.value] else Undefined
    case Regex(_) => h.regexProperty(obj, key)
  }

  /** `evalSelect(N, true)`: the pair `(parent, result)`; `evalSelect(N)`
      returns its second component. */
  function EvalSelect(c: Ctx, N: Node, d: nat): Outcome<(Value, Value)>
    decreases N, 2, 0
  {
    var pre := Begin(c, N, d);
    var base := Sub(c, N, 0, d);
    if base.res.Throw? then Outcome(Throw(base.res.thrown), pre + base.lines)
    else
      SelectFinish(c, N, d, pre + base.lines, SelectSteps(c, N, 1, d, Undefined, base.res.value))
  }

  /** The end of `evalSelect` after `lines` were emitted and the steps gave
      `walk`: the error, or `traceEnd` on the result. */
  function SelectFinish(c: Ctx, N: Node, d: nat, lines: seq<string>, walk: Outcome<(Value, Value)>): Outcome<(Value, Value)> {
    if walk.res.Throw? then Outcome(walk.res, lines + walk.lines)
    else Outcome(walk.res, lines + walk.lines + End(c, N, d, walk.res.value.1))
  }

  /** The loop over the steps `N.childs(1)` from step `i` on, with the current
      `parent` and `result`. */
  function SelectSteps(c: Ctx, N: Node, i: nat, d: nat, parent: Value, result: Value): Outcome<(Value, Value)>
    decreases N, 1, |N.children| - i
  {
    if i >= |N.children| then Outcome(Ok((parent, result)), [])
    else
      var step := N.children[i];
      if result.Nullish() && Optional(step) then Outcome(Ok((parent, Undefined)), [])
      else if !result.IsObject() then Outcome(Throw(ErrorAt(c, step, "evalSelect", NotAnObject)), [])
      else
        var selector := Sub(c, step, 0, d + 1);
        if selector.res.Throw? then Outcome(Throw(selector.res.thrown), selector.lines)
        else
          var key := c.host.coerceString(selector.res.value);
          var rest := SelectSteps(c, N, i + 1, d, result, Property(c.host, result, key));
          Outcome(rest.res, selector.lines + rest.lines)
  }

  /** `evalFuncCall(N)`: the callee (through `evalSelect(S, true)` when it is a
      selection, giving the receiver), the optional-call short-circuit, the
      callable check, the arguments `N.childs()` and the call. */
  function EvalFuncCall(c: Ctx, N: Node, d: nat): Outcome<Value>
    decreases N, 2, 0
  {
    var pre := Begin(c, N, d);
    if |N.children| == 0 then Outcome(Throw(MissingNode), pre)
    else
      var callee := Callee(c, N, d);
      if callee.res.Throw? then Outcome(Throw(callee.res.thrown), pre + callee.lines)
      else CallWith(c, N, d, pre + callee.lines, callee.res.value.0, callee.res.value.1)
  }

  /** The rest of `evalFuncCall` once the receiver `ctx` and the function
      value `fn` are known and `lines` were emitted. */
  function CallWith(c: Ctx, N: Node, d: nat, lines: seq<string>, ctx: Value, fn: Value): Outcome<Value>
    requires |N.children| > 0
    decreases N, 1, |N.children| + 1
  {
    if fn.Nullish() && Optional(N) then Done(c, N, d, lines, Undefined)
    else if !fn.Fn? then Outcome(Throw(ErrorAt(c, N.children[0], "evalFuncCall", NotAFunction)), lines)
    else
      var args := EvalArgs(c, N, 0, d);
      if args.res.Throw? then Outcome(Throw(args.res.thrown), lines + args.lines)
      else
        var r := c.host.apply(ctx, fn, args.res.value);
        if r.Throw? then Outcome(r, lines + args.lines) else Done(c, N, d, lines + args.lines, r.value)
  }

  /** The receiver and function value of a call: `evalSelect(S, true)` for a
      selection `S`, else `(undefined, eval(S))`. */
  function Callee(c: Ctx, N: Node, d: nat): Outcome<(Value, Value)>
    requires |N.children| > 0
    decreases N, 1, |N.children| + 1
  {
    var S := N.children[0];
    if S.kind.Select? then EvalSelect(c, S, d + 1)
    else
      var f := Eval(c, S, d + 1);
      Outcome(if f.res.Ok? then Ok((Undefined, f.res.value)) else Throw(f.res.thrown), f.lines)
  }

  /** The values of the children from index `i` on, evaluated left to right. */
  function EvalArgs(c: Ctx, N: Node, i: nat, d: nat): Outcome<seq<Value>>
    decreases N, 1, |N.children| - i
  {
    if i >= |N.children| then Outcome(Ok([]), [])
    else
      var a := Eval(c, N.children[i], d + 1);
      if a.res.Throw? then Outcome(Throw(a.res.thrown), a.lines)
      else
        var rest := EvalArgs(c, N, i + 1, d);
        Outcome(if rest.res.Ok? then Ok([a.res.value] + rest.res.value) else rest.res, a.lines + rest.lines)
  }

  /** `evalIdentifier` and the literal methods: the attribute `attr` verbatim. */
  function EvalAttribute(c: Ctx, N: Node, d: nat, attr: string): Outcome<Value> {
    Done(c, N, d, Begin(c, N, d), Attr(N, attr))
  }

  /** `evalVariable`: `vars[id]`, an error when that entry is `undefined`. */
  function EvalVariable(c: Ctx, N: Node, d: nat): Outcome<Value> {
    var pre := Begin(c, N, d);
    var key := JsString(c.host, Attr(N, "id"));
    if key !in c.vars || c.vars[key] == Undefined then
      Outcome(Throw(ErrorAt(c, N, "evalVariable", InvalidVariable)), pre)
    else Done(c, N, d, pre, c.vars[key])
  }

  // ------------------------------------------------------------ the loops

  /** The arguments gathered so far, `args` with the lines `ls` they emitted,
      in front of the evaluation `rest` of the remaining ones. */
  function Prepend(args: seq<Value>, ls: seq<string>, rest: Outcome<seq<Value>>): Outcome<seq<Value>> {
    Outcome(if rest.res.Ok? then Ok(args + rest.res.value) else rest.res, ls + rest.lines)
  }

  /** `evalSelect(N, true)` as the interpreter runs it: a loop over the steps that
      reassigns `parent` and `result` and leaves by `break` at an optional step
      on a missing value. `anc` is the parent chain of `N`. */
  method EvalSelectLoop(c: Ctx, N: Node, anc: Ancestry) returns (o: Outcome<(Value, Value)>)
    ensures o == EvalSelect(c, N, Depth(anc))
  {
    var d := Depth(anc);
    var lines := TraceBegin(c.host, c.tracing, N, anc);
    var base := Sub(c, N, 0, d);
    lines := lines + base.lines;
    if base.res.Throw? {
      return Outcome(Throw(base.res.thrown), lines);
    }
    var parent := Undefined;
    var result := base.res.value;
    var i := 1;
    while i < |N.children|
      invariant 1 <= i <= |N.children|
      invariant SelectFinish(c, N, d, lines, SelectSteps(c, N, i, d, parent, result)) == EvalSelect(c, N, d)
      decreases |N.children| - i
    {
      SelectStepCases(c, N, i, d, lines, parent, result);
      var step := N.children[i];
      if result.Nullish() && Optional(step) {
        result := Undefined;
        break;
      }
      if !result.IsObject() {
        return Outcome(Throw(ErrorAt(c, step, "evalSelect", NotAnObject)), lines);
      }
      var selector := Sub(c, step, 0, d + 1);
      lines := lines + selector.lines;
      if selector.res.Throw? {
        return Outcome(Throw(selector.res.thrown), lines);
      }
      var key := c.host.coerceString(selector.res.value);
      parent := result;
      result := Property(c.host, result, key);
      i := i + 1;
    }
    if i == |N.children| {
      assert SelectSteps(c, N, i, d, parent, result) == Outcome(Ok((parent, result)), []);
      assert lines + [] == lines;
    }
    var tail := TraceEnd(c.host, c.tracing, N, anc, result);
    o := Outcome(Ok((parent, result)), lines + tail);
  }

  /** One step of the walk, seen from the end of `evalSelect` after `lines`:
      an optional stop, the non-object error, a failing key, or the next step. */
  lemma SelectStepCases(c: Ctx, N: Node, i: nat, d: nat, lines: seq<string>, parent: Value, result: Value)
    requires i < |N.children|
    ensures var step := N.children[i];
      var sel := Sub(c, step, 0, d + 1);
      var f := SelectFinish(c, N, d, lines, SelectSteps(c, N, i, d, parent, result));
      && (result.Nullish() && Optional(step) ==> f == Outcome(Ok((parent, Undefined)), lines + End(c, N, d, Undefined)))
      && (!(result.Nullish() && Optional(step)) && !result.IsObject() ==>
            f == Outcome(Throw(ErrorAt(c, step, "evalSelect", NotAnObject)), lines))
      && (!(result.Nullish() && Optional(step)) && result.IsObject() && sel.res.Throw? ==>
            f == Outcome(Throw(sel.res.thrown), lines + sel.lines))
      && (!(result.Nullish() && Optional(step)) && result.IsObject() && sel.res.Ok? ==>
            f == SelectFinish(c, N, d, lines + sel.lines,
                   SelectSteps(c, N, i + 1, d, result, Property(c.host, result, c.host.coerceString(sel.res.value)))))
  {
    assert lines + [] == lines;
    var step := N.children[i];
    var sel := Sub(c, step, 0, d + 1);
    if !(result.Nullish() && Optional(step)) && result.IsObject() && sel.res.Ok? {
      var rest := SelectSteps(c, N, i + 1, d, result, Property(c.host, result, c.host.coerceString(sel.res.value)));
      assert lines + (sel.lines + rest.lines) == lines + sel.lines + rest.lines;
    }
  }

  /** `evalFuncCall(N)` as the interpreter runs it: the callee, the checks, then a
      loop that pushes the value of every child onto `args`. `anc` is the
      parent chain of `N`. */
  method EvalFuncCallLoop(c: Ctx, N: Node, anc: Ancestry) returns (o: Outcome<Value>)
    ensures o == EvalFuncCall(c, N, Depth(anc))
  {
    var d := Depth(anc);
    var lines := TraceBegin(c.host, c.tracing, N, anc);
    if |N.children| == 0 {
      return Outcome(Throw(MissingNode), lines);
    }
    var S := N.children[0];
    var callee: Outcome<(Value, Value)>;
    if S.kind.Select? {
      callee := EvalSelectLoop(c, S, Below(N, anc));
    } else {
      var f := Eval(c, S, d + 1);
      callee := Outcome(if f.res.Ok? then Ok((Undefined, f.res.value)) else Throw(f.res.thrown), f.lines);
    }
    assert callee == Callee(c, N, d);
    lines := lines + callee.lines;
    if callee.res.Throw? {
      return Outcome(Throw(callee.res.thrown), lines);
    }
    var ctx, fn := callee.res.value.0, callee.res.value.1;
    assert EvalFuncCall(c, N, d) == CallWith(c, N, d, lines, ctx, fn);
    if fn.Nullish() && Optional(N) {
      var tail := TraceEnd(c.host, c.tracing, N, anc, Undefined);
      return Outcome(Ok(Undefined), lines + tail);
    }
    if !fn.Fn? {
      return Outcome(Throw(ErrorAt(c, S, "evalFuncCall", NotAFunction)), lines);
    }
    var args := EvalArgsLoop(c, N, d);
    lines := lines + args.lines;
    if args.res.Throw? {
      return Outcome(Throw(args.res.thrown), lines);
    }
    var r := c.host.apply(ctx, fn, args.res.value);
    if r.Throw? {
      return Outcome(r, lines);
    }
    var tail := TraceEnd(c.host, c.tracing, N, anc, r.value);
    o := Outcome(Ok(r.value), lines + tail);
  }

  /** The `forEach` over `N.childs()` that pushes each child's value onto
      `args`, for a call node at depth `d`. */
  method EvalArgsLoop(c: Ctx, N: Node, d: nat) returns (o: Outcome<seq<Value>>)
    ensures o == EvalArgs(c, N, 0, d)
  {
    var args: seq<Value> := [];
    var argLines: seq<string> := [];
    PrependNothing(EvalArgs(c, N, 0, d));
    for i := 0 to |N.children|
      invariant Prepend(args, argLines, EvalArgs(c, N, i, d)) == EvalArgs(c, N, 0, d)
    {
      ArgsStep(c, N, i, d, args, argLines);
      var a := Eval(c, N.children[i], d + 1);
      argLines := argLines + a.lines;
      if a.res.Throw? {
        return Outcome(Throw(a.res.thrown), argLines);
      }
      args := args + [a.res.value];
    }
    assert args + [] == args && argLines + [] == argLines;
    o := Outcome(Ok(args), argLines);
  }

  /** Nothing gathered in front of an evaluation leaves it as it is. */
  lemma PrependNothing(o: Outcome<seq<Value>>)
    ensures Prepend([], [], o) == o
  {
    assert [] + o.lines == o.lines;
    if o.res.Ok? {
      assert [] + o.res.value == o.res.value;
    }
  }

  /** One argument: its error ends the evaluation, its value joins the ones
      gathered so far. */
  lemma ArgsStep(c: Ctx, N: Node, i: nat, d: nat, args: seq<Value>, ls: seq<string>)
    requires i < |N.children|
    ensures var a := Eval(c, N.children[i], d + 1);
      && (a.res.Throw? ==> Prepend(args, ls, EvalArgs(c, N, i, d)) == Outcome(Throw(a.res.thrown), ls + a.lines))
      && (a.res.Ok? ==>
            Prepend(args, ls, EvalArgs(c, N, i, d)) == Prepend(args + [a.res.value], ls + a.lines, EvalArgs(c, N, i + 1, d)))
  {
    var a := Eval(c, N.children[i], d + 1);
    if a.res.Ok? {
      var rest := EvalArgs(c, N, i + 1, d);
      assert ls + (a.lines + rest.lines) == ls + a.lines + rest.lines;
      if rest.res.Ok? {
        assert args + ([a.res.value] + rest.res.value) == (args + [a.res.value]) + rest.res.value;
      }
    }
  }
}
