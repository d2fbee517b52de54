/**
 * What the evaluator promises, stated over `Eval` and its parts: which
 * children are evaluated and in what order, when errors are raised, what the
 * optional forms short-circuit, and that tracing only observes.
 *
 * "Child `j` is never evaluated" is stated as: replacing child `j` by any
 * node `M` leaves the outcome, lines included, unchanged.
 */
module AelEvalFacts {
  import opened AelValues
  import opened AelAst
  import opened AelTracing
  import opened AelErrors
  import opened AelEval

  /** `N` with its `op` attribute set to `op`. */
  function WithOp(N: Node, op: string): (N': Node)
    ensures N'.kind == N.kind && N'.children == N.children && Attr(N', "op") == Str(op)
  {
    N.(attrs := N.attrs["op" := Str(op)])
  }

  // ------------------------------------------------------------ dispatch

  /** A node of a kind outside the fifteen raises the "eval" error at the
      node's position, before any trace line. */
  lemma UnknownKindFails(c: Ctx, N: Node, d: nat)
    requires N.kind.Other?
    ensures Eval(c, N, d) == Outcome(Throw(ErrorAt(c, N, "eval", InvalidNode)), [])
    ensures Eval(c, N, d).res.thrown.params["origin"] == Str("eval")
    ensures Eval(c, N, d).res.thrown.params["line"] == Num(N.pos.line)
  {
  }

  /** Every literal kind returns its `value` attribute unchanged, with one
      begin and one end line, whatever the variables are. */
  lemma LiteralIsVerbatim(c: Ctx, N: Node, d: nat, vars: map<string, Value>)
    requires N.kind.IsLiteral()
    ensures Eval(c, N, d) == Outcome(Ok(Attr(N, "value")), Begin(c, N, d) + End(c, N, d, Attr(N, "value")))
    ensures Eval(c.(vars := vars), N, d) == Eval(c, N, d)
  {
  }

  /** An identifier returns its `id` attribute itself; no variable is looked up. */
  lemma IdentifierIsVerbatim(c: Ctx, N: Node, d: nat, vars: map<string, Value>)
    requires N.kind.Identifier?
    ensures Eval(c, N, d) == Outcome(Ok(Attr(N, "id")), Begin(c, N, d) + End(c, N, d, Attr(N, "id")))
    ensures Eval(c.(vars := vars), N, d) == Eval(c, N, d)
  {
  }

  /** A variable evaluates to `vars[id]` exactly when that entry exists and is
      not `undefined`; otherwise it raises the "evalVariable" error at the node. */
  lemma VariableLookup(c: Ctx, N: Node, d: nat)
    requires N.kind.Variable?
    ensures var key := JsString(c.host, Attr(N, "id"));
      && (Eval(c, N, d).res.Ok? <==> key in c.vars && c.vars[key] != Undefined)
      && (Eval(c, N, d).res.Ok? ==> Eval(c, N, d).res.value == c.vars[key])
      && (Eval(c, N, d).res.Throw? ==> Eval(c, N, d).res.thrown == ErrorAt(c, N, "evalVariable", InvalidVariable))
  {
  }

  // ------------------------------------------------------------ conditionals

  /** `a ?: b` yields `a` when it is truthy, else `b`; when `a` is truthy or
      throws, child 1 is never evaluated. */
  lemma ConditionalBinaryChoice(c: Ctx, N: Node, d: nat, M: Node)
    requires N.kind.ConditionalBinary? && |N.children| >= 2
    ensures var a := Eval(c, N.children[0], d + 1);
      var b := Eval(c, N.children[1], d + 1);
      && Eval(c, N, d).res == (if a.res.Ok? && !c.host.truthy(a.res.value) then b.res else a.res)
      && (a.res.Throw? || c.host.truthy(a.res.value) ==> Eval(c, WithChild(N, 1, M), d) == Eval(c, N, d))
  {
    var N' := WithChild(N, 1, M);
    assert Eval(c, N, d) == EvalConditionalBinary(c, N, d);
    assert Eval(c, N', d) == EvalConditionalBinary(c, N', d);
    assert Sub(c, N', 0, d) == Sub(c, N, 0, d) == Eval(c, N.children[0], d + 1);
    assert Sub(c, N, 1, d) == Eval(c, N.children[1], d + 1);
  }

  /** `a ? b : c` evaluates `a`, then exactly one of `b` and `c`: the one it
      does not pick is never evaluated, and its lines are absent. When `a`
      throws, neither branch is evaluated. */
  lemma ConditionalTernaryChoice(c: Ctx, N: Node, d: nat, M: Node)
    requires N.kind.ConditionalTernary? && |N.children| >= 3
    ensures var a := Eval(c, N.children[0], d + 1);
      a.res.Ok? ==>
        var pick := if c.host.truthy(a.res.value) then 1 else 2;
        var b := Eval(c, N.children[pick], d + 1);
        && Eval(c, N, d).res == b.res
        && Eval(c, N, d).lines == Begin(c, N, d) + a.lines + b.lines + (if b.res.Ok? then End(c, N, d, b.res.value) else [])
        && Eval(c, WithChild(N, 3 - pick, M), d) == Eval(c, N, d)
    ensures var a := Eval(c, N.children[0], d + 1);
      a.res.Throw? ==>
        && Eval(c, N, d) == Outcome(a.res, Begin(c, N, d) + a.lines)
        && Eval(c, WithChild(N, 1, M), d) == Eval(c, N, d)
        && Eval(c, WithChild(N, 2, M), d) == Eval(c, N, d)
  {
    var a := Eval(c, N.children[0], d + 1);
    if a.res.Throw? {
      assert Eval(c, N, d) == EvalConditionalTernary(c, N, d);
      assert Sub(c, N, 0, d) == a;
      forall j | j in {1, 2}
        ensures Eval(c, WithChild(N, j, M), d) == Eval(c, N, d)
      {
        var N' := WithChild(N, j, M);
        assert Eval(c, N', d) == EvalConditionalTernary(c, N', d);
        assert Sub(c, N', 0, d) == a;
      }
    }
    if a.res.Ok? {
      var pick := if c.host.truthy(a.res.value) then 1 else 2;
      var N' := WithChild(N, 3 - pick, M);
      assert Eval(c, N, d) == EvalConditionalTernary(c, N, d);
      assert Eval(c, N', d) == EvalConditionalTernary(c, N', d);
      assert Sub(c, N', 0, d) == Sub(c, N, 0, d) == a;
      assert Sub(c, N', pick, d) == Sub(c, N, pick, d) == Eval(c, N.children[pick], d + 1);
    }
  }

  // ------------------------------------------------------------ logical

  /** A logical node that returns, returns a boolean. */
  lemma LogicalYieldsBool(c: Ctx, N: Node, d: nat)
    requires N.kind.Logical?
    ensures Eval(c, N, d).res.Ok? ==> Eval(c, N, d).res.value.Bool?
  {
  }

  /** `a && b`: false without evaluating `b` when `a` is falsy, the
      truthiness of `b` when `a` is truthy, and `a`'s error, without
      evaluating `b`, when `a` throws. */
  lemma AndShortCircuits(c: Ctx, N: Node, d: nat, M: Node)
    requires N.kind.Logical? && Attr(N, "op") == Str("&&") && |N.children| >= 2
    ensures var a := Eval(c, N.children[0], d + 1);
      var b := Eval(c, N.children[1], d + 1);
      && (a.res.Ok? && !c.host.truthy(a.res.value) ==>
            Eval(c, N, d) == Outcome(Ok(Bool(false)), Begin(c, N, d) + a.lines + End(c, N, d, Bool(false)))
            && Eval(c, WithChild(N, 1, M), d) == Eval(c, N, d))
      && (a.res.Ok? && c.host.truthy(a.res.value) ==>
            Eval(c, N, d).res == (if b.res.Ok? then Ok(Bool(c.host.truthy(b.res.value))) else b.res))
      && (a.res.Throw? ==>
            Eval(c, N, d) == Outcome(a.res, Begin(c, N, d) + a.lines)
            && Eval(c, WithChild(N, 1, M), d) == Eval(c, N, d))
  {
    var N' := WithChild(N, 1, M);
    assert Eval(c, N, d) == EvalLogical(c, N, d);
    assert Eval(c, N', d) == EvalLogical(c, N', d);
    assert Sub(c, N', 0, d) == Sub(c, N, 0, d) == Eval(c, N.children[0], d + 1);
    assert Sub(c, N, 1, d) == Eval(c, N.children[1], d + 1);
  }

  /** `a || b`: true without evaluating `b` when `a` is truthy, the
      truthiness of `b` when `a` is falsy, and `a`'s error, without
      evaluating `b`, when `a` throws. */
  lemma OrShortCircuits(c: Ctx, N: Node, d: nat, M: Node)
    requires N.kind.Logical? && Attr(N, "op") == Str("||") && |N.children| >= 2
    ensures var a := Eval(c, N.children[0], d + 1);
      var b := Eval(c, N.children[1], d + 1);
      && (a.res.Ok? && c.host.truthy(a.res.value) ==>
            Eval(c, N, d) == Outcome(Ok(Bool(true)), Begin(c, N, d) + a.lines + End(c, N, d, Bool(true)))
            && Eval(c, WithChild(N, 1, M), d) == Eval(c, N, d))
      && (a.res.Ok? && !c.host.truthy(a.res.value) ==>
            Eval(c, N, d).res == (if b.res.Ok? then Ok(Bool(c.host.truthy(b.res.value))) else b.res))
      && (a.res.Throw? ==>
            Eval(c, N, d) == Outcome(a.res, Begin(c, N, d) + a.lines)
            && Eval(c, WithChild(N, 1, M), d) == Eval(c, N, d))
  {
    var N' := WithChild(N, 1, M);
    assert Eval(c, N, d) == EvalLogical(c, N, d);
    assert Eval(c, N', d) == EvalLogical(c, N', d);
    assert Sub(c, N', 0, d) == Sub(c, N, 0, d) == Eval(c, N.children[0], d + 1);
    assert Sub(c, N, 1, d) == Eval(c, N.children[1], d + 1);
  }

  /** Any other logical operator yields `false` and evaluates no child. */
  lemma LogicalUnknownOp(c: Ctx, N: Node, d: nat, j: nat, M: Node)
    requires N.kind.Logical? && Attr(N, "op") != Str("&&") && Attr(N, "op") != Str("||")
    requires j < |N.children|
    ensures Eval(c, N, d) == Outcome(Ok(Bool(false)), Begin(c, N, d) + End(c, N, d, Bool(false)))
    ensures Eval(c, WithChild(N, j, M), d) == Eval(c, N, d)
  {
  }

  // ------------------------------------------------------------ operators

  /** `==` is strict identity of the two operand values, and `!=` on the same
      operands is its negation. */
  lemma NotEqualNegatesEqual(c: Ctx, N: Node, d: nat)
    requires N.kind.Relational? && |N.children| >= 2
    ensures var a := Eval(c, N.children[0], d + 1);
      var b := Eval(c, N.children[1], d + 1);
      && (a.res.Ok? && b.res.Ok? ==>
            && Eval(c, WithOp(N, "=="), d).res == Ok(Bool(StrictEq(a.res.value, b.res.value)))
            && Eval(c, WithOp(N, "!="), d).res == Ok(Bool(!StrictEq(a.res.value, b.res.value))))
      && (a.res.Throw? || b.res.Throw? ==> Eval(c, WithOp(N, "!="), d).res == Eval(c, WithOp(N, "=="), d).res)
  {
    assert Eval(c, WithOp(N, "=="), d) == EvalBinary(c, WithOp(N, "=="), d, RelationalOp);
    assert Sub(c, WithOp(N, "=="), 0, d) == Eval(c, N.children[0], d + 1);
    assert Sub(c, WithOp(N, "=="), 1, d) == Eval(c, N.children[1], d + 1);
    assert Eval(c, WithOp(N, "!="), d) == EvalBinary(c, WithOp(N, "!="), d, RelationalOp);
    assert Sub(c, WithOp(N, "!="), 0, d) == Eval(c, N.children[0], d + 1);
    assert Sub(c, WithOp(N, "!="), 1, d) == Eval(c, N.children[1], d + 1);
  }

  /** `!~` on the same operands is the negation of `=~`. */
  lemma NotMatchNegatesMatch(c: Ctx, N: Node, d: nat)
    requires N.kind.Relational? && |N.children| >= 2
    ensures var m := Eval(c, WithOp(N, "=~"), d).res;
      var n := Eval(c, WithOp(N, "!~"), d).res;
      && (m.Ok? <==> n.Ok?)
      && (m.Ok? ==> m.value.Bool? && n == Ok(Bool(!m.value.b)))
      && (m.Throw? ==> n == m)
  {
    assert Eval(c, WithOp(N, "=~"), d) == EvalBinary(c, WithOp(N, "=~"), d, RelationalOp);
    assert Sub(c, WithOp(N, "=~"), 0, d) == Eval(c, N.children[0], d + 1);
    assert Sub(c, WithOp(N, "=~"), 1, d) == Eval(c, N.children[1], d + 1);
    assert Eval(c, WithOp(N, "!~"), d) == EvalBinary(c, WithOp(N, "!~"), d, RelationalOp);
    assert Sub(c, WithOp(N, "!~"), 0, d) == Eval(c, N.children[0], d + 1);
    assert Sub(c, WithOp(N, "!~"), 1, d) == Eval(c, N.children[1], d + 1);
  }

  /** `+` with a string on the left concatenates the string form of the right
      operand. */
  lemma PlusConcatenatesStrings(c: Ctx, N: Node, d: nat)
    requires N.kind.Arithmetical? && Attr(N, "op") == Str("+") && |N.children| >= 2
    ensures var a := Eval(c, N.children[0], d + 1);
      var b := Eval(c, N.children[1], d + 1);
      a.res.Ok? && a.res.value.Str? && b.res.Ok? ==>
        Eval(c, N, d).res == Ok(Str(a.res.value.s + c.host.coerceString(b.res.value)))
  {
    assert Eval(c, N, d) == EvalBinary(c, N, d, ArithmeticalOp);
    assert Sub(c, N, 0, d) == Eval(c, N.children[0], d + 1);
    assert Sub(c, N, 1, d) == Eval(c, N.children[1], d + 1);
  }

  /** As written, `-` adds: with a left operand that is not a string it is
      indistinguishable from `+`, and it never concatenates. */
  lemma MinusIsPlus(c: Ctx, N: Node, d: nat)
    requires N.kind.Arithmetical? && |N.children| >= 2
    ensures var a := Eval(c, N.children[0], d + 1);
      !(a.res.Ok? && a.res.value.Str?) ==> Eval(c, WithOp(N, "-"), d).res == Eval(c, WithOp(N, "+"), d).res
    ensures var r := Eval(c, WithOp(N, "-"), d).res;
      r.Ok? ==> r.value.Num?
  {
    assert Eval(c, WithOp(N, "-"), d) == EvalBinary(c, WithOp(N, "-"), d, ArithmeticalOp);
    assert Sub(c, WithOp(N, "-"), 0, d) == Eval(c, N.children[0], d + 1);
    assert Sub(c, WithOp(N, "-"), 1, d) == Eval(c, N.children[1], d + 1);
    assert Eval(c, WithOp(N, "+"), d) == EvalBinary(c, WithOp(N, "+"), d, ArithmeticalOp);
    assert Sub(c, WithOp(N, "+"), 0, d) == Eval(c, N.children[0], d + 1);
    assert Sub(c, WithOp(N, "+"), 1, d) == Eval(c, N.children[1], d + 1);
  }

  /** The bitwise, relational and arithmetical nodes evaluate child 0 and then
      child 1, and apply the operator to both values; when child 0 throws,
      child 1 is never evaluated. */
  lemma BinaryEvaluatesBoth(c: Ctx, N: Node, d: nat, M: Node)
    requires N.kind.Bitwise? || N.kind.Relational? || N.kind.Arithmetical?
    requires |N.children| >= 2
    ensures var a := Eval(c, N.children[0], d + 1);
      var b := Eval(c, N.children[1], d + 1);
      var r := Eval(c, N, d);
      && (a.res.Throw? ==> r == Outcome(a.res, Begin(c, N, d) + a.lines) && Eval(c, WithChild(N, 1, M), d) == r)
      && (a.res.Ok? && b.res.Throw? ==> r == Outcome(b.res, Begin(c, N, d) + a.lines + b.lines))
      && (a.res.Ok? && b.res.Ok? ==>
            var op := Attr(N, "op");
            var v := if N.kind.Bitwise? then AelEval.Bitwise(c.host, op, a.res.value, b.res.value)
                     else if N.kind.Relational? then AelEval.Relational(c.host, op, a.res.value, b.res.value)
                     else AelEval.Arithmetical(c.host, op, a.res.value, b.res.value);
            r == Outcome(Ok(v), Begin(c, N, d) + a.lines + b.lines + End(c, N, d, v)))
  {
    var N' := WithChild(N, 1, M);
    var k := if N.kind.Bitwise? then BitwiseOp else if N.kind.Relational? then RelationalOp else ArithmeticalOp;
    assert Eval(c, N, d) == EvalBinary(c, N, d, k);
    assert Eval(c, N', d) == EvalBinary(c, N', d, k);
    assert Sub(c, N', 0, d) == Sub(c, N, 0, d) == Eval(c, N.children[0], d + 1);
    assert Sub(c, N, 1, d) == Eval(c, N.children[1], d + 1);
  }

  /** A bitwise node yields a number for `&`, `|`, `<<` and `>>`, and
      `undefined` for any other operator. */
  lemma BitwiseOperators(h: Host, op: Value, v1: Value, v2: Value)
    ensures var r := AelEval.Bitwise(h, op, v1, v2);
      && (op in {Str("&"), Str("|"), Str("<<"), Str(">>")} <==> r.Num?)
      && (!r.Num? ==> r == Undefined)
      && (op == Str("&") ==> r == Num(h.arith(BitAnd, h.coerceNumber(v1), h.coerceNumber(v2))))
  {
  }

  /** `!` yields the negated boolean coercion of the operand, `~` the
      complement of its numeric coercion, any other operator `undefined`; the
      operand is always evaluated first. */
  lemma UnaryOperators(c: Ctx, N: Node, d: nat)
    requires N.kind.Unary? && |N.children| >= 1
    ensures var a := Eval(c, N.children[0], d + 1);
      && (a.res.Throw? ==> Eval(c, N, d) == Outcome(a.res, Begin(c, N, d) + a.lines))
      && (a.res.Ok? ==>
            && Eval(c, WithOp(N, "!"), d).res == Ok(Bool(!c.host.coerceBoolean(a.res.value)))
            && Eval(c, WithOp(N, "~"), d).res == Ok(Num(c.host.bitNot(c.host.coerceNumber(a.res.value))))
            && (Attr(N, "op") != Str("!") && Attr(N, "op") != Str("~") ==> Eval(c, N, d).res == Ok(Undefined)))
  {
    assert Eval(c, N, d) == EvalUnary(c, N, d);
    assert Sub(c, N, 0, d) == Eval(c, N.children[0], d + 1);
    assert Eval(c, WithOp(N, "!"), d) == EvalUnary(c, WithOp(N, "!"), d);
    assert Sub(c, WithOp(N, "!"), 0, d) == Eval(c, N.children[0], d + 1);
    assert Eval(c, WithOp(N, "~"), d) == EvalUnary(c, WithOp(N, "~"), d);
    assert Sub(c, WithOp(N, "~"), 0, d) == Eval(c, N.children[0], d + 1);
  }

  // ------------------------------------------------------------ selection

  /** At an optional step whose base is `null` or `undefined` the walk stops
      with `undefined`, keeps the last parent, emits nothing more, and no
      later step is looked at. */
  lemma OptionalStepStops(c: Ctx, N: Node, i: nat, d: nat, parent: Value, result: Value, j: nat, M: Node)
    requires i < j < |N.children|
    requires result.Nullish() && Optional(N.children[i])
    ensures SelectSteps(c, N, i, d, parent, result) == Outcome(Ok((parent, Undefined)), [])
    ensures SelectSteps(c, WithChild(N, j, M), i, d, parent, result) == SelectSteps(c, N, i, d, parent, result)
  {
    assert WithChild(N, j, M).children[i] == N.children[i];
  }

  /** `a?.b...` on a missing `a`: the whole chain is `undefined` and no later
      step is evaluated. */
  lemma OptionalBaseStops(c: Ctx, N: Node, d: nat, j: nat, M: Node)
    requires N.kind.Select? && 2 <= j < |N.children|
    requires var a := Eval(c, N.children[0], d + 1);
      a.res.Ok? && a.res.value.Nullish() && Optional(N.children[1])
    ensures var a := Eval(c, N.children[0], d + 1);
      Eval(c, N, d) == Outcome(Ok(Undefined), Begin(c, N, d) + a.lines + End(c, N, d, Undefined))
    ensures Eval(c, WithChild(N, j, M), d) == Eval(c, N, d)
  {
    var N' := WithChild(N, j, M);
    var a := Eval(c, N.children[0], d + 1);
    assert Sub(c, N', 0, d) == Sub(c, N, 0, d) == a;
    OptionalStepStops(c, N, 1, d, Undefined, a.res.value, j, M);
    assert a.lines + [] == a.lines;
  }

  /** A step whose base is not an object (`null`, a primitive, a function),
      and that does not stop optionally, raises the "evalSelect" error at the
      step's own position. */
  lemma NonObjectStepFails(c: Ctx, N: Node, i: nat, d: nat, parent: Value, result: Value)
    requires i < |N.children|
    requires !result.IsObject() && !(result.Nullish() && Optional(N.children[i]))
    ensures SelectSteps(c, N, i, d, parent, result)
              == Outcome(Throw(ErrorAt(c, N.children[i], "evalSelect", NotAnObject)), [])
    ensures SelectSteps(c, N, i, d, parent, result).res.thrown.params["line"] == Num(N.children[i].pos.line)
  {
  }

  /** The receiver-and-value pair after indexing: `p` is an object and `r` is
      one of its properties, or `undefined` when that property was missing and
      a later optional step stopped the walk. */
  ghost predicate IndexedPair(h: Host, p: Value, r: Value) {
    p.IsObject() && exists k :: r == Property(h, p, k) || (r == Undefined && Property(h, p, k).Nullish())
  }

  /** The first component of the pair is the last container that was
      indexed: either no step indexed anything (the parent is unchanged, and
      the result too unless an optional step stopped on it), or the pair is a
      container and what was read from it. */
  lemma {:induction false} StepsParentIsLastContainer(c: Ctx, N: Node, i: nat, d: nat, parent: Value, result: Value)
    requires parent == Undefined || IndexedPair(c.host, parent, result)
    ensures var o := SelectSteps(c, N, i, d, parent, result);
      o.res.Ok? ==>
        || (o.res.value.0 == parent && (o.res.value.1 == result || (o.res.value.1 == Undefined && result.Nullish())))
        || IndexedPair(c.host, o.res.value.0, o.res.value.1)
    decreases |N.children| - i
  {
    if i < |N.children| {
      var step := N.children[i];
      if result.Nullish() && Optional(step) {
      } else if result.IsObject() {
        var selector := Sub(c, step, 0, d + 1);
        if selector.res.Ok? {
          var key := c.host.coerceString(selector.res.value);
          var next := Property(c.host, result, key);
          assert IndexedPair(c.host, result, next);
          StepsParentIsLastContainer(c, N, i + 1, d, result, next);
        }
      }
    }
  }

  /** `evalSelect(N, true)` returns `(undefined, r)` when no step indexed a
      container (`r` the base value, or `undefined` after an optional stop),
      and otherwise the last container indexed together with what was read
      from it. */
  lemma SelectParentIsLastContainer(c: Ctx, N: Node, d: nat)
    requires N.kind.Select? && |N.children| >= 1
    ensures var o := EvalSelect(c, N, d);
      var a := Eval(c, N.children[0], d + 1);
      o.res.Ok? ==>
        || (a.res.Ok? && o.res.value.0 == Undefined && (o.res.value.1 == a.res.value || o.res.value.1 == Undefined))
        || IndexedPair(c.host, o.res.value.0, o.res.value.1)
  {
    var a := Sub(c, N, 0, d);
    if a.res.Ok? {
      StepsParentIsLastContainer(c, N, 1, d, Undefined, a.res.value);
    }
  }

  /** The selection `N` without its last step. */
  function DropLastStep(N: Node): (P: Node)
    requires |N.children| >= 1
    ensures P.kind == N.kind && P.children == N.children[..|N.children| - 1]
  {
    N.(children := N.children[..|N.children| - 1])
  }

  /** Walking the steps of `N` from `i` on agrees with walking those of
      `DropLastStep(N)` and then taking the last step, as long as the shorter
      walk ends on an object. */
  lemma {:induction false} StepsPrefix(c: Ctx, N: Node, i: nat, d: nat, parent: Value, result: Value)
    requires i <= |N.children| - 1
    ensures var w := SelectSteps(c, DropLastStep(N), i, d, parent, result);
      w.res.Ok? && w.res.value.1.IsObject() ==>
        SelectSteps(c, N, i, d, parent, result).res
          == SelectSteps(c, N, |N.children| - 1, d, w.res.value.0, w.res.value.1).res
    decreases |N.children| - i
  {
    var P := DropLastStep(N);
    if i < |N.children| - 1 {
      var step := N.children[i];
      assert P.children[i] == step;
      if !(result.Nullish() && Optional(step)) && result.IsObject() {
        var selector := Sub(c, step, 0, d + 1);
        if selector.res.Ok? {
          var next := Property(c.host, result, c.host.coerceString(selector.res.value));
          assert SelectSteps(c, P, i, d, parent, result).res == SelectSteps(c, P, i + 1, d, result, next).res;
          assert SelectSteps(c, N, i, d, parent, result).res == SelectSteps(c, N, i + 1, d, result, next).res;
          StepsPrefix(c, N, i + 1, d, result, next);
        }
      }
    }
  }

  /** The pair `evalSelect(N, true)` returns is the last container indexed
      and what was read from it: when the selection without its last step
      ends on an object `p` and the last key `k` evaluates, the pair is `p`
      and `p`'s property under the string form of `k`. */
  lemma SelectLastStep(c: Ctx, N: Node, d: nat)
    requires N.kind.Select? && |N.children| >= 2
    requires var w := EvalSelect(c, DropLastStep(N), d); w.res.Ok? && w.res.value.1.IsObject()
    requires Sub(c, N.children[|N.children| - 1], 0, d + 1).res.Ok?
    ensures var p := EvalSelect(c, DropLastStep(N), d).res.value.1;
      var k := Sub(c, N.children[|N.children| - 1], 0, d + 1).res.value;
      EvalSelect(c, N, d).res == Ok((p, Property(c.host, p, c.host.coerceString(k))))
  {
    var P := DropLastStep(N);
    var base := Sub(c, N, 0, d);
    assert Sub(c, P, 0, d) == base;
    var w := SelectSteps(c, P, 1, d, Undefined, base.res.value);
    StepsPrefix(c, N, 1, d, Undefined, base.res.value);
  }

  /** Indexing an array by the decimal rendering of `i` reads element `i`,
      and `undefined` past the end. */
  lemma ArrayIndexProperty(h: Host, r: nat, e: seq<Value>, i: nat)
    ensures i < |e| ==> Property(h, Array(r, e), NatToDecimal(i)) == e[i]
    ensures i >= |e| ==> Property(h, Array(r, e), NatToDecimal(i)) == Undefined
  {
    DecimalRoundTrip(i);
    var key := NatToDecimal(i);
    assert key != "length" by {
      assert IsDigit(key[0]);
    }
  }

  /** `a[k]` with one step: the pair is the base object and its property under
      the string form of the key, and `Eval` returns that property. */
  lemma SelectSingleStep(c: Ctx, N: Node, d: nat)
    requires N.kind.Select? && |N.children| == 2
    requires var a := Eval(c, N.children[0], d + 1);
      var k := Sub(c, N.children[1], 0, d + 1);
      a.res.Ok? && a.res.value.IsObject() && k.res.Ok?
    ensures var a := Eval(c, N.children[0], d + 1);
      var k := Sub(c, N.children[1], 0, d + 1);
      var v := Property(c.host, a.res.value, c.host.coerceString(k.res.value));
      && EvalSelect(c, N, d).res == Ok((a.res.value, v))
      && Eval(c, N, d).res == Ok(v)
  {
    var a := Eval(c, N.children[0], d + 1);
    var k := Sub(c, N.children[1], 0, d + 1);
    var v := Property(c.host, a.res.value, c.host.coerceString(k.res.value));
    assert SelectSteps(c, N, 2, d, a.res.value, v) == Outcome(Ok((a.res.value, v)), []);
    assert SelectSteps(c, N, 1, d, Undefined, a.res.value).res == Ok((a.res.value, v));
  }

  // ------------------------------------------------------------ function calls

  /** The callee of a call is the value of child 0: through `evalSelect` with
      its parent as receiver when child 0 is a selection, else with an
      `undefined` receiver. */
  lemma CalleeIsChildZero(c: Ctx, N: Node, d: nat)
    requires |N.children| >= 1
    ensures var f := Eval(c, N.children[0], d + 1);
      var o := Callee(c, N, d);
      && o.lines == f.lines
      && (o.res.Ok? <==> f.res.Ok?)
      && (o.res.Ok? ==> o.res.value.1 == f.res.value)
      && (o.res.Throw? ==> o.res.thrown == f.res.thrown)
      && (o.res.Ok? ==>
            o.res.value.0 == if N.children[0].kind.Select? then EvalSelect(c, N.children[0], d + 1).res.value.0 else Undefined)
  {
  }

  /** The lines of children `i` up to `k` (exclusive), left to right. */
  function ChildLines(c: Ctx, N: Node, i: nat, k: nat, d: nat): seq<string>
    requires i <= k <= |N.children|
    decreases k - i
  {
    if i == k then [] else Eval(c, N.children[i], d + 1).lines + ChildLines(c, N, i + 1, k, d)
  }

  /** The arguments are the values of the children from `i` on, evaluated
      left to right; the first child that throws ends the evaluation with its
      error, and no later child is evaluated. */
  lemma {:induction false} ArgsInOrder(c: Ctx, N: Node, i: nat, d: nat)
    requires i <= |N.children|
    ensures var o := EvalArgs(c, N, i, d);
      && (o.res.Ok? <==> forall j :: i <= j < |N.children| ==> Eval(c, N.children[j], d + 1).res.Ok?)
      && (o.res.Ok? ==>
            && |o.res.value| == |N.children| - i
            && (forall j :: i <= j < |N.children| ==> o.res.value[j - i] == Eval(c, N.children[j], d + 1).res.value)
            && o.lines == ChildLines(c, N, i, |N.children|, d))
      && (o.res.Throw? ==> exists k :: i <= k < |N.children| && FirstThrow(c, N, i, k, d, o))
    decreases |N.children| - i
  {
    if i < |N.children| {
      var a := Eval(c, N.children[i], d + 1);
      var o := EvalArgs(c, N, i, d);
      if a.res.Throw? {
        assert FirstThrow(c, N, i, i, d, o);
      } else {
        ArgsInOrder(c, N, i + 1, d);
        var rest := EvalArgs(c, N, i + 1, d);
        if rest.res.Ok? {
          forall j | i <= j < |N.children|
            ensures o.res.value[j - i] == Eval(c, N.children[j], d + 1).res.value
          {
            if j > i {
              assert o.res.value[j - i] == rest.res.value[j - (i + 1)];
            }
          }
        } else {
          var k :| i + 1 <= k < |N.children| && FirstThrow(c, N, i + 1, k, d, rest);
          assert FirstThrow(c, N, i, k, d, o);
        }
      }
    }
  }

  /** Child `k` is the first from `i` on that throws, `o` carries its error,
      and `o` emitted the lines of children `i` through `k`. */
  predicate FirstThrow<T>(c: Ctx, N: Node, i: nat, k: nat, d: nat, o: Outcome<T>)
    requires i <= k < |N.children|
  {
    && Eval(c, N.children[k], d + 1).res.Throw?
    && (forall j :: i <= j < k ==> Eval(c, N.children[j], d + 1).res.Ok?)
    && o.res == Throw(Eval(c, N.children[k], d + 1).res.thrown)
    && o.lines == ChildLines(c, N, i, k + 1, d)
  }

  /** An optional call whose function value is `null` or `undefined` yields
      `undefined` and evaluates no argument. */
  lemma OptionalCallSkipsArguments(c: Ctx, N: Node, d: nat, j: nat, M: Node)
    requires N.kind.FuncCall? && 1 <= j < |N.children| && Optional(N)
    requires var f := Eval(c, N.children[0], d + 1); f.res.Ok? && f.res.value.Nullish()
    ensures var f := Eval(c, N.children[0], d + 1);
      Eval(c, N, d) == Outcome(Ok(Undefined), Begin(c, N, d) + f.lines + End(c, N, d, Undefined))
    ensures Eval(c, WithChild(N, j, M), d) == Eval(c, N, d)
  {
    var N' := WithChild(N, j, M);
    CalleeIsChildZero(c, N, d);
    assert N'.children[0] == N.children[0];
    assert Callee(c, N', d) == Callee(c, N, d);
    var f := Callee(c, N, d);
    assert Eval(c, N, d) == EvalFuncCall(c, N, d) == CallWith(c, N, d, Begin(c, N, d) + f.lines, f.res.value.0, f.res.value.1);
    assert Eval(c, N', d) == EvalFuncCall(c, N', d) == CallWith(c, N', d, Begin(c, N', d) + f.lines, f.res.value.0, f.res.value.1);
  }

  /** A callee value that is not a function, unless the call is optional and
      the value missing, raises the "evalFuncCall" error at child 0. */
  lemma NotCallableFails(c: Ctx, N: Node, d: nat)
    requires N.kind.FuncCall? && |N.children| >= 1
    requires var f := Eval(c, N.children[0], d + 1);
      f.res.Ok? && !f.res.value.Fn? && !(f.res.value.Nullish() && Optional(N))
    ensures Eval(c, N, d).res == Throw(ErrorAt(c, N.children[0], "evalFuncCall", NotAFunction))
    ensures Eval(c, N, d).res.thrown.params["origin"] == Str("evalFuncCall")
  {
    CalleeIsChildZero(c, N, d);
    var f := Callee(c, N, d);
    assert Eval(c, N, d) == EvalFuncCall(c, N, d) == CallWith(c, N, d, Begin(c, N, d) + f.lines, f.res.value.0, f.res.value.1);
  }

  /** A call applies the function to the values of all children in order
      (as written, `N.childs()` includes child 0, so the first argument is the
      function value itself), with the selection's parent as receiver. */
  lemma CallPassesArguments(c: Ctx, N: Node, d: nat)
    requires N.kind.FuncCall? && |N.children| >= 1
    requires Eval(c, N.children[0], d + 1).res.Ok? && Eval(c, N.children[0], d + 1).res.value.Fn?
    requires forall i :: 0 <= i < |N.children| ==> Eval(c, N.children[i], d + 1).res.Ok?
    ensures var S := N.children[0];
      var receiver := if S.kind.Select? then EvalSelect(c, S, d + 1).res.value.0 else Undefined;
      var args := seq(|N.children|, i requires 0 <= i < |N.children| => Eval(c, N.children[i], d + 1).res.value);
      && args[0] == Eval(c, S, d + 1).res.value
      && Eval(c, N, d).res == c.host.apply(receiver, Eval(c, S, d + 1).res.value, args)
  {
    CalleeIsChildZero(c, N, d);
    ArgsInOrder(c, N, 0, d);
    var args := seq(|N.children|, i requires 0 <= i < |N.children| => Eval(c, N.children[i], d + 1).res.value);
    assert EvalArgs(c, N, 0, d).res.value == args;
    var f := Callee(c, N, d);
    assert Eval(c, N, d) == EvalFuncCall(c, N, d) == CallWith(c, N, d, Begin(c, N, d) + f.lines, f.res.value.0, f.res.value.1);
  }

  // ------------------------------------------------------------ errors

  /** An evaluator error renders a source report exactly when the expression
      text is not empty and the node has a nonzero line and column. */
  lemma EvalErrorReport(c: Ctx, N: Node, origin: string, message: string)
    ensures var p := WithDefaults(ErrorAt(c, N, origin, message).params);
      HasReport(p) <==> c.expr != "" && N.pos.line != 0 && N.pos.column != 0
  {
    var p := ErrorAt(c, N, origin, message).params;
    ReportNeedsCallerPosition(p);
    assert Param(p, "code") == Str(c.expr);
    assert Param(p, "line") == Num(N.pos.line);
    assert Param(p, "column") == Num(N.pos.column);
  }

  // ------------------------------------------------------------ tracing

  /** Child `i` of `N` gives the same result with the sink set to `t` and at
      depth `d'`, and emits nothing when there is no sink. */
  predicate ChildObserves(c: Ctx, t: bool, N: Node, i: nat, d: nat, d': nat) {
    && Sub(c, N, i, d).res == Sub(c.(tracing := t), N, i, d').res
    && (!c.tracing ==> Sub(c, N, i, d).lines == [])
  }

  /** Tracing only observes: the result of an evaluation does not depend on
      whether a sink is installed (`t`) nor on the depth of the node, and
      without a sink no line is emitted. */
  lemma {:induction false} TracingOnlyObserves(c: Ctx, t: bool, N: Node, d: nat, d': nat)
    ensures Eval(c, N, d).res == Eval(c.(tracing := t), N, d').res
    ensures !c.tracing ==> Eval(c, N, d).lines == []
    decreases N, 3
  {
    forall i: nat
      ensures ChildObserves(c, t, N, i, d, d')
    {
      if i < |N.children| {
        TracingOnlyObserves(c, t, N.children[i], d + 1, d' + 1);
      }
    }
    var c' := c.(tracing := t);
    if N.kind.Select? {
      SelectOnlyObserves(c, t, N, d, d');
    } else if N.kind.FuncCall? {
      CallOnlyObserves(c, t, N, d, d');
      assert Eval(c, N, d) == EvalFuncCall(c, N, d);
      assert Eval(c', N, d') == EvalFuncCall(c', N, d');
    } else {
      KindOnlyObserves(c, t, N, d, d');
    }
  }

  /** `TracingOnlyObserves` for the kinds other than selections and calls,
      given it for the first three children. */
  lemma KindOnlyObserves(c: Ctx, t: bool, N: Node, d: nat, d': nat)
    requires !N.kind.Select? && !N.kind.FuncCall?
    requires ChildObserves(c, t, N, 0, d, d') && ChildObserves(c, t, N, 1, d, d') && ChildObserves(c, t, N, 2, d, d')
    ensures Eval(c, N, d).res == Eval(c.(tracing := t), N, d').res
    ensures !c.tracing ==> Eval(c, N, d).lines == []
  {
    var c' := c.(tracing := t);
    if N.kind.ConditionalBinary? {
      ConditionalOnlyObserves(c, t, N, d, d');
      assert Eval(c, N, d) == EvalConditionalBinary(c, N, d);
      assert Eval(c', N, d') == EvalConditionalBinary(c', N, d');
    } else if N.kind.ConditionalTernary? {
      ConditionalOnlyObserves(c, t, N, d, d');
      assert Eval(c, N, d) == EvalConditionalTernary(c, N, d);
      assert Eval(c', N, d') == EvalConditionalTernary(c', N, d');
    } else if N.kind.Logical? {
      LogicalOnlyObserves(c, t, N, d, d');
      assert Eval(c, N, d) == EvalLogical(c, N, d);
      assert Eval(c', N, d') == EvalLogical(c', N, d');
    } else if N.kind.Unary? {
      UnaryOnlyObserves(c, t, N, d, d');
      assert Eval(c, N, d) == EvalUnary(c, N, d);
      assert Eval(c', N, d') == EvalUnary(c', N, d');
    } else if N.kind.Bitwise? || N.kind.Relational? || N.kind.Arithmetical? {
      var k := if N.kind.Bitwise? then BitwiseOp else if N.kind.Relational? then RelationalOp else ArithmeticalOp;
      BinaryOnlyObserves(c, t, N, d, d', k);
      assert Eval(c, N, d) == EvalBinary(c, N, d, k);
      assert Eval(c', N, d') == EvalBinary(c', N, d', k);
    }
  }

  /** `TracingOnlyObserves` for the two conditionals, given it for their children. */
  lemma ConditionalOnlyObserves(c: Ctx, t: bool, N: Node, d: nat, d': nat)
    requires ChildObserves(c, t, N, 0, d, d') && ChildObserves(c, t, N, 1, d, d') && ChildObserves(c, t, N, 2, d, d')
    ensures EvalConditionalBinary(c, N, d).res == EvalConditionalBinary(c.(tracing := t), N, d').res
    ensures !c.tracing ==> EvalConditionalBinary(c, N, d).lines == []
    ensures EvalConditionalTernary(c, N, d).res == EvalConditionalTernary(c.(tracing := t), N, d').res
    ensures !c.tracing ==> EvalConditionalTernary(c, N, d).lines == []
  {
    var a := Sub(c, N, 0, d);
    if a.res.Ok? {
      var pick := if c.host.truthy(a.res.value) then 1 else 2;
      assert ChildObserves(c, t, N, pick, d, d');
    }
  }

  /** `TracingOnlyObserves` for the logical operators, given it for the operands. */
  lemma LogicalOnlyObserves(c: Ctx, t: bool, N: Node, d: nat, d': nat)
    requires ChildObserves(c, t, N, 0, d, d') && ChildObserves(c, t, N, 1, d, d')
    ensures EvalLogical(c, N, d).res == EvalLogical(c.(tracing := t), N, d').res
    ensures !c.tracing ==> EvalLogical(c, N, d).lines == []
  {
  }

  /** `TracingOnlyObserves` for the unary operators, given it for the operand. */
  lemma UnaryOnlyObserves(c: Ctx, t: bool, N: Node, d: nat, d': nat)
    requires ChildObserves(c, t, N, 0, d, d')
    ensures EvalUnary(c, N, d).res == EvalUnary(c.(tracing := t), N, d').res
    ensures !c.tracing ==> EvalUnary(c, N, d).lines == []
  {
  }

  /** `TracingOnlyObserves` for the binary operators, given it for the operands. */
  lemma BinaryOnlyObserves(c: Ctx, t: bool, N: Node, d: nat, d': nat, k: BinaryKind)
    requires ChildObserves(c, t, N, 0, d, d') && ChildObserves(c, t, N, 1, d, d')
    ensures EvalBinary(c, N, d, k).res == EvalBinary(c.(tracing := t), N, d', k).res
    ensures !c.tracing ==> EvalBinary(c, N, d, k).lines == []
  {
  }

  lemma {:induction false} SelectOnlyObserves(c: Ctx, t: bool, N: Node, d: nat, d': nat)
    ensures EvalSelect(c, N, d).res == EvalSelect(c.(tracing := t), N, d').res
    ensures !c.tracing ==> EvalSelect(c, N, d).lines == []
    decreases N, 2
  {
    if |N.children| > 0 {
      TracingOnlyObserves(c, t, N.children[0], d + 1, d' + 1);
      var a := Sub(c, N, 0, d);
      if a.res.Ok? {
        StepsOnlyObserve(c, t, N, 1, d, d', Undefined, a.res.value);
      }
    }
  }

  lemma {:induction false} StepsOnlyObserve(c: Ctx, t: bool, N: Node, i: nat, d: nat, d': nat, parent: Value, result: Value)
    ensures SelectSteps(c, N, i, d, parent, result).res == SelectSteps(c.(tracing := t), N, i, d', parent, result).res
    ensures !c.tracing ==> SelectSteps(c, N, i, d, parent, result).lines == []
    decreases N, 1, |N.children| - i
  {
    if i < |N.children| {
      var step := N.children[i];
      if |step.children| > 0 {
        TracingOnlyObserves(c, t, step.children[0], d + 2, d' + 2);
      }
      assert ChildObserves(c, t, step, 0, d + 1, d' + 1);
      var sel := Sub(c, step, 0, d + 1);
      if sel.res.Ok? && result.IsObject() && !(result.Nullish() && Optional(step)) {
        var next := Property(c.host, result, c.host.coerceString(sel.res.value));
        StepsOnlyObserve(c, t, N, i + 1, d, d', result, next);
      }
      StepOnlyObserves(c, t, N, i, d, d', parent, result);
    }
  }

  /** One step of `StepsOnlyObserve`, given it for the step's key and for the
      rest of the walk. */
  lemma StepOnlyObserves(c: Ctx, t: bool, N: Node, i: nat, d: nat, d': nat, parent: Value, result: Value)
    requires i < |N.children|
    requires ChildObserves(c, t, N.children[i], 0, d + 1, d' + 1)
    requires var sel := Sub(c, N.children[i], 0, d + 1);
      sel.res.Ok? && result.IsObject() ==>
        var next := Property(c.host, result, c.host.coerceString(sel.res.value));
        && SelectSteps(c, N, i + 1, d, result, next).res == SelectSteps(c.(tracing := t), N, i + 1, d', result, next).res
        && (!c.tracing ==> SelectSteps(c, N, i + 1, d, result, next).lines == [])
    ensures SelectSteps(c, N, i, d, parent, result).res == SelectSteps(c.(tracing := t), N, i, d', parent, result).res
    ensures !c.tracing ==> SelectSteps(c, N, i, d, parent, result).lines == []
  {
  }

  lemma {:induction false} ArgsOnlyObserve(c: Ctx, t: bool, N: Node, i: nat, d: nat, d': nat)
    ensures EvalArgs(c, N, i, d).res == EvalArgs(c.(tracing := t), N, i, d').res
    ensures !c.tracing ==> EvalArgs(c, N, i, d).lines == []
    decreases N, 1, |N.children| - i
  {
    if i < |N.children| {
      TracingOnlyObserves(c, t, N.children[i], d + 1, d' + 1);
      ArgsOnlyObserve(c, t, N, i + 1, d, d');
    }
  }

  lemma {:induction false} CallOnlyObserves(c: Ctx, t: bool, N: Node, d: nat, d': nat)
    ensures EvalFuncCall(c, N, d).res == EvalFuncCall(c.(tracing := t), N, d').res
    ensures !c.tracing ==> EvalFuncCall(c, N, d).lines == []
    decreases N, 2
  {
    if |N.children| > 0 {
      var S := N.children[0];
      TracingOnlyObserves(c, t, S, d + 1, d' + 1);
      if S.kind.Select? {
        SelectOnlyObserves(c, t, S, d + 1, d' + 1);
      }
      ArgsOnlyObserve(c, t, N, 0, d, d');
      CallStepsObserve(c, t, N, d, d');
    }
  }

  /** `CallOnlyObserves` once it holds for the callee and the arguments. */
  lemma CallStepsObserve(c: Ctx, t: bool, N: Node, d: nat, d': nat)
    requires |N.children| > 0
    requires var S := N.children[0];
      && Eval(c, S, d + 1).res == Eval(c.(tracing := t), S, d' + 1).res
      && (!c.tracing ==> Eval(c, S, d + 1).lines == [])
      && (S.kind.Select? ==>
            && EvalSelect(c, S, d + 1).res == EvalSelect(c.(tracing := t), S, d' + 1).res
            && (!c.tracing ==> EvalSelect(c, S, d + 1).lines == []))
    requires EvalArgs(c, N, 0, d).res == EvalArgs(c.(tracing := t), N, 0, d').res
    requires !c.tracing ==> EvalArgs(c, N, 0, d).lines == []
    ensures EvalFuncCall(c, N, d).res == EvalFuncCall(c.(tracing := t), N, d').res
    ensures !c.tracing ==> EvalFuncCall(c, N, d).lines == []
  {
    var c' := c.(tracing := t);
    var f, f' := Callee(c, N, d), Callee(c', N, d');
    assert f.res == f'.res && (!c.tracing ==> f.lines == []);
    if f.res.Ok? {
      assert EvalFuncCall(c, N, d) == CallWith(c, N, d, Begin(c, N, d) + f.lines, f.res.value.0, f.res.value.1);
      assert EvalFuncCall(c', N, d') == CallWith(c', N, d', Begin(c', N, d') + f'.lines, f.res.value.0, f.res.value.1);
    }
  }
}
