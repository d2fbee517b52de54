# AEL — Advanced Expression Language, modelled in Dafny

AEL evaluates small expressions over variables. An expression is compiled
into an abstract syntax tree. The API class `AEL` caches compiled
expressions and runs them with a registry of callable functions.

This model covers:

- the tree evaluator `AELEval`;
- its tracing of every node's begin and end;
- the structured error `AELError`;
- the standard function table;
- the API class with its cache and argument-count guards.

Modules:

- `AelValues` (values.dfy): the runtime values.
  - Numbers are integer-valued.
  - Arrays, objects, regular expressions and functions carry a reference identity. Strict identity `===` compares that identity.
  - A thrown error is a `Thrown`; an operation returns a `Result`.
  - `Host` is a record of operations the evaluator uses but which are defined elsewhere: `util.truthy`, `util.coerce`, `util.pad`, numeric operators, regular-expression matching, `fn.apply` and `JSON.stringify`.
  - The module also holds the decimal rendering of numbers, with the exponent form `String(n)` uses from 10^21 on, and the canonical array index keys.
- `AelAst` (ast.dfy): tree nodes with a kind, attributes, children and a source position.
  - The fifteen node kinds the evaluator knows are enumerated.
  - Any other type name is `Other`.
  - `Ancestry` is a node's chain of parents, whose length is the node's depth.
  - `WithChild` (one child replaced) is a proof helper for the "never evaluated" lemmas.
- `AelTracing` (trace.dfy): `prefixOf`, `traceBegin` and `traceEnd`.
  - The trace sink is modelled by the lines it receives.
- `AelErrors` (error.dfy): the `AELError` class, its parameter defaults, when a report is rendered, and `toString`.
- `AelEval` (eval.dfy): `eval` and every `evalXxx` method, as functions over a context `Ctx`.
  - `Ctx` holds the host operations, the expression text, the variables and whether a sink is installed.
  - Each evaluation yields an `Outcome`: the result or the thrown error, together with the trace lines emitted.
  - Lines emitted before a throw are kept.
  - `Eval(c, N, d)` evaluates a node at depth `d`.
  - The two loops of the source are also written as methods and proved equal to these functions: the step loop of `evalSelect` and the argument loop of `evalFuncCall`.
- `AelEvalFacts` (eval_facts.dfy): what the evaluator promises, stated as lemmas over `Eval`.
  - They cover which children are evaluated and in what order, the error cases, the short-circuits, and that tracing only observes.
  - "Child `j` is never evaluated" is stated as follows: replacing child `j` with any other node leaves the outcome unchanged, trace lines included.
  - `WithOp` (the `op` attribute set) and `DropLastStep` (a selection without its last step) are proof helpers.
- `AelStdFuncs` (funcs_std.dfy): the standard functions `count`, `in`, `substr`, `index`, `trim`, `lc` and `uc`.
- `AelApi` (ael.dfy): the `AEL` class and its collaborators.
  - Its members are the constructor, `func`, `cache`, `compile`, `execute` and `evaluate`.
  - The collaborators are an expression object `AELExpr` and an LRU cache.
  - JavaScript's `arguments.length` is an explicit `argc`. A parameter at a position at or beyond `argc` reads as `undefined`.

The per-node functions of `AelEval` carry no contracts of their own:
`Eval`, `EvalConditionalBinary`, `EvalConditionalTernary`, `EvalLogical`,
`EvalBinary`, `Bitwise`, `Relational`, `Arithmetical`, `EvalUnary`,
`EvalSelect`, `SelectSteps`, `EvalFuncCall`, `CallWith`, `Callee`, `EvalArgs`,
`EvalAttribute`, `EvalVariable` and `Property`. What the source promises
about them is proved in the `AelEvalFacts` lemmas listed below.

The model follows the code in two places where the code differs from what
its syntax suggests:

- The arithmetical operator `-` adds its operands (src/ael-eval.js:164).
- A function call passes the values of all its children as arguments (src/ael-eval.js:227-229), so the first argument is the callee's own value.

## Model

| member | source | states |
|---|---|---|
| AelValues.StrictEqIsEquivalence | src/ael-eval.js:138-139 | `===` is reflexive, symmetric and transitive |
| AelValues.StrictEqOnPrimitives | src/ael-eval.js:138-139 | on values without identity, `===` is plain equality of the values |
| AelValues.JsString | src/ael-funcs-std.js:36 | `String(v)` of a string is the string itself, and of `undefined` is "undefined"; of an integer up to 2^53 in magnitude it is its decimal digits with the sign; below 10^21 in magnitude it has one character per digit, plus the sign |
| AelValues.PowerOfTenString | src/ael-funcs-std.js:36 | from 10^21 on, `String(v)` switches to the exponent form: a power of ten renders as "1e+" and its exponent, with the sign |
| AelValues.JsInteger | src/ael-funcs-std.js:51 | the integer coercion of a position argument is the number itself, and 0 for `undefined` and `null` |
| AelValues.NatToDecimal | src/ael-funcs-std.js:36 | the decimal rendering of a number is a non-empty string of digits |
| AelValues.ArrayIndexOf | src/ael-eval.js:203 | a key names an array element exactly when it is a canonical decimal string |
| AelValues.DecimalRoundTrip | src/ael-eval.js:203 | rendering a number gives a canonical key, and reading that key back gives the number |
| AelValues.CanonicalRoundTrip | src/ael-eval.js:203 | a canonical key is the rendering of the index it names, so rendering and index reading are inverse |
| AelValues.LeadingDigitPositive | src/ael-eval.js:203 | a digit string that does not start with 0 names an index of at least 1 |
| AelValues.DigitValue | src/ael-eval.js:203 | a digit character's value is below 10 and renders back as the same character |
| AelAst.Kind.Name | src/ael-eval.js:51-71 | a kind is `Other` exactly when its type name is none of the fifteen dispatched names |
| AelAst.KindNameIdentifies | src/ael-eval.js:51-71 | different kinds have different type names, so dispatching on a name is the same as on the kind |
| AelAst.Attr | src/ael-eval.js:239 | `N.get(name)` is the stored attribute, or `undefined` when absent |
| AelTracing.Summary | src/ael-trace.js:63-64 | the summary is at most 43 characters; a rendering up to 40 characters is kept, a longer one becomes its first 40 characters plus "..." |
| AelTracing.PrefixOf | src/ael-trace.js:35-41 | the loop counts the parent links up to the root and pads to four columns per link |
| AelTracing.TraceBegin | src/ael-trace.js:44-49 | no line without a sink; otherwise exactly one line: marker, prefix, type name, " {" |
| AelTracing.TraceEnd | src/ael-trace.js:52-66 | no line without a sink; otherwise exactly one line ending in the summary of the value |
| AelTracing.EndLineShape | src/ael-trace.js:57-65 | the end-line layout and bound; `undefined` renders as "undefined", a function as "[Function: name]" |
| AelErrors.Param | src/ael-error.js:51-52 | a parameter's value, `undefined` when it is absent |
| AelErrors.WithDefaults | src/ael-error.js:35-41 | caller parameters win; every other default (above 2, below 2, newline, colors) stays |
| AelErrors.ReportRequest | src/ael-error.js:56-67 | the renderer gets exactly type "ERROR", the message, the origin (as given) only when it is truthy, and the code, position and layout parameters |
| AelErrors.AELError.constructor | src/ael-error.js:30-69 | the name is "AELError"; line and column are set only when truthy; a report exists exactly when code, line and column are all truthy |
| AelErrors.AELError.ToString | src/ael-error.js:72-83 | the report when there is one; otherwise "AELError:", " line L" if set, ", column C:" if set, then the message |
| AelErrors.ReportNeedsCallerPosition | src/ael-error.js:55 | the defaults never supply a report: it depends on the caller's code, line and column alone |
| AelErrors.LayoutDefaults | src/ael-error.js:35-41 | each layout parameter is the caller's value when given, else its default |
| AelErrors.PlainTextShape | src/ael-error.js:76-81 | the plain rendering starts with "AELError:" and ends with the message; without a position it is exactly those two |
| AelEval.ErrorAt | src/ael-eval.js:40-48 | an evaluator error is an `AELError` with the message and exactly origin, code (the expression text), and the node's line and column |
| AelEval.EvalSelectLoop | src/ael-eval.js:188-207 | the step loop with its `break` and early throws computes exactly `EvalSelect` |
| AelEval.SelectStepCases | src/ael-eval.js:192-204 | one pass through the step loop: stop, throw, or move on to the next parent and result |
| AelEval.EvalFuncCallLoop | src/ael-eval.js:210-234 | `evalFuncCall` as written computes exactly `EvalFuncCall` |
| AelEval.EvalArgsLoop | src/ael-eval.js:226-229 | the argument loop computes exactly `EvalArgs` from child 0 |
| AelEval.PrependNothing | src/ael-eval.js:226 | an empty argument list in front of the remaining evaluation changes nothing |
| AelEval.ArgsStep | src/ael-eval.js:227-229 | one argument evaluated moves from the remaining evaluation to the gathered ones |
| AelEvalFacts.UnknownKindFails | src/ael-eval.js:51-71 | a node outside the fifteen kinds throws the "eval" error at its own position, before any trace line |
| AelEvalFacts.LiteralIsVerbatim | src/ael-eval.js:256-285 | every literal returns its `value` attribute unchanged, whatever the variables |
| AelEvalFacts.IdentifierIsVerbatim | src/ael-eval.js:237-242 | an identifier returns its `id` attribute with no variable lookup |
| AelEvalFacts.VariableLookup | src/ael-eval.js:245-253 | a variable succeeds exactly when `vars[id]` is not `undefined`, returning that value; else the "evalVariable" error |
| AelEvalFacts.ConditionalBinaryChoice | src/ael-eval.js:74-81 | the truthy left value, else the right one; child 1 is never evaluated when the left is truthy or throws |
| AelEvalFacts.ConditionalTernaryChoice | src/ael-eval.js:84-93 | when the condition returns, exactly one branch, chosen by truthiness, is evaluated and the other never is; when the condition throws, its error is the outcome and neither branch is evaluated |
| AelEvalFacts.LogicalYieldsBool | src/ael-eval.js:96-113 | a logical node that returns yields a boolean |
| AelEvalFacts.AndShortCircuits | src/ael-eval.js:100-104 | `&&` with a falsy left yields false and never evaluates the right; with a truthy left it yields the right's truthiness; a throwing left is the outcome, and the right is never evaluated |
| AelEvalFacts.OrShortCircuits | src/ael-eval.js:105-109 | `\|\|` with a truthy left yields true and never evaluates the right; with a falsy left it yields the right's truthiness; a throwing left is the outcome, and the right is never evaluated |
| AelEvalFacts.LogicalUnknownOp | src/ael-eval.js:96-113 | any other logical operator yields false and evaluates no child |
| AelEvalFacts.BinaryEvaluatesBoth | src/ael-eval.js:116-172 | bitwise, relational and arithmetical nodes evaluate child 0, then child 1, then apply the operator; a throwing child 0 stops before child 1 |
| AelEvalFacts.BitwiseOperators | src/ael-eval.js:121-126 | a number for `&`, `\|`, `<<`, `>>`, and `undefined` for any other operator |
| AelEvalFacts.NotEqualNegatesEqual | src/ael-eval.js:138-139 | `==` is strict identity, and `!=` on the same operands is its negation |
| AelEvalFacts.NotMatchNegatesMatch | src/ael-eval.js:144-145 | `!~` succeeds exactly when `=~` does, and is its negation |
| AelEvalFacts.PlusConcatenatesStrings | src/ael-eval.js:158-160 | `+` with a string on the left appends the string coercion of the right |
| AelEvalFacts.MinusIsPlus | src/ael-eval.js:164 | as written, `-` agrees with `+` whenever the left is not a string, and always yields a number |
| AelEvalFacts.UnaryOperators | src/ael-eval.js:175-185 | `!` negates the boolean coercion, `~` complements the numeric one, any other operator yields `undefined` |
| AelEvalFacts.OptionalStepStops | src/ael-eval.js:193-197 | at an optional step on a missing value the walk ends with `undefined`, and no later step is looked at |
| AelEvalFacts.OptionalBaseStops | src/ael-eval.js:191-197 | `a?.b...` on a missing `a` is `undefined`, and no later step is evaluated |
| AelEvalFacts.NonObjectStepFails | src/ael-eval.js:198-199 | a non-object base at a step that does not stop optionally throws "evalSelect" at that step's position |
| AelEvalFacts.StepsParentIsLastContainer | src/ael-eval.js:191-204 | after the walk, the pair is the untouched start (its result cut to `undefined` by an optional stop), or some object with one of its properties (or `undefined` after an optional stop) |
| AelEvalFacts.SelectParentIsLastContainer | src/ael-eval.js:188-207 | `evalSelect(N, true)` gives `undefined` as parent with the base value (or `undefined`) when nothing was indexed, else some object with one of its properties |
| AelEvalFacts.StepsPrefix | src/ael-eval.js:191-204 | the walk over all steps is the walk without the last step, then the last step, when the shorter walk ends on an object |
| AelEvalFacts.SelectLastStep | src/ael-eval.js:188-207 | the parent is the last container indexed: the value of the selection without its last step, paired with its property under the string form of the last key |
| AelEvalFacts.ArrayIndexProperty | src/ael-eval.js:203 | an array indexed by the decimal rendering of `i` reads element `i`, and `undefined` past the end |
| AelEvalFacts.SelectSingleStep | src/ael-eval.js:200-203 | `a[k]` is the property of `a` under the string form of `k`, with `a` as parent |
| AelEvalFacts.CalleeIsChildZero | src/ael-eval.js:212-218 | the callee is child 0's value, via `evalSelect` with its parent as receiver when child 0 is a selection |
| AelEvalFacts.ArgsInOrder | src/ael-eval.js:226-229 | arguments are the children's values left to right; the first child that throws ends the evaluation with its error |
| AelEvalFacts.OptionalCallSkipsArguments | src/ael-eval.js:219-222 | an optional call on a missing function yields `undefined` and evaluates no argument |
| AelEvalFacts.NotCallableFails | src/ael-eval.js:224-225 | a callee that is not a function throws "evalFuncCall" at child 0, unless the call is optional and the value missing |
| AelEvalFacts.CallPassesArguments | src/ael-eval.js:226-230 | the function is applied with the selection's parent as receiver to all children's values, the first being the callee itself |
| AelEvalFacts.EvalErrorReport | src/ael-eval.js:40-48 | an evaluator error has a report exactly when the expression text is non-empty and the line and column are nonzero |
| AelEvalFacts.TracingOnlyObserves | src/ael-trace.js:44-66 | the result of an evaluation depends neither on the sink nor on the depth, and without a sink no line is emitted |
| AelEvalFacts.KindOnlyObserves | src/ael-eval.js:74-185 | tracing only observes, for the kinds other than selections and calls |
| AelEvalFacts.ConditionalOnlyObserves | src/ael-eval.js:74-93 | tracing only observes the two conditionals |
| AelEvalFacts.LogicalOnlyObserves | src/ael-eval.js:96-113 | tracing only observes the logical operators |
| AelEvalFacts.UnaryOnlyObserves | src/ael-eval.js:175-185 | tracing only observes the unary operators |
| AelEvalFacts.BinaryOnlyObserves | src/ael-eval.js:116-172 | tracing only observes the binary operators |
| AelEvalFacts.SelectOnlyObserves | src/ael-eval.js:188-207 | tracing only observes selections |
| AelEvalFacts.StepsOnlyObserve | src/ael-eval.js:192-204 | tracing only observes the step loop |
| AelEvalFacts.StepOnlyObserves | src/ael-eval.js:192-204 | tracing only observes one step of the step loop |
| AelEvalFacts.ArgsOnlyObserve | src/ael-eval.js:226-229 | tracing only observes the argument loop |
| AelEvalFacts.CallOnlyObserves | src/ael-eval.js:210-234 | tracing only observes function calls |
| AelEvalFacts.CallStepsObserve | src/ael-eval.js:219-233 | tracing only observes a call once it does so for callee and arguments |
| AelStdFuncs.Count | src/ael-funcs-std.js:28-37 | element count of an array, own-key count of an object, length of a string, else the length of `String(val)`; `null` throws |
| AelStdFuncs.CountOfNumber | src/ael-funcs-std.js:36 | `count` of a number below 10^21 is the number of its decimal digits |
| AelStdFuncs.CountOfPowerOfTen | src/ael-funcs-std.js:36 | `count` of a power of ten from 10^21 on is the length of its exponent form, so `count(1e21)` is 5 |
| AelStdFuncs.In | src/ael-funcs-std.js:40-47 | throws unless the list is an array; otherwise true exactly when some element is `===` to `T` |
| AelStdFuncs.SubstrStart | src/ael-funcs-std.js:51 | a negative start counts from the end; a start past either end is clamped to that end |
| AelStdFuncs.JsSubstr | src/ael-funcs-std.js:51 | `substr` is the contiguous piece from the clamped start, with the clamped length |
| AelStdFuncs.Substr | src/ael-funcs-std.js:50-52 | a contiguous piece of `String(str)` from the clamped position: all the rest when `len` is undefined, otherwise exactly the clamped length |
| AelStdFuncs.IndexFrom | src/ael-funcs-std.js:56 | -1 exactly when there is no occurrence at or after the start; else the first occurrence |
| AelStdFuncs.Index | src/ael-funcs-std.js:55-57 | `indexOf` from the clamped position: the first occurrence, or -1 exactly when there is none |
| AelStdFuncs.TrimStart | src/ael-funcs-std.js:61 | leading white space removed, a suffix of the input |
| AelStdFuncs.TrimEnd | src/ael-funcs-std.js:61 | trailing white space removed, a prefix of the input |
| AelStdFuncs.Trim | src/ael-funcs-std.js:60-62 | the result neither starts nor ends with white space |
| AelStdFuncs.TrimIsInfix | src/ael-funcs-std.js:61 | trimming keeps a contiguous piece, cutting only white space on either side |
| AelStdFuncs.TrimIdempotent | src/ael-funcs-std.js:60-62 | trimming a trimmed string changes nothing |
| AelStdFuncs.Lc | src/ael-funcs-std.js:65-67 | same length, each character lower-cased |
| AelStdFuncs.Uc | src/ael-funcs-std.js:70-72 | same length, each character upper-cased |
| AelStdFuncs.CaseMappings | src/ael-funcs-std.js:65-72 | lower-casing leaves no capital and is idempotent; upper-casing after lower-casing equals upper-casing |
| AelApi.Arg | src/ael.js:74 | a parameter beyond the argument count reads as `undefined` |
| AelApi.Defaulted | src/ael.js:91-94 | `undefined` is replaced by the default, any other value kept |
| AelApi.Registered | src/ael.js:40-41 | registering the standard names makes each name a key holding its own function |
| AelApi.AELExpr.Compile | src/ael-expr.js:51-71 | on success the AST is kept and the object returned; on failure the parser's report is thrown and the AST left as it was |
| AelApi.LruCache.Get | src/ael.js:76-77 | the entry stored under the key, or a miss; a key never stored always misses |
| AelApi.LruCache.Set | src/ael.js:80 | the key, if kept, holds the new entry; other entries are kept unchanged or evicted |
| AelApi.LruCache.Limit | src/ael.js:64 | the limit is recorded; entries are kept unchanged or evicted |
| AelApi.AEL.constructor | src/ael.js:37-45 | every standard function is registered under its own name; the cache starts empty |
| AelApi.AEL.Func | src/ael.js:53-58 | any argument count other than 2 throws; otherwise registers the function and answers `this` |
| AelApi.AEL.Cache | src/ael.js:61-66 | any argument count other than 1 throws; otherwise sets the limit and answers `this` |
| AelApi.AEL.Compile | src/ael.js:69-83 | 1 or 2 arguments; a hit returns the cached entry and changes nothing; a miss compiles a new object holding the parse, and whatever the cache keeps under the text afterwards is the object returned; a parse failure stores nothing; the limit is unchanged |
| AelApi.AEL.Execute | src/ael.js:86-96 | 1 to 4 arguments; runs the AST with `params` defaulting to `{}`, `trace` to false, and the registry |
| AelApi.AEL.Evaluate | src/ael.js:99-110 | 1 to 4 arguments; equals executing the compilation, whatever the cache held: the run of the parse of the text, or the parse failure |
| AelApi.CompileTwice | src/ael.js:76-82 | two compilations of the same text in a row: a failure repeats, a success gives the same AST twice, and the very same object when the second lookup hits |

## Left out

- Prototype chains: property lookup reads an object's own keys, an array's canonical indices and its `length`. A regular expression's properties come from the host.
- Floating point: numbers are integers. NaN, infinities and fractional results are not modelled. The numeric operators, `~` and the 32-bit bitwise operators are host operations, about which nothing is proved.
  - From 10^21 in magnitude, `String(n)` is rendered in exponent form.
- AelValues.JsString: above 2^53 in magnitude, the model renders a number from its exact decimal digits. JavaScript prints the shortest digits that read back as the same double: `String(2**64)` is "18446744073709552000", where the model gives "18446744073709551616". The length below 10^21 is the same either way, but the digits are not. `count`, `substr`, `index`, `trim`, `lc` and `uc` of such numbers inherit the difference.
- AelStdFuncs.CountOfNumber: the digit count is promised only below 10^21, because `String(n)` switches to exponent form from there on. For powers of ten, `CountOfPowerOfTen` gives the count above that bound.
- The helpers of src/ael-util.js (`truthy`, `coerce`, `pad`) are not part of this model. They are uninterpreted host operations. They are taken to be total, so a coercion never throws.
- Regular-expression matching and the coercion to a regular expression are host operations.
- AelEvalFacts.BinaryEvaluatesBoth: in `evalBitwise` the coercion of child 0 happens before child 1 is evaluated. Since coercion is a total, pure host operation, the model coerces both values afterwards.
- `JSON.stringify`, `String()` of objects, arrays, regular expressions and functions, and `ToIntegerOrInfinity` of non-numbers are host operations.
  - `JSON.stringify` is taken to be total: it always returns a string and never throws. In JavaScript it can throw, for example on a cycle. It can also return `undefined`, for example for an object whose `toJSON` returns `undefined`, and `traceEnd` then throws a `TypeError` when it reads `result.length`.
  - This matters only while tracing, and the model does not capture that `TypeError`. The lines below name the members whose contracts rest on this assumption.
- AelTracing.TraceEnd: the summary is always built from a string, so the tracing `TypeError` described above is not modelled.
- AelEvalFacts.TracingOnlyObserves: tracing is proved purely observational only under the total-`JSON.stringify` assumption. In JavaScript a value that `JSON.stringify` cannot render makes an evaluation throw only when a sink is installed.
- AelEvalFacts.KindOnlyObserves: rests on the same total-`JSON.stringify` assumption as `TracingOnlyObserves`.
- AelEvalFacts.ConditionalOnlyObserves: rests on the same total-`JSON.stringify` assumption.
- AelEvalFacts.LogicalOnlyObserves: rests on the same total-`JSON.stringify` assumption.
- AelEvalFacts.UnaryOnlyObserves: rests on the same total-`JSON.stringify` assumption.
- AelEvalFacts.BinaryOnlyObserves: rests on the same total-`JSON.stringify` assumption.
- AelEvalFacts.SelectOnlyObserves: rests on the same total-`JSON.stringify` assumption.
- AelEvalFacts.StepsOnlyObserve: rests on the same total-`JSON.stringify` assumption.
- AelEvalFacts.StepOnlyObserves: rests on the same total-`JSON.stringify` assumption.
- AelEvalFacts.ArgsOnlyObserve: rests on the same total-`JSON.stringify` assumption.
- AelEvalFacts.CallOnlyObserves: rests on the same total-`JSON.stringify` assumption.
- AelEvalFacts.CallStepsObserve: rests on the same total-`JSON.stringify` assumption.
- AelEval.MissingNode: evaluating an absent child throws a fixed `TypeError` text. The text assumes that ASTY's `child(i)` gives `undefined` out of range. ASTY is not part of this model, and the exact message is the JavaScript engine's.
- AelStdFuncs.Lc, AelStdFuncs.Uc: only ASCII letters change case. Unicode case mapping (including length-changing mappings) is not modelled.
- AelStdFuncs.Count: the own-key count of an object is the number of its fields. A regular expression is taken to have no own keys.
- The `source-code-error` renderer is a parameter of the `AELError` constructor.
- `Error.captureStackTrace` is left out, because stack traces are not modelled.
- `version()` is left out, because it only returns a constant defined in a file that is not part of this model.
- AELFuncs (src/ael-funcs.js) is not part of this model. The registry is a map in which a later registration under the same name replaces the earlier one.
- The `cache-lru` library is not part of this model.
  - A lookup may miss even when an entry is stored. A hit returns what is stored. Recency of use is not modelled.
  - Storing an entry or changing the limit may evict any entries, the stored one included. Which ones the least-recently-used policy picks, and how the limit bounds them, is not modelled.
- AelApi.AEL.Evaluate, AelApi.AEL.Compile: callers are taken not to recompile an object that `compile` returned. `compile` hands out the cached `AELExpr` itself, and its own `compile` method is public, so `ael.compile("1").compile("2")` would make a later hit on "1" run the AST of "2". The cache invariant `Valid()` rules that sequence out.
- AelApi.AEL.Compile: that an entry just stored survives is not promised, because it depends on the eviction policy (for example a limit of 0).
- AelApi.CompileTwice: the same object is promised only when the second lookup hits, that is, when nothing evicted the entry in between.
- AelStdFuncs.Count: the length of a string counts Unicode scalar values, whereas JavaScript counts UTF-16 code units. They differ on characters outside the Basic Multilingual Plane, such as emoji.
- AelStdFuncs.Substr: positions and lengths count Unicode scalar values, not UTF-16 code units.
- AelStdFuncs.Index: positions count Unicode scalar values, not UTF-16 code units.
- AelTracing.Summary: the 40-character cut counts Unicode scalar values, not UTF-16 code units, so it never splits a surrogate pair.
- AelTracing.TraceBegin: the sink is taken to be either `null` (no tracing) or a function. The source calls any other value that is not `null`, such as `undefined` or `false`, which throws a `TypeError`. What src/ael-expr-eval.js hands the evaluator as `trace` is not part of this model.
- AelTracing.TraceEnd: the same assumption about the sink as for `TraceBegin`.
- The parser is not part of this model; it is a parameter `parse` of the `AEL` object.
  - PEG grammar, `PEGUtil.parse` and ASTY node construction are all left out.
  - It is assumed to be deterministic in the expression text.
  - Its error text is taken as the host renders it, already prefixed with "ERROR: ". The console output of compilation with `trace` is left out.
- The expression runner `AELExpr.execute` and src/ael-expr-eval.js are not part of this model. The runner is a parameter `run`. How its parameters, variables and registry reach `AELEval` is therefore not captured.
- AelApi.AEL.Execute: `ast` is always an `AELExpr`. In JavaScript any value can be passed, and `ast.execute(…)` then throws a `TypeError` for `null`, `undefined` or any value without an `execute` method. That case is not modelled.
- AelApi.AEL.Execute: the fresh object `{}` that defaults `params` is represented as an object value. Its identity is a parameter, `emptyRef`.
- The cache key is the expression text as a string. A non-string `expr` handed to `compile` is not modelled.
- AelAst node parent links are represented by an explicit `Ancestry`. The functions take the depth as a parameter.
- Console output by the trace sink: the sink is modelled by the list of lines it receives.
