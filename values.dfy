/**
 * The runtime value universe of AEL expressions, the outcome of an operation
 * (a value, or a thrown error) and the host environment: the helpers of
 * `ael-util.js`, the JavaScript built-ins and the host functions that the
 * evaluator calls but whose definitions are not part of this model.
 */
module AelValues {

  /** A JavaScript value as the evaluator sees it. Numbers are integer-valued;
      arrays, objects, regular expressions and functions carry a reference
      identity `ref`, which is what `===` compares for them. */
  datatype Value =
    | Null
    | Undefined
    | Bool(b: bool)
    | Num(n: int)
    | Str(s: string)
    | Regex(ref: nat)
    | Array(ref: nat, elems: seq<Value>)
    | Object(ref: nat, fields: map<string, Value>)
    | Fn(ref: nat, name: string)
  {
    /** `v === null || v === undefined` */
    predicate Nullish() {
      Null? || Undefined?
    }

    /** `typeof v === "object"` for a value that is not `null` */
    predicate IsObject() {
      Array? || Object? || Regex?
    }
  }

  /** What a `throw` carries: an `AELError` built from a message and a
      parameter object, or any other error (a plain `Error`, a `TypeError`,
      or whatever a host function throws). */
  datatype Thrown =
    | AelThrown(message: string, params: map<string, Value>)
    | HostThrown(message: string)

  /** A completed call: a returned value or a thrown error. */
  datatype Result<+T> = Ok(value: T) | Throw(thrown: Thrown)

  /** The binary numeric operations of the evaluator, whose floating-point
      and 32-bit semantics are left to the host. */
  datatype ArithOp = Add | Mul | Div | Mod | Pow | BitAnd | BitOr | Shl | Shr

  /** The operations the evaluator uses but does not define. */
  datatype Host = Host(
    truthy: Value -> bool,               // util.truthy(v)
    coerceNumber: Value -> int,          // util.coerce(v, "number")
    coerceString: Value -> string,       // util.coerce(v, "string")
    coerceBoolean: Value -> bool,        // util.coerce(v, "boolean")
    coerceRegExp: Value -> Value,        // util.coerce(v, "regexp")
    pad: nat -> string,                  // util.pad("", n)
    matches: (string, Value) -> bool,    // s.match(re) !== null
    arith: (ArithOp, int, int) -> int,   // JavaScript number and bitwise operators
    bitNot: int -> int,                  // ~n
    apply: (Value, Value, seq<Value>) -> Result<Value>,  // fn.apply(ctx, args)
    regexProperty: (Value, string) -> Value,             // re[key]
    json: Value -> string,               // JSON.stringify(v)
    stringOf: Value -> string,           // String(v) for regexps, arrays, objects, functions
    integerOf: Value -> int              // ToIntegerOrInfinity(v) for values other than numbers
  )

  /** JavaScript's strict equality `===`. */
  predicate StrictEq(a: Value, b: Value) {
    match (a, b)
    case (Null, Null) => true
    case (Undefined, Undefined) => true
    case (Bool(x), Bool(y)) => x == y
    case (Num(x), Num(y)) => x == y
    case (Str(x), Str(y)) => x == y
    case (Regex(x), Regex(y)) => x == y
    case (Array(x, _), Array(y, _)) => x == y
    case (Object(x, _), Object(y, _)) => x == y
    case (Fn(x, _), Fn(y, _)) => x == y
    case _ => false
  }

  /** `===` is an equivalence: reflexive, symmetric and transitive. */
  lemma StrictEqIsEquivalence(a: Value, b: Value, c: Value)
    ensures StrictEq(a, a)
    ensures StrictEq(a, b) == StrictEq(b, a)
    ensures StrictEq(a, b) && StrictEq(b, c) ==> StrictEq(a, c)
  {
  }

  /** On values without identity, `===` is plain equality of the values. */
  lemma StrictEqOnPrimitives(a: Value, b: Value)
    requires !a.IsObject() && !a.Fn?
    ensures StrictEq(a, b) <==> a == b
  {
  }

  /** The language's own truthiness, as used by `if (x)` in the library code
      (not `util.truthy`, which the evaluator uses and which is left to the host). */
  predicate JsTruthy(v: Value) {
    match v
    case Null => false
    case Undefined => false
    case Bool(b) => b
    case Num(n) => n != 0
    case Str(s) => s != ""
    case _ => true
  }

  /** `String(v)`: exact for strings, booleans, `null`, `undefined` and
      integers up to 2^53 in magnitude; below 10^21 in magnitude a number's
      rendering has one character per decimal digit, plus the sign. */
  function JsString(h: Host, v: Value): (r: string)
    ensures v.Str? ==> r == v.s
    ensures v.Undefined? ==> r == "undefined"
    ensures v.Num? && 0 <= v.n <= MaxExact ==> r == NatToDecimal(v.n)
    ensures v.Num? && -MaxExact <= v.n < 0 ==> r == "-" + NatToDecimal(-v.n)
    ensures v.Num? && 0 <= v.n < ExponentFrom ==> |r| == |NatToDecimal(v.n)|
    ensures v.Num? && -ExponentFrom < v.n < 0 ==> |r| == 1 + |NatToDecimal(-v.n)|
  {
    match v
    case Str(s) => s
    case Null => "null"
    case Undefined => "undefined"
    case Bool(b) => if b then "true" else "false"
    case Num(n) => NumberToString(n)
    case _ => h.stringOf(v)
  }

  /** `ToIntegerOrInfinity(v)`, exact for numbers. */
  function JsInteger(h: Host, v: Value): (r: int)
    ensures v.Num? ==> r == v.n
    ensures v.Undefined? || v.Null? ==> r == 0
  {
    match v
    case Num(n) => n
    case Undefined => 0
    case Null => 0
    case Bool(b) => if b then 1 else 0
    case _ => h.integerOf(v)
  }

  /** The decimal digit character for `d < 10`. */
  function DigitChar(d: nat): char
    requires d < 10
  {
    "0123456789"[d]
  }

  predicate IsDigit(c: char) {
    '0' <= c <= '9'
  }

  /** The value of a decimal digit character. */
  function DigitValue(c: char): (d: nat)
    requires IsDigit(c)
    ensures d < 10 && DigitChar(d) == c
  {
    c as int - '0' as int
  }

  /** `String(n)` for a non-negative integer: its decimal digits. */
  function NatToDecimal(n: nat): (s: string)
    ensures |s| > 0
    ensures forall i :: 0 <= i < |s| ==> IsDigit(s[i])
  {
    if n < 10 then [DigitChar(n)] else NatToDecimal(n / 10) + [DigitChar(n % 10)]
  }

  /** 2^53: up to this magnitude every integer is a double, and `String(n)`
      gives all of its decimal digits. */
  const MaxExact: int := 9007199254740992

  /** 10^21: from this magnitude on, `String(n)` uses the exponent form. */
  const ExponentFrom: int := 1000000000000000000000

  function Pow10(k: nat): (p: nat)
    ensures p >= 1
  {
    if k == 0 then 1 else 10 * Pow10(k - 1)
  }

  /** `k` zero digits. */
  function Zeros(k: nat): (z: string)
    ensures |z| == k && forall i :: 0 <= i < k ==> z[i] == '0'
  {
    if k == 0 then "" else Zeros(k - 1) + "0"
  }

  /** `s` without its trailing zero digits. */
  function StripTrailingZeros(s: string): (r: string)
    ensures |r| <= |s| && r == s[..|r|]
    ensures |r| > 0 ==> r[|r| - 1] != '0'
    ensures forall i :: |r| <= i < |s| ==> s[i] == '0'
  {
    if |s| > 0 && s[|s| - 1] == '0' then StripTrailingZeros(s[..|s| - 1]) else s
  }

  /** `String(n)` for `n >= 10^21`, from the decimal `digits` of `n`: the
      significant digits with a point after the first one, "e+", and the
      exponent. */
  function ExponentForm(digits: string): string
    requires |digits| > 0
  {
    var m := StripTrailingZeros(digits);
    (if |m| <= 1 then m else [m[0]] + "." + m[1..]) + "e+" + NatToDecimal(|digits| - 1)
  }

  /** `String(n)` for an integer-valued number, from its exact decimal digits:
      plain decimal below 10^21 in magnitude, exponent form from there on.
      Above 2^53 JavaScript prints the shortest digits that read back as the
      same double, which can differ from the exact ones. */
  function NumberToString(n: int): string {
    var m: nat := if n < 0 then -n else n;
    (if n < 0 then "-" else "") + (if m < ExponentFrom then NatToDecimal(m) else ExponentForm(NatToDecimal(m)))
  }

  /** The decimal rendering of `10^k` is a one followed by `k` zeros. */
  lemma {:induction false} PowerOfTenDigits(k: nat)
    ensures NatToDecimal(Pow10(k)) == "1" + Zeros(k)
  {
    if k > 0 {
      PowerOfTenDigits(k - 1);
      assert Pow10(k) / 10 == Pow10(k - 1) && Pow10(k) % 10 == 0;
      assert "1" + Zeros(k) == ("1" + Zeros(k - 1)) + "0";
    }
  }

  lemma PowerOfTenThreshold()
    ensures Pow10(21) == ExponentFrom
  {
    assert Pow10(7) == 10000000;
    assert Pow10(14) == 100000000000000;
  }

  lemma {:induction false} Pow10Grows(j: nat, k: nat)
    requires j <= k
    ensures Pow10(j) <= Pow10(k)
    decreases k - j
  {
    if j < k {
      Pow10Grows(j, k - 1);
    }
  }

  /** A one followed by zeros loses all the zeros. */
  lemma StripOneAndZeros(s: string)
    requires |s| > 0 && s[0] == '1' && forall i :: 1 <= i < |s| ==> s[i] == '0'
    ensures StripTrailingZeros(s) == "1"
  {
    var m := StripTrailingZeros(s);
    assert m == s[..1] == "1";
  }

  /** The exponent form of `10^k` is "1e+" and `k`. */
  lemma ExponentFormOfPowerOfTen(k: nat)
    ensures ExponentForm(NatToDecimal(Pow10(k))) == "1e+" + NatToDecimal(k)
  {
    var digits := NatToDecimal(Pow10(k));
    PowerOfTenDigits(k);
    assert |digits| == k + 1 && digits[0] == '1';
    StripOneAndZeros(digits);
  }

  lemma PowerOfTenLarge(k: nat)
    requires k >= 21
    ensures Pow10(k) >= ExponentFrom
  {
    PowerOfTenThreshold();
    Pow10Grows(21, k);
  }

  lemma PowerOfTenNumber(k: nat)
    requires Pow10(k) >= ExponentFrom
    ensures NumberToString(Pow10(k)) == "1e+" + NatToDecimal(k)
    ensures NumberToString(-(Pow10(k) as int)) == "-1e+" + NatToDecimal(k)
  {
    ExponentFormOfPowerOfTen(k);
  }

  /** From `10^21` on, a power of ten renders as "1e+" and its exponent, with
      or without a minus sign: `String(1e21) === "1e+21"`. */
  lemma PowerOfTenString(h: Host, k: nat)
    requires k >= 21
    ensures JsString(h, Num(Pow10(k))) == "1e+" + NatToDecimal(k)
    ensures JsString(h, Num(-(Pow10(k) as int))) == "-1e+" + NatToDecimal(k)
  {
    PowerOfTenLarge(k);
    PowerOfTenNumber(k);
  }

  /** The value of a string of decimal digits. */
  function DecimalValue(s: string): nat
    requires forall i :: 0 <= i < |s| ==> IsDigit(s[i])
  {
    if |s| == 0 then 0 else DecimalValue(s[..|s| - 1]) * 10 + DigitValue(s[|s| - 1])
  }

  /** A canonical numeric string: digits only, no leading zero except "0" itself.
      These are the property keys that name array elements. */
  predicate CanonicalDecimal(s: string) {
    && |s| > 0
    && (forall i :: 0 <= i < |s| ==> IsDigit(s[i]))
    && (s[0] == '0' ==> |s| == 1)
  }

  /** The array index a property key names, if any. */
  function ArrayIndexOf(key: string): (r: Option<nat>)
    ensures r.Some? <==> CanonicalDecimal(key)
  {
    if CanonicalDecimal(key) then Some(DecimalValue(key)) else None
  }

  datatype Option<+T> = None | Some(value: T)

  /** The decimal rendering of a number is canonical and reads back as the number. */
  lemma {:induction false} DecimalRoundTrip(n: nat)
    ensures CanonicalDecimal(NatToDecimal(n))
    ensures DecimalValue(NatToDecimal(n)) == n
  {
    if n >= 10 {
      DecimalRoundTrip(n / 10);
      var s := NatToDecimal(n);
      assert s[..|s| - 1] == NatToDecimal(n / 10);
    }
  }

  /** A canonical numeric string is the decimal rendering of its value, so
      `ArrayIndexOf` and `NatToDecimal` are inverse to each other. */
  lemma {:induction false} CanonicalRoundTrip(s: string)
    requires CanonicalDecimal(s)
    ensures NatToDecimal(DecimalValue(s)) == s
  {
    if |s| > 1 {
      var t := s[..|s| - 1];
      assert CanonicalDecimal(t);
      CanonicalRoundTrip(t);
      var d := DigitValue(s[|s| - 1]);
      assert t[0] != '0';
      LeadingDigitPositive(t);
      var n := DecimalValue(s);
      assert n / 10 == DecimalValue(t) && n % 10 == d;
      assert s == t + [s[|s| - 1]];
    }
  }

  /** A digit string that does not start with '0' has a value of at least 1. */
  lemma {:induction false} LeadingDigitPositive(s: string)
    requires |s| > 0 && (forall i :: 0 <= i < |s| ==> IsDigit(s[i])) && s[0] != '0'
    ensures DecimalValue(s) >= 1
  {
    if |s| > 1 {
      LeadingDigitPositive(s[..|s| - 1]);
    }
  }
}
