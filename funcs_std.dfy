/**
 * The standard function table `stdfuncs` that every AEL instance registers:
 * `count`, `in`, `substr`, `index`, `trim`, `lc` and `uc`. Each receives two
 * leading arguments `A` and `T` before its own; only `in` looks at `T`.
 */
module AelStdFuncs {
  import opened AelValues

  /** The names of the table, in the order the table lists them. */
  const StdNames: seq<string> := ["count", "in", "substr", "index", "trim", "lc", "uc"]

  /** The message `in` throws when its list is not an array. */
  const InNeedsArray := "invalid argument to function \"in\" (array expected)"

  /** What `Object.keys(null)` throws. */
  const NullToObject := "TypeError: Cannot convert undefined or null to object"

  // ---------------------------------------------------------------- count

  /** `count(A, T, val)`: the element count of an array, the number of own keys
      of any other object, the length of a string, and otherwise the length of
      `String(val)`; `null` is an object whose keys cannot be taken. */
  function Count(h: Host, a: Value, t: Value, val: Value): (r: Result<Value>)
    ensures val.Array? ==> r == Ok(Num(|val.elems|))
    ensures val.Object? ==> r == Ok(Num(|val.fields.Keys|))
    ensures val.Regex? ==> r == Ok(Num(0))
    ensures val.Str? ==> r == Ok(Num(|val.s|))
    ensures val.Null? ==> r.Throw?
    ensures val.Undefined? || val.Bool? || val.Num? || val.Fn? ==> r == Ok(Num(|JsString(h, val)|))
    ensures r.Ok? ==> r.value.Num? && r.value.n >= 0
  {
    match val
    case Array(_, elems) => Ok(Num(|elems|))
    case Null => Throw(HostThrown(NullToObject))
    case Object(_, fields) => Ok(Num(|fields.Keys|))
    case Regex(_) => Ok(Num(0))
    case Str(s) => Ok(Num(|s|))
    case _ => Ok(Num(|JsString(h, val)|))
  }

  /** `count` of a number below 10^21 is the number of its decimal digits. */
  lemma CountOfNumber(h: Host, a: Value, t: Value, n: nat)
    ensures n < ExponentFrom ==> Count(h, a, t, Num(n)) == Ok(Num(|NatToDecimal(n)|))
    ensures n < 10 ==> Count(h, a, t, Num(n)) == Ok(Num(1))
  {
  }

  /** `count` of `10^k` from `10^21` on is the length of "1e+" and the
      exponent: `count(1e21)` is 5. */
  lemma CountOfPowerOfTen(h: Host, a: Value, t: Value, k: nat)
    requires k >= 21
    ensures Count(h, a, t, Num(Pow10(k))) == Ok(Num(3 + |NatToDecimal(k)|))
    ensures k == 21 ==> Count(h, a, t, Num(Pow10(k))) == Ok(Num(5))
  {
    var n := Pow10(k);
    PowerOfTenString(h, k);
    assert Count(h, a, t, Num(n)) == Ok(Num(|JsString(h, Num(n))|));
    if k == 21 {
      assert |NatToDecimal(21)| == 2;
    }
  }

  // ---------------------------------------------------------------- in

  /** Some element of `elems` is `=== x`. */
  predicate Contains(elems: seq<Value>, x: Value) {
    exists i :: 0 <= i < |elems| && StrictEq(elems[i], x)
  }

  /** `in(A, T, val)`: throws unless `val` is an array; otherwise scans it from
      index 0 and answers whether some element is `=== T`. */
  method In(a: Value, t: Value, val: Value) returns (r: Result<Value>)
    ensures !val.Array? ==> r == Throw(HostThrown(InNeedsArray))
    ensures val.Array? ==> r == Ok(Bool(Contains(val.elems, t)))
  {
    if !val.Array? {
      return Throw(HostThrown(InNeedsArray));
    }
    var elems := val.elems;
    for i := 0 to |elems|
      invariant forall j :: 0 <= j < i ==> !StrictEq(elems[j], t)
    {
      if StrictEq(elems[i], t) {
        return Ok(Bool(true));
      }
    }
    return Ok(Bool(false));
  }

  // ---------------------------------------------------------------- substr

  /** Where `s.substr(start, _)` starts: a negative start counts from the end,
      and any start is clamped into `0 .. |s|`. */
  function SubstrStart(s: string, start: int): (k: nat)
    ensures k <= |s|
    ensures 0 <= start <= |s| ==> k == start
    ensures -|s| <= start < 0 ==> k == |s| + start
    ensures start > |s| ==> k == |s|
    ensures start < -|s| ==> k == 0
  {
    if start < 0 then (if |s| + start < 0 then 0 else |s| + start)
    else if start > |s| then |s| else start
  }

  /** `s.substr(start, length)` (ECMAScript B.2.2.1) on integer arguments. */
  function JsSubstr(s: string, start: int, length: int): (r: string)
    ensures var k := SubstrStart(s, start);
      && k + |r| <= |s|
      && r == s[k..k + |r|]
      && |r| == (if length < 0 then 0 else if length < |s| - k then length else |s| - k)
  {
    var k := SubstrStart(s, start);
    var len := if length < 0 then 0 else if length > |s| then |s| else length;
    var end := if k + len > |s| then |s| else k + len;
    s[k..end]
  }

  /** `substr(A, T, str, pos, len)`: a contiguous piece of `String(str)` that
      starts at the clamped `pos` and is at most `len` long (all the rest when
      `len` is undefined). */
  function Substr(h: Host, a: Value, t: Value, str: Value, pos: Value, len: Value): (r: string)
    ensures var s := JsString(h, str);
      var k := SubstrStart(s, JsInteger(h, pos));
      && k + |r| <= |s|
      && r == s[k..k + |r|]
      && (len.Undefined? ==> |r| == |s| - k)
      && (!len.Undefined? ==>
            var n := if JsInteger(h, len) < 0 then 0 else JsInteger(h, len);
            |r| == (if n < |s| - k then n else |s| - k))
  {
    var s := JsString(h, str);
    JsSubstr(s, JsInteger(h, pos), if len.Undefined? then |s| else JsInteger(h, len))
  }

  // ---------------------------------------------------------------- index

  /** `w` occurs in `s` at position `k`. */
  predicate OccursAt(s: string, w: string, k: nat) {
    k + |w| <= |s| && s[k..k + |w|] == w
  }

  /** The first position at or after `k` where `w` occurs in `s`, or -1. */
  function IndexFrom(s: string, w: string, k: nat): (r: int)
    requires k <= |s|
    ensures r == -1 <==> forall j :: k <= j <= |s| ==> !OccursAt(s, w, j)
    ensures r != -1 ==> k <= r <= |s| && OccursAt(s, w, r)
    ensures r != -1 ==> forall j :: k <= j < r ==> !OccursAt(s, w, j)
    decreases |s| - k
  {
    if OccursAt(s, w, k) then k
    else if k == |s| then -1
    else IndexFrom(s, w, k + 1)
  }

  /** `index(A, T, str, sub, from)`: `String(str).indexOf(sub, from)`, the
      smallest position at or after the clamped `from` where `String(sub)`
      occurs, or -1 when there is none. */
  function Index(h: Host, a: Value, t: Value, str: Value, sub: Value, from: Value): (r: int)
    ensures var s := JsString(h, str);
      var w := JsString(h, sub);
      var p := JsInteger(h, from);
      var k := if p < 0 then 0 else if p > |s| then |s| else p;
      && (r == -1 <==> forall j :: k <= j <= |s| ==> !OccursAt(s, w, j))
      && (r != -1 ==> k <= r && OccursAt(s, w, r) && forall j :: k <= j < r ==> !OccursAt(s, w, j))
  {
    var s := JsString(h, str);
    var p := JsInteger(h, from);
    IndexFrom(s, JsString(h, sub), if p < 0 then 0 else if p > |s| then |s| else p)
  }

  // ---------------------------------------------------------------- trim

  /** The characters `String.prototype.trim` removes: the white space and line
      terminator characters of ECMAScript (sections 12.2 and 12.3 of ECMA-262). */
  predicate IsJsSpace(c: char) {
    || c == '\t' || c == '\n' || c == '\U{000B}' || c == '\U{000C}' || c == '\r' || c == ' '
    || c == '\U{00A0}' || c == '\U{1680}' || ('\U{2000}' <= c <= '\U{200A}')
    || c == '\U{2028}' || c == '\U{2029}' || c == '\U{202F}' || c == '\U{205F}'
    || c == '\U{3000}' || c == '\U{FEFF}'
  }

  /** The end of the white space that starts at `i`. */
  function SpaceRunEnd(s: string, i: nat): (j: nat)
    requires i <= |s|
    ensures i <= j <= |s|
    ensures forall k :: i <= k < j ==> IsJsSpace(s[k])
    ensures j == |s| || !IsJsSpace(s[j])
    decreases |s| - i
  {
    if i < |s| && IsJsSpace(s[i]) then SpaceRunEnd(s, i + 1) else i
  }

  /** The start of the white space that ends at `j`. */
  function SpaceRunStart(s: string, j: nat): (i: nat)
    requires j <= |s|
    ensures i <= j
    ensures forall k :: i <= k < j ==> IsJsSpace(s[k])
    ensures i == 0 || !IsJsSpace(s[i - 1])
  {
    if j > 0 && IsJsSpace(s[j - 1]) then SpaceRunStart(s, j - 1) else j
  }

  /** `s` without its leading white space. */
  function TrimStart(s: string): (r: string)
    ensures |r| <= |s| && r == s[|s| - |r|..]
    ensures r == [] || !IsJsSpace(r[0])
    ensures forall i :: 0 <= i < |s| - |r| ==> IsJsSpace(s[i])
  {
    s[SpaceRunEnd(s, 0)..]
  }

  /** `s` without its trailing white space. */
  function TrimEnd(s: string): (r: string)
    ensures |r| <= |s| && r == s[..|r|]
    ensures r == [] || !IsJsSpace(r[|r| - 1])
    ensures forall i :: |r| <= i < |s| ==> IsJsSpace(s[i])
  {
    s[..SpaceRunStart(s, |s|)]
  }

  /** `trim(A, T, str)`: `String(str)` without leading and trailing white space. */
  function Trim(h: Host, a: Value, t: Value, str: Value): (r: string)
    ensures r == [] || (!IsJsSpace(r[0]) && !IsJsSpace(r[|r| - 1]))
  {
    TrimEnd(TrimStart(JsString(h, str)))
  }

  /** Trimming keeps a contiguous piece of the string, and only white space is
      cut away on either side (`Trim` applies this to `String(str)`). */
  lemma TrimIsInfix(s: string)
    ensures var k := |s| - |TrimStart(s)|;
      var r := TrimEnd(TrimStart(s));
      && k + |r| <= |s|
      && r == s[k..k + |r|]
      && (forall i :: 0 <= i < k ==> IsJsSpace(s[i]))
      && (forall i :: k + |r| <= i < |s| ==> IsJsSpace(s[i]))
  {
    var u := TrimStart(s);
    var r := TrimEnd(u);
    var k := |s| - |u|;
    assert u == s[k..];
    assert r == u[..|r|] == s[k..k + |r|];
    forall i | k + |r| <= i < |s|
      ensures IsJsSpace(s[i])
    {
      assert IsJsSpace(u[i - k]);
      assert s[i] == u[i - k];
    }
  }

  /** Trimming a trimmed string changes nothing. */
  lemma TrimIdempotent(h: Host, a: Value, t: Value, str: Value)
    ensures var r := Trim(h, a, t, str); Trim(h, a, t, Str(r)) == r
  {
    var r := Trim(h, a, t, str);
    assert JsString(h, Str(r)) == r;
    assert SpaceRunEnd(r, 0) == 0;
    assert TrimStart(r) == r;
    assert SpaceRunStart(r, |r|) == |r|;
    assert TrimEnd(r) == r;
  }

  // ---------------------------------------------------------------- lc, uc

  /** `c.toLowerCase()` on the ASCII letters. */
  function LowerChar(c: char): char {
    if 'A' <= c <= 'Z' then (c as int + 32) as char else c
  }

  /** `c.toUpperCase()` on the ASCII letters. */
  function UpperChar(c: char): char {
    if 'a' <= c <= 'z' then (c as int - 32) as char else c
  }

  /** `lc(A, T, str)`: `String(str).toLowerCase()`, character by character. */
  function Lc(h: Host, a: Value, t: Value, str: Value): (r: string)
    ensures var s := JsString(h, str);
      |r| == |s| && forall i :: 0 <= i < |s| ==> r[i] == LowerChar(s[i])
  {
    var s := JsString(h, str);
    seq(|s|, i requires 0 <= i < |s| => LowerChar(s[i]))
  }

  /** `uc(A, T, str)`: `String(str).toUpperCase()`, character by character. */
  function Uc(h: Host, a: Value, t: Value, str: Value): (r: string)
    ensures var s := JsString(h, str);
      |r| == |s| && forall i :: 0 <= i < |s| ==> r[i] == UpperChar(s[i])
  {
    var s := JsString(h, str);
    seq(|s|, i requires 0 <= i < |s| => UpperChar(s[i]))
  }

  /** The character laws behind `CaseMappings`. */
  lemma CharCaseMappings(c: char)
    ensures !('A' <= LowerChar(c) <= 'Z')
    ensures LowerChar(LowerChar(c)) == LowerChar(c)
    ensures UpperChar(LowerChar(c)) == UpperChar(c)
  {
  }

  /** Lower-casing leaves no upper-case ASCII letter and is idempotent; upper-casing
      after lower-casing is the same as upper-casing directly. */
  lemma CaseMappings(h: Host, a: Value, t: Value, str: Value)
    ensures var l := Lc(h, a, t, str);
      && (forall i :: 0 <= i < |l| ==> !('A' <= l[i] <= 'Z'))
      && Lc(h, a, t, Str(l)) == l
      && Uc(h, a, t, Str(l)) == Uc(h, a, t, str)
  {
    var s := JsString(h, str);
    var l := Lc(h, a, t, str);
    forall i | 0 <= i < |s| {
      CharCaseMappings(s[i]);
    }
    assert JsString(h, Str(l)) == l;
    var ll := Lc(h, a, t, Str(l));
    assert forall i :: 0 <= i < |l| ==> ll[i] == l[i];
    var u1, u2 := Uc(h, a, t, Str(l)), Uc(h, a, t, str);
    assert forall i :: 0 <= i < |s| ==> u1[i] == u2[i];
  }
}
