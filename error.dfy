/**
 * The structured error of the library (`AELError`): a message, an optional
 * source position and, when the expression text and a position are known,
 * a rendered report. The renderer (the `source-code-error` package) is a
 * parameter of the constructor and is not part of this model.
 */
module AelErrors {
  import opened AelValues

  /** The parameter defaults the constructor starts from. */
  const Defaults: map<string, Value> :=
    map["above" := Num(2), "below" := Num(2), "newline" := Bool(true), "colors" := Bool(true)]

  /** `params.key` on a parameter object: `undefined` when absent. */
  function Param(p: map<string, Value>, key: string): (v: Value)
    ensures key in p ==> v == p[key]
    ensures key !in p ==> v == Undefined
  {
    if key in p then p[key] else Undefined
  }

  /** `{ above: 2, below: 2, newline: true, colors: true, ...params }`:
      every parameter the caller gives wins, every other default stays. */
  function WithDefaults(params: map<string, Value>): (p: map<string, Value>)
    ensures p.Keys == params.Keys + Defaults.Keys
    ensures forall k :: k in params ==> p[k] == params[k]
    ensures forall k :: k in Defaults && k !in params ==> p[k] == Defaults[k]
  {
    Defaults + params
  }

  /** A report is generated exactly when the code, the line and the column are all truthy. */
  predicate HasReport(p: map<string, Value>) {
    JsTruthy(Param(p, "code")) && JsTruthy(Param(p, "line")) && JsTruthy(Param(p, "column"))
  }

  /** The object handed to the renderer: type, message, the origin only when it
      is truthy, and the code, position and layout parameters. */
  function ReportRequest(message: string, p: map<string, Value>): (req: map<string, Value>)
    ensures "type" in req && req["type"] == Str("ERROR")
    ensures "message" in req && req["message"] == Str(message)
    ensures "origin" in req <==> JsTruthy(Param(p, "origin"))
    ensures "origin" in req ==> req["origin"] == Param(p, "origin")
    ensures req.Keys == {"type", "message"} + ReportKeys + (if JsTruthy(Param(p, "origin")) then {"origin"} else {})
    ensures forall k :: k in ReportKeys ==> k in req && req[k] == Param(p, k)
  {
    map["type" := Str("ERROR"), "message" := Str(message)]
    + (if JsTruthy(Param(p, "origin")) then map["origin" := Param(p, "origin")] else map[])
    + map k | k in ReportKeys :: Param(p, k)
  }

  /** The parameters passed through to the renderer unchanged. */
  const ReportKeys: set<string> := {"code", "line", "column", "above", "below", "newline", "colors"}

  /** The plain rendering `toString` builds when there is no report:
      "AELError:", then " line L" if the line is set, then ", column C:" if the
      column is set, then the message with no separator in front of it. */
  function PlainText(h: Host, name: string, line: Value, column: Value, message: string): string {
    name + ":"
    + (if JsTruthy(line) then " line " + JsString(h, line) else "")
    + (if JsTruthy(column) then ", column " + JsString(h, column) + ":" else "")
    + message
  }

  class AELError {
    const name: string
    const message: string
    /** `this.line`, `undefined` when it was not set */
    const line: Value
    /** `this.column`, `undefined` when it was not set */
    const column: Value
    /** `this.report`, `undefined` when it was not set */
    const report: Value

    /** `new AELError(message, params)` with the report renderer `render`. */
    constructor (message: string, params: map<string, Value>, render: map<string, Value> -> string)
      ensures this.message == message
      ensures name == "AELError"
      ensures var p := WithDefaults(params);
        && line == (if JsTruthy(Param(p, "line")) then Param(p, "line") else Undefined)
        && column == (if JsTruthy(Param(p, "column")) then Param(p, "column") else Undefined)
        && report == (if HasReport(p) then Str(render(ReportRequest(message, p))) else Undefined)
    {
      var p := WithDefaults(params);
      this.message := message;
      name := "AELError";
      line := if JsTruthy(Param(p, "line")) then Param(p, "line") else Undefined;
      column := if JsTruthy(Param(p, "column")) then Param(p, "column") else Undefined;
      report := if HasReport(p) then Str(render(ReportRequest(message, p))) else Undefined;
    }

    /** `toString()`: the report when there is one, else the plain rendering.
        `h` converts a position that is not a number or string to text. */
    method ToString(h: Host) returns (s: string)
      ensures JsTruthy(report) ==> s == JsString(h, report)
      ensures !JsTruthy(report) ==> s == PlainText(h, name, line, column, message)
    {
      if JsTruthy(report) {
        s := JsString(h, report);
      } else {
        s := name + ":";
        if JsTruthy(line) {
          s := s + " line " + JsString(h, line);
        }
        if JsTruthy(column) {
          s := s + ", column " + JsString(h, column) + ":";
        }
        s := s + message;
      }
    }
  }

  /** The defaults never supply a position or code, so a report exists iff the
      caller's own parameters carry a truthy code, line and column. */
  lemma ReportNeedsCallerPosition(params: map<string, Value>)
    ensures HasReport(WithDefaults(params)) <==>
              JsTruthy(Param(params, "code")) && JsTruthy(Param(params, "line")) && JsTruthy(Param(params, "column"))
  {
    var p := WithDefaults(params);
    assert Param(p, "code") == Param(params, "code");
    assert Param(p, "line") == Param(params, "line");
    assert Param(p, "column") == Param(params, "column");
  }

  /** The layout parameters always reach the renderer: a caller's value where
      given, the default otherwise. */
  lemma LayoutDefaults(params: map<string, Value>)
    ensures Param(WithDefaults(params), "above") == (if "above" in params then params["above"] else Num(2))
    ensures Param(WithDefaults(params), "below") == (if "below" in params then params["below"] else Num(2))
    ensures Param(WithDefaults(params), "newline") == (if "newline" in params then params["newline"] else Bool(true))
    ensures Param(WithDefaults(params), "colors") == (if "colors" in params then params["colors"] else Bool(true))
  {
  }

  /** The plain rendering always starts with the name and a colon and always
      ends with the message; without a position it is exactly those two. */
  lemma PlainTextShape(h: Host, name: string, line: Value, column: Value, message: string)
    ensures var t := PlainText(h, name, line, column, message);
      && |t| >= |name| + 1 + |message|
      && t[..|name| + 1] == name + ":"
      && t[|t| - |message|..] == message
    ensures !JsTruthy(line) && !JsTruthy(column) ==> PlainText(h, name, line, column, message) == name + ":" + message
  {
    var mid := (if JsTruthy(line) then " line " + JsString(h, line) else "")
             + (if JsTruthy(column) then ", column " + JsString(h, column) + ":" else "");
    var t := PlainText(h, name, line, column, message);
    assert t == (name + ":") + mid + message;
    ConcatShape(name + ":", mid, message);
  }

  /** Shape of a three-part concatenation: its prefix and its suffix. */
  lemma ConcatShape(a: string, m: string, b: string)
    ensures |a + m + b| >= |a| + |b|
    ensures (a + m + b)[..|a|] == a
    ensures (a + m + b)[|a + m + b| - |b|..] == b
  {
    assert (a + m + b)[..|a|] == a;
  }
}
