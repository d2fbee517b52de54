/**
 * Tracing of the evaluator (`AELTrace`): one line when a node's evaluation
 * begins and one when it ends, indented by the node's depth in the tree.
 * The sink `trace` is modelled by the lines handed to it: a method returns
 * the lines it emits, `[]` when there is no sink.
 */
module AelTracing {
  import opened AelValues
  import opened AelAst

  /** Every line starts with this marker. */
  const Marker := "AEL: execute: | "

  /** The longest rendering of a result that is emitted in full. */
  const MaxShown := 40

  /** The indentation of a node at depth `depth`: `util.pad("", 4 * depth)`. */
  function Prefix(h: Host, depth: nat): string {
    h.pad(4 * depth)
  }

  /** The line `traceBegin` emits for a node of kind `kind` at depth `depth`. */
  function BeginLine(h: Host, depth: nat, kind: string): string {
    Marker + Prefix(h, depth) + kind + " {"
  }

  /** The full rendering of a result before truncation. */
  function Rendered(h: Host, v: Value): string {
    if v.Undefined? then "undefined"
    else if v.Fn? then "[Function: " + v.name + "]"
    else h.json(v)
  }

  /** The rendering of a result cut to `MaxShown` characters plus "...". */
  function Summary(h: Host, v: Value): (r: string)
    ensures |r| <= MaxShown + 3
    ensures |Rendered(h, v)| <= MaxShown ==> r == Rendered(h, v)
    ensures |Rendered(h, v)| > MaxShown ==>
              |r| == MaxShown + 3 && r[..MaxShown] == Rendered(h, v)[..MaxShown] && r[MaxShown..] == "..."
  {
    var s := Rendered(h, v);
    if |s| > MaxShown then s[..MaxShown] + "..." else s
  }

  /** The line `traceEnd` emits for a result `v` of a node at depth `depth`. */
  function EndLine(h: Host, depth: nat, v: Value): string {
    Marker + Prefix(h, depth) + "}: " + Summary(h, v)
  }

  /** `prefixOf(N)`: walks the `parent()` links from the node up to the root,
      counting them, and pads to four columns per link. */
  method PrefixOf(h: Host, anc: Ancestry) returns (prefix: string)
    ensures prefix == h.pad(4 * Depth(anc))
    ensures anc == Root ==> prefix == h.pad(0)
  {
    var depth: nat := 0;
    var node := anc;
    while node != Root
      invariant depth + Depth(node) == Depth(anc)
      decreases Depth(node)
    {
      depth := depth + 1;
      node := node.up;
    }
    prefix := h.pad(4 * depth);
  }

  /** `traceBegin(N)` for a node `N` whose parent chain is `anc`; `tracing`
      says whether a sink is installed (`this.trace !== null`). */
  method TraceBegin(h: Host, tracing: bool, N: Node, anc: Ancestry) returns (out: seq<string>)
    ensures !tracing ==> out == []
    ensures tracing ==> out == [BeginLine(h, Depth(anc), N.kind.Name())]
  {
    if !tracing {
      return [];
    }
    var prefix := PrefixOf(h, anc);
    out := [Marker + prefix + N.kind.Name() + " {"];
  }

  /** `traceEnd(N, val)` for a node `N` whose parent chain is `anc`. */
  method TraceEnd(h: Host, tracing: bool, N: Node, anc: Ancestry, val: Value) returns (out: seq<string>)
    ensures !tracing ==> out == []
    ensures tracing ==> out == [EndLine(h, Depth(anc), val)]
  {
    if !tracing {
      return [];
    }
    var prefix := PrefixOf(h, anc);
    var result: string;
    if val.Undefined? {
      result := "undefined";
    } else if val.Fn? {
      result := "[Function: " + val.name + "]";
    } else {
      result := h.json(val);
    }
    if |result| > MaxShown {
      result := result[..MaxShown] + "...";
    }
    out := [Marker + prefix + "}: " + result];
  }

  /** The end line's summary never exceeds 43 characters, and a short rendering
      (`undefined`, a function's name) is shown in full. */
  lemma EndLineShape(h: Host, depth: nat, v: Value)
    ensures EndLine(h, depth, v) == Marker + h.pad(4 * depth) + "}: " + Summary(h, v)
    ensures |EndLine(h, depth, v)| <= |Marker| + |h.pad(4 * depth)| + 3 + MaxShown + 3
    ensures v.Undefined? ==> Summary(h, v) == "undefined"
    ensures v.Fn? && |v.name| <= MaxShown - 12 ==> Summary(h, v) == "[Function: " + v.name + "]"
  {
  }
}
