/**
 * The abstract syntax tree the evaluator consumes: typed nodes with named
 * attributes, ordered children and a source position, as the parser builds
 * them. The parser itself is not part of this model.
 */
module AelAst {
  import opened AelValues

  /** A source position, as `N.pos()` reports it. */
  datatype Pos = Pos(line: nat, column: nat)

  /** The fifteen node type names the evaluator dispatches on. */
  const KindNames: set<string> := {
    "ConditionalBinary", "ConditionalTernary", "Logical", "Bitwise", "Relational",
    "Arithmetical", "Unary", "Select", "FuncCall", "Identifier", "Variable",
    "LiteralString", "LiteralRegExp", "LiteralNumber", "LiteralValue" }

  /** A node type name outside the fifteen. */
  type OtherName = s: string | s !in KindNames witness ""

  /** `N.type()`: one of the fifteen node types, or any other name. */
  datatype Kind =
    | ConditionalBinary | ConditionalTernary | Logical | Bitwise | Relational | Arithmetical | Unary
    | Select | FuncCall | Identifier | Variable
    | LiteralString | LiteralRegExp | LiteralNumber | LiteralValue
    | Other(name: OtherName)
  {
    /** The type name, as the trace prints it. */
    function Name(): (s: string)
      ensures Other? <==> s !in KindNames
      ensures Other? ==> s == name
    {
      match this
      case ConditionalBinary => "ConditionalBinary"
      case ConditionalTernary => "ConditionalTernary"
      case Logical => "Logical"
      case Bitwise => "Bitwise"
      case Relational => "Relational"
      case Arithmetical => "Arithmetical"
      case Unary => "Unary"
      case Select => "Select"
      case FuncCall => "FuncCall"
      case Identifier => "Identifier"
      case Variable => "Variable"
      case LiteralString => "LiteralString"
      case LiteralRegExp => "LiteralRegExp"
      case LiteralNumber => "LiteralNumber"
      case LiteralValue => "LiteralValue"
      case Other(name) => name
    }

    /** The four literal kinds. */
    predicate IsLiteral() {
      LiteralString? || LiteralRegExp? || LiteralNumber? || LiteralValue?
    }
  }

  /** The type name determines the kind: no two kinds share a name. */
  lemma KindNameIdentifies(k1: Kind, k2: Kind)
    ensures k1.Name() == k2.Name() ==> k1 == k2
  {
  }

  /** A node: `N.type()` is `kind`, `N.get(name)` reads `attrs`,
      `N.child(i)` and `N.childs(i)` read `children`. */
  datatype Node = Node(kind: Kind, attrs: map<string, Value>, children: seq<Node>, pos: Pos)

  /** `N.get(name)`: the attribute's value, or `undefined` when it is absent. */
  function Attr(N: Node, name: string): (v: Value)
    ensures name !in N.attrs ==> v == Undefined
    ensures name in N.attrs ==> v == N.attrs[name]
  {
    if name in N.attrs then N.attrs[name] else Undefined
  }

  /** The chain of `parent()` links above a node: `Root` for the root of the
      tree, `Below(p, up)` for a node whose parent is `p`. */
  datatype Ancestry = Root | Below(parent: Node, up: Ancestry)

  /** The number of `parent()` links from a node to the root. */
  function Depth(a: Ancestry): nat {
    match a
    case Root => 0
    case Below(_, up) => Depth(up) + 1
  }

  /** `N` with its `i`-th child replaced by `M`: used to state that an
      evaluation does not look at that child. */
  function WithChild(N: Node, i: nat, M: Node): (N': Node)
    requires i < |N.children|
    ensures N'.kind == N.kind && N'.attrs == N.attrs && N'.pos == N.pos
    ensures |N'.children| == |N.children| && N'.children[i] == M
    ensures forall j :: 0 <= j < |N.children| && j != i ==> N'.children[j] == N.children[j]
  {
    N.(children := N.children[i := M])
  }
}
