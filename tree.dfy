/** The documents the injector edits and the verifier reads: values of the
    JSON/YAML data model, with mappings keyed by strings. */
module Tree {
  import opened Base

  datatype Node =
    | Map(entries: map<string, Node>)
    | Seq(items: seq<Node>)
    | Str(s: string)
    | Num(n: int)
    | Bool(b: bool)
    | Null

  /** The node reached by following `path` through nested mappings, if any. */
  function Lookup(n: Node, path: seq<string>): Option<Node>
    decreases |path|
  {
    if path == [] then Some(n)
    else if n.Map? && path[0] in n.entries then Lookup(n.entries[path[0]], path[1..])
    else None
  }

  /** `d.get(k)`: a missing key reads as Python's None, which is JSON null. */
  function Get(m: map<string, Node>, k: string): Node
  {
    if k in m then m[k] else Null
  }

  /** Python truthiness of a loaded value: `bool(v)`. */
  predicate Truthy(n: Node)
  {
    match n
    case Map(m) => m != map[]
    case Seq(xs) => xs != []
    case Str(s) => s != ""
    case Num(k) => k != 0
    case Bool(b) => b
    case Null => false
  }

  /** The falsy values are exactly the six empty ones. */
  lemma FalsyValues(n: Node)
    ensures !Truthy(n) <==> n in {Null, Bool(false), Num(0), Str(""), Seq([]), Map(map[])}
  {
  }
}
