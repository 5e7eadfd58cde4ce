/**
 * The Helm values document: a JavaScript object of arbitrary shape, as the caller may pass it in
 * `props.values` and as the add-on builds it. Numbers are integers only.
 */
module Values {
  import opened Wrappers

  datatype Value =
    | VStr(s: string)
    | VBool(b: bool)
    | VInt(i: int)
    | VNull
    | VUndefined
    | VMap(m: map<string, Value>)

  /** A plain object: property names to values. */
  type Tree = map<string, Value>

  /**
   * JavaScript truthiness: `false`, `""`, `0`, `null` and `undefined` are falsy;
   * every object, the empty one included, is truthy.
   */
  predicate Truthy(v: Value)
    ensures Truthy(v) <==> v !in {VBool(false), VStr(""), VInt(0), VNull, VUndefined}
  {
    match v
    case VStr(s) => s != ""
    case VBool(b) => b
    case VInt(i) => i != 0
    case VNull => false
    case VUndefined => false
    case VMap(_) => true
  }

  /** Reads the value at a key path, descending through objects only; None if some key is missing. */
  function Lookup(v: Value, path: seq<string>): Option<Value>
    decreases |path|
  {
    if path == [] then Some(v)
    else match v
      case VMap(m) => if path[0] in m then Lookup(m[path[0]], path[1..]) else None
      case _ => None
  }

  /** Reads the value at a key path of a tree. */
  function Get(t: Tree, path: seq<string>): Option<Value> {
    Lookup(VMap(t), path)
  }

  /** The two key paths part ways: they agree on a common prefix and then name different keys. */
  predicate Diverge(p: seq<string>, q: seq<string>)
    decreases |p|
  {
    |p| > 0 && |q| > 0 && (p[0] != q[0] || Diverge(p[1..], q[1..]))
  }

  lemma {:induction false} DivergeSymmetric(p: seq<string>, q: seq<string>)
    requires Diverge(p, q)
    ensures Diverge(q, p)
    decreases |p|
  {
    if p[0] == q[0] {
      DivergeSymmetric(p[1..], q[1..]);
    }
  }
}
