/**
 * The add-on's `setPath(obj, path, val)`: split the path on dots, walk the intermediate keys
 * (`obj[key] = obj[key] || {}`), then assign `val` at the last key.
 *
 * A truthy value at an intermediate key is kept as it is. When it is not an object, the walk
 * reaches a primitive and the next property assignment on it throws a TypeError (module code is
 * strict). `Write` is the tree the walk leaves behind and `Blocked` says when it throws.
 */
module PathSetter {
  import opened Wrappers
  import opened Values
  import opened Paths

  /** The tree after setting `v` at the key path `keys` of `m`. */
  function Write(m: Tree, keys: seq<string>, v: Value): (r: Tree)
    requires |keys| >= 1
    ensures r.Keys == m.Keys + {keys[0]}
    ensures forall k :: k in m && k != keys[0] ==> r[k] == m[k]
    decreases |keys|
  {
    var k := keys[0];
    if |keys| == 1 then m[k := v]
    else if k in m && Truthy(m[k]) then
      match m[k]
      case VMap(child) => m[k := VMap(Write(child, keys[1..], v))]
      case _ => m
    else m[k := VMap(Write(map[], keys[1..], v))]
  }

  /** The walk reaches a truthy non-object at an intermediate key: the assignment after it throws. */
  predicate Blocked(m: Tree, keys: seq<string>)
    ensures |keys| <= 1 ==> !Blocked(m, keys)
    ensures Blocked(m, keys) ==> keys[0] in m && Truthy(m[keys[0]])
    decreases |keys|
  {
    && |keys| >= 2
    && keys[0] in m
    && Truthy(m[keys[0]])
    && match m[keys[0]]
       case VMap(child) => Blocked(child, keys[1..])
       case _ => true
  }

  /** A truthy value that is not an object sits at this key path. */
  predicate TruthyScalarAt(m: Tree, p: seq<string>) {
    match Get(m, p)
    case Some(x) => Truthy(x) && !x.VMap?
    case None => false
  }

  /** The nested objects `{k0: {k1: ... {kn: v}}}` that a path written into nothing produces. */
  function Chain(keys: seq<string>, v: Value): Tree
    requires |keys| >= 1
    decreases |keys|
  {
    if |keys| == 1 then map[keys[0] := v] else map[keys[0] := VMap(Chain(keys[1..], v))]
  }

  /** setPath throws exactly when some proper prefix of the path holds a truthy non-object. */
  lemma {:induction false} BlockedIff(m: Tree, keys: seq<string>)
    ensures Blocked(m, keys) <==> exists i :: 1 <= i < |keys| && TruthyScalarAt(m, keys[..i])
    decreases |keys|
  {
    if Blocked(m, keys) {
      var x := m[keys[0]];
      assert Get(m, keys[..1]) == Lookup(x, []) by {
        assert keys[..1][1..] == [];
      }
      if x.VMap? {
        var child := x.m;
        BlockedIff(child, keys[1..]);
        var j :| 1 <= j < |keys[1..]| && TruthyScalarAt(child, keys[1..][..j]);
        assert keys[..j + 1][1..] == keys[1..][..j];
        assert Get(m, keys[..j + 1]) == Get(child, keys[1..][..j]);
        assert TruthyScalarAt(m, keys[..j + 1]);
      } else {
        assert TruthyScalarAt(m, keys[..1]);
      }
    }
    if i :| 1 <= i < |keys| && TruthyScalarAt(m, keys[..i]) {
      assert keys[..i][0] == keys[0];
      var x := m[keys[0]];
      if i == 1 {
        assert Get(m, keys[..1]) == Lookup(x, []) by {
          assert keys[..1][1..] == [];
        }
      } else {
        assert keys[..i][1..] == keys[1..][..i - 1];
        assert Get(m, keys[..i]) == Lookup(x, keys[1..][..i - 1]);
        if x.VMap? {
          assert Get(m, keys[..i]) == Get(x.m, keys[1..][..i - 1]);
          BlockedIff(x.m, keys[1..]);
        }
      }
    }
  }

  /** When setPath throws, it has changed nothing yet and the path reads as missing. */
  lemma {:induction false} BlockedLeavesTree(m: Tree, keys: seq<string>, v: Value)
    requires |keys| >= 1
    requires Blocked(m, keys)
    ensures Write(m, keys, v) == m
    ensures Get(m, keys) == None
    decreases |keys|
  {
    var x := m[keys[0]];
    assert Get(m, keys) == Lookup(x, keys[1..]);
    if x.VMap? {
      BlockedLeavesTree(x.m, keys[1..], v);
      assert m[keys[0] := VMap(x.m)] == m;
      assert Get(m, keys) == Get(x.m, keys[1..]);
    }
  }

  /** Get after set: a path that does not throw reads back the value just written. */
  lemma {:induction false} WriteGet(m: Tree, keys: seq<string>, v: Value)
    requires |keys| >= 1
    requires !Blocked(m, keys)
    ensures Get(Write(m, keys, v), keys) == Some(v)
    decreases |keys|
  {
    var k := keys[0];
    var r := Write(m, keys, v);
    if |keys| == 1 {
      assert Get(r, keys) == Lookup(r[k], keys[1..]);
      assert keys[1..] == [];
    } else {
      assert r[k].VMap? && Get(r, keys) == Get(r[k].m, keys[1..]);
      if k in m && Truthy(m[k]) {
        WriteGet(m[k].m, keys[1..], v);
      } else {
        WriteGet(map[], keys[1..], v);
      }
    }
  }

  /** Every path that parts ways with the written one reads as before: siblings are kept at every level. */
  lemma {:induction false} WriteKeepsOthers(m: Tree, keys: seq<string>, v: Value, q: seq<string>)
    requires |keys| >= 1
    requires Diverge(q, keys)
    ensures Get(Write(m, keys, v), q) == Get(m, q)
    decreases |keys|
  {
    var k := keys[0];
    if q[0] == k {
      if k in m && Truthy(m[k]) {
        if m[k].VMap? {
          WriteKeepsOthers(m[k].m, keys[1..], v, q[1..]);
        }
      } else {
        var r := Write(m, keys, v);
        WriteKeepsOthers(map[], keys[1..], v, q[1..]);
        assert Get(r, q) == Get(r[k].m, q[1..]);
        assert Get(map[], q[1..]) == None;
        assert k in m ==> Get(m, q) == Lookup(m[k], q[1..]) == None;
      }
    }
  }

  /** Writing into an empty object builds the chain of fresh objects down to the value. */
  lemma {:induction false} WriteIntoEmpty(keys: seq<string>, v: Value)
    requires |keys| >= 1
    ensures Write(map[], keys, v) == Chain(keys, v)
    ensures !Blocked(map[], keys)
    decreases |keys|
  {
    if |keys| > 1 {
      WriteIntoEmpty(keys[1..], v);
    }
  }

  /**
   * A missing or falsy intermediate value is replaced by a fresh object holding only the rest of
   * the path: whatever was there is dropped.
   */
  lemma FalsyIntermediateReplaced(m: Tree, keys: seq<string>, v: Value)
    requires |keys| >= 2
    requires keys[0] !in m || !Truthy(m[keys[0]])
    ensures Write(m, keys, v) == m[keys[0] := VMap(Chain(keys[1..], v))]
    ensures !Blocked(m, keys)
  {
    WriteIntoEmpty(keys[1..], v);
  }

  /** `obj[key] || {}` where that value is an object or falsy: the object the walk descends into. */
  function Child(m: Tree, k: string): Tree {
    if k in m && Truthy(m[k]) && m[k].VMap? then m[k].m else map[]
  }

  /**
   * What descending from `parent` into `child` at keys[j] does to the rest of the write: it is
   * made inside `child`, and it throws exactly when it throws there.
   */
  ghost predicate Linked(parent: Tree, child: Tree, keys: seq<string>, j: nat, v: Value)
    requires j + 1 < |keys|
  {
    && Write(parent, keys[j..], v) == parent[keys[j] := VMap(Write(child, keys[j + 1..], v))]
    && Blocked(parent, keys[j..]) == Blocked(child, keys[j + 1..])
  }

  /** `child` is the object `parent[keys[j]] || {}` that the walk descends into, and they are Linked. */
  ghost predicate Descent(parent: Tree, child: Tree, keys: seq<string>, j: nat, v: Value)
    requires j + 1 < |keys|
  {
    child == Child(parent, keys[j]) && Linked(parent, child, keys, j, v)
  }

  /** One step of the walk, where the intermediate value is an object or falsy. */
  lemma DescendStep(m: Tree, keys: seq<string>, j: nat, v: Value)
    requires j + 1 < |keys|
    requires keys[j] in m && Truthy(m[keys[j]]) ==> m[keys[j]].VMap?
    ensures Linked(m, Child(m, keys[j]), keys, j, v)
  {
    assert keys[j..][0] == keys[j] && keys[j..][1..] == keys[j + 1..];
    var k := keys[j];
    if k in m && Truthy(m[k]) {
      assert m[k := VMap(m[k].m)] == m;
    }
  }

  /**
   * The walk of `keys.reduce((obj, key) => obj[key] = obj[key] || {}, obj)`: levels[j] is the
   * object in which keys[j] is looked up. It stops early, with `ok` false, at a truthy non-object.
   */
  method Walk(m: Tree, keys: seq<string>, v: Value) returns (levels: seq<Tree>, ok: bool)
    requires |keys| >= 1
    ensures 1 <= |levels| <= |keys| && levels[0] == m
    ensures forall j :: 0 <= j < |levels| - 1 ==> levels[j + 1] == Child(levels[j], keys[j])
    ensures forall j :: 0 <= j < |levels| - 1 ==> Linked(levels[j], levels[j + 1], keys, j, v)
    ensures ok ==> |levels| == |keys|
    ensures Blocked(m, keys) == Blocked(levels[|levels| - 1], keys[|levels| - 1..])
    ensures ok == !Blocked(m, keys)
  {
    var last := |keys| - 1;
    levels := [m];
    var i := 0;
    ok := true;
    while i < last && ok
      invariant 0 <= i <= last
      invariant |levels| == i + 1 && levels[0] == m
      invariant forall j :: 0 <= j < i ==> Descent(levels[j], levels[j + 1], keys, j, v)
      invariant Blocked(m, keys) == Blocked(levels[i], keys[i..])
      invariant ok == !Blocked(levels[i], keys[i..]) || i < last
      invariant !ok ==> Blocked(levels[i], keys[i..])
      decreases last - i, ok
    {
      var cur := levels[i];
      var k := keys[i];
      if k in cur && Truthy(cur[k]) && !cur[k].VMap? {
        // a primitive: the next property assignment on it throws
        assert keys[i..][0] == k && keys[i..][1..] == keys[i + 1..];
        ok := false;
      } else {
        // obj[key] = obj[key] || {}
        DescendStep(cur, keys, i, v);
        ghost var prev := levels;
        levels := levels + [Child(cur, k)];
        assert forall j :: 0 <= j <= i ==> levels[j] == prev[j];
        assert Descent(levels[i], levels[i + 1], keys, i, v);
        i := i + 1;
      }
    }
  }

  /** The final assignment `lastObj[lastKey] = val`. */
  lemma WriteLast(m: Tree, keys: seq<string>, v: Value)
    requires |keys| >= 1
    ensures Write(m, keys[|keys| - 1..], v) == m[keys[|keys| - 1] := v]
  {
    assert keys[|keys| - 1..] == [keys[|keys| - 1]];
  }

  /** Puts the updated objects back along the walked path, innermost first. */
  method Reassemble(levels: seq<Tree>, keys: seq<string>, v: Value, inner: Tree) returns (r: Tree)
    requires 1 <= |levels| <= |keys|
    requires forall j :: 0 <= j < |levels| - 1 ==> Linked(levels[j], levels[j + 1], keys, j, v)
    requires inner == Write(levels[|levels| - 1], keys[|levels| - 1..], v)
    ensures r == Write(levels[0], keys, v)
  {
    r := inner;
    var j := |levels| - 1;
    while j > 0
      invariant 0 <= j < |levels|
      invariant r == Write(levels[j], keys[j..], v)
    {
      assert Linked(levels[j - 1], levels[j], keys, j - 1, v);
      j := j - 1;
      r := levels[j][keys[j] := VMap(r)];
    }
    assert keys[0..] == keys;
  }

  /**
   * The object `values` that deploy builds, updated in place by setPath.
   * Nested objects are values here, so aliasing between the caller's objects and this tree is not modelled.
   */
  class ValuesTree {
    var root: Tree

    constructor (base: Tree)
      ensures root == base
    {
      root := base;
    }

    /** setPath(root, path, val); `ok` is false where the source throws (BlockedLeavesTree: the tree is then unchanged). */
    method SetPath(path: string, val: Value) returns (ok: bool)
      modifies this
      ensures root == Write(old(root), Split(path), val)
      ensures ok == !Blocked(old(root), Split(path))
    {
      var keys := Split(path);
      var levels;
      levels, ok := Walk(root, keys, val);
      var n := |levels| - 1;
      var inner: Tree;
      if ok {
        // lastObj[lastKey] = val
        inner := levels[n][keys[n] := val];
        WriteLast(levels[n], keys, val);
      } else {
        BlockedLeavesTree(levels[n], keys[n..], val);
        inner := levels[n];
      }
      root := Reassemble(levels, keys, val, inner);
    }
  }
}
