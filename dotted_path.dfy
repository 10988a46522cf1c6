/** `set_path` of scripts/inject_secrets.py: writing a value at a dotted path
    inside a loaded document, creating or replacing the mappings on the way. */
module DottedPath {
  import opened Base
  import opened Text
  import opened Tree

  /** The mapping found under `k`, or a fresh empty one when `k` is absent or
      holds anything but a mapping (which `set_path` then throws away). */
  function Child(m: map<string, Node>, k: string): map<string, Node>
  {
    if k in m && m[k].Map? then m[k].entries else map[]
  }

  /** The mapping `m` with `value` written at the segments `parts`. */
  function Put(m: map<string, Node>, parts: seq<string>, value: Node): map<string, Node>
    requires |parts| >= 1
    decreases |parts|
  {
    if |parts| == 1 then m[parts[0] := value]
    else m[parts[0] := Map(Put(Child(m, parts[0]), parts[1..], value))]
  }

  function NotMappingError(dotted: string): string
  {
    "Parent for '" + dotted + "' is not a mapping"
  }

  /** The document `set_path(root, dotted, value)` leaves behind, or the
      error it raises. */
  function Assign(root: Node, dotted: string, value: Node): Result<Node>
  {
    if root.Map? then Ok(Map(Put(root.entries, Split(dotted, '.'), value)))
    else Err(NotMappingError(dotted))
  }

  /** `path` leads through `n` to a mapping. */
  predicate IsMapAt(n: Node, path: seq<string>)
  {
    Lookup(n, path).Some? && Lookup(n, path).value.Map?
  }

  /** The mappings a walk down the path has passed, each with the key the
      walk went down at. */
  type Trail = seq<(map<string, Node>, string)>

  /** Writes `leaf` back into the mappings of `trail`, innermost first. */
  function Rebuild(trail: Trail, leaf: map<string, Node>): map<string, Node>
    decreases |trail|
  {
    if trail == [] then leaf
    else
      var (m, k) := trail[|trail| - 1];
      Rebuild(trail[..|trail| - 1], m[k := Map(leaf)])
  }

  /** The walk of `set_path`: `cur` moves down one segment per step, and a
      missing or non-mapping child is replaced by an empty mapping first. The
      in-place writes are kept on `trail` and put back together at the end. */
  method SetPath(root: Node, dotted: string, value: Node) returns (r: Result<Node>)
    ensures r == Assign(root, dotted, value)
  {
    var parts := Split(dotted, '.');
    var cur := root;
    var trail: Trail := [];
    var i := 0;
    while i < |parts| - 1
      invariant 0 <= i <= |parts| - 1
      invariant i == 0 ==> cur == root && trail == []
      invariant i > 0 ==> cur.Map? && root.Map?
      invariant cur.Map? && root.Map? ==>
        Put(root.entries, parts, value) == Rebuild(trail, Put(cur.entries, parts[i..], value))
    {
      var k := parts[i];
      if !cur.Map? {
        return Err(NotMappingError(dotted));
      }
      var next := Map(Child(cur.entries, k));
      assert parts[i..][0] == k && parts[i..][1..] == parts[i + 1..];
      assert (trail + [(cur.entries, k)])[..|trail|] == trail;
      trail := trail + [(cur.entries, k)];
      cur := next;
      i := i + 1;
    }
    if !cur.Map? {
      return Err(NotMappingError(dotted));
    }
    var leaf := cur.entries[parts[|parts| - 1] := value];
    assert parts[i..] == [parts[|parts| - 1]];
    r := Ok(Map(Rebuild(trail, leaf)));
  }

  /** After the write the path leads to `value`, and every proper prefix of
      the path leads to a mapping. */
  lemma {:induction false} PutReaches(m: map<string, Node>, parts: seq<string>, value: Node)
    requires |parts| >= 1
    ensures Lookup(Map(Put(m, parts, value)), parts) == Some(value)
    ensures forall k :: 0 <= k < |parts| ==> IsMapAt(Map(Put(m, parts, value)), parts[..k])
    decreases |parts|
  {
    var n := Map(Put(m, parts, value));
    if |parts| > 1 {
      var child := Map(Put(Child(m, parts[0]), parts[1..], value));
      PutReaches(Child(m, parts[0]), parts[1..], value);
      assert n.entries[parts[0]] == child;
      forall k | 0 <= k < |parts|
        ensures IsMapAt(n, parts[..k])
      {
        if k > 0 {
          assert parts[..k][0] == parts[0] && parts[..k][1..] == parts[1..][..k - 1];
        }
      }
    }
  }

  /** A path that neither leads to nor passes through the written one reads
      the same before and after the write. */
  lemma {:induction false} PutFrame(m: map<string, Node>, parts: seq<string>, value: Node, q: seq<string>)
    requires |parts| >= 1 && !(q <= parts) && !(parts <= q)
    ensures Lookup(Map(Put(m, parts, value)), q) == Lookup(Map(m), q)
    decreases |parts|
  {
    if q[0] == parts[0] {
      PutFrame(Child(m, parts[0]), parts[1..], value, q[1..]);
    }
  }

  /** `set_path` succeeds exactly on a mapping root; it then leaves the value
      at the path and a mapping at every step before it, whatever was there
      before (a scalar on the way is replaced rather than reported). */
  lemma AssignReaches(root: Node, dotted: string, value: Node)
    ensures Assign(root, dotted, value).Ok? <==> root.Map?
    ensures root.Map? ==>
      && Lookup(Assign(root, dotted, value).value, Split(dotted, '.')) == Some(value)
      && forall k :: 0 <= k < |Split(dotted, '.')| ==>
           IsMapAt(Assign(root, dotted, value).value, Split(dotted, '.')[..k])
  {
    if root.Map? {
      PutReaches(root.entries, Split(dotted, '.'), value);
    }
  }

  /** `set_path` changes nothing off the path: every path that is neither a
      prefix nor an extension of the written one reads as before. */
  lemma AssignFrame(root: Node, dotted: string, value: Node, q: seq<string>)
    requires root.Map?
    requires !(q <= Split(dotted, '.')) && !(Split(dotted, '.') <= q)
    ensures Lookup(Assign(root, dotted, value).value, q) == Lookup(root, q)
  {
    PutFrame(root.entries, Split(dotted, '.'), value, q);
  }

  /** The three segments of `a.b.c`. */
  lemma SplitABC()
    ensures Split("a.b.c", '.') == ["a", "b", "c"]
  {
    var parts := ["a", "b", "c"];
    assert Join(parts, ".") == "a.b.c" by {
      assert parts[1..] == ["b", "c"];
      assert parts[1..][1..] == ["c"];
    }
    SplitJoin(parts, '.');
  }

  /** From an empty document `a.b.c` builds `{a: {b: {c: value}}}`. */
  lemma AssignFromEmpty(value: Node)
    ensures Assign(Map(map[]), "a.b.c", value) ==
      Ok(Map(map["a" := Map(map["b" := Map(map["c" := value])])]))
  {
    SplitABC();
    var parts := ["a", "b", "c"];
    assert parts[1..] == ["b", "c"] && parts[1..][1..] == ["c"];
  }

  /** A string standing where a mapping is needed on the way is discarded,
      not reported, and the sibling keys stay. */
  lemma AssignReplacesScalar(value: Node)
    ensures Assign(Map(map["a" := Str("x"), "z" := Num(1)]), "a.b", value) ==
      Ok(Map(map["a" := Map(map["b" := value]), "z" := Num(1)]))
  {
    var parts := ["a", "b"];
    assert Join(parts, ".") == "a.b" by {
      assert parts[1..] == ["b"];
    }
    SplitJoin(parts, '.');
    var m := map["a" := Str("x"), "z" := Num(1)];
    assert parts[1..] == ["b"];
    assert Child(m, "a") == map[];
    assert Put(m, parts, value) == m["a" := Map(map["b" := value])];
    assert m["a" := Map(map["b" := value])] == map["a" := Map(map["b" := value]), "z" := Num(1)];
  }

  /** A root is the only thing `set_path` refuses: any root that is not a
      mapping raises, with the dotted path in the message. */
  lemma AssignRejectsScalarRoot(root: Node, dotted: string, value: Node)
    requires !root.Map?
    ensures Assign(root, dotted, value) == Err("Parent for '" + dotted + "' is not a mapping")
  {
  }
}
