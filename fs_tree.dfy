/**
 * The tree of the virtual file system (`FileSystemNode` of src/lib/fileSystem.ts).
 * A directory's children are kept in insertion order and are keyed by name:
 * looking up a name finds the first child carrying it.
 */
module FsTree {
  import opened Wrappers

  datatype Node =
    | File(name: string, content: string)
    | Dir(name: string, children: seq<Node>)

  datatype Kind = FileKind | DirKind

  function KindOf(n: Node): Kind {
    if n.Dir? then DirKind else FileKind
  }

  /** Index of the first child called `name`, or `|cs|` when there is none. */
  function IndexOf(cs: seq<Node>, name: string): (k: nat)
    ensures k <= |cs|
    ensures k < |cs| ==> cs[k].name == name
    ensures forall i :: 0 <= i < k ==> cs[i].name != name
  {
    if |cs| == 0 then 0
    else if cs[0].name == name then 0
    else 1 + IndexOf(cs[1..], name)
  }

  predicate HasChild(cs: seq<Node>, name: string) {
    IndexOf(cs, name) < |cs|
  }

  lemma HasChildIff(cs: seq<Node>, name: string)
    ensures HasChild(cs, name) <==> exists i :: 0 <= i < |cs| && cs[i].name == name
  {
  }

  /** The node reached from `n` by following the names in `segs`; `None` when a step fails. */
  function GetAt(n: Node, segs: seq<string>): Option<Node>
    decreases |segs|
  {
    if |segs| == 0 then Some(n)
    else match n
      case File(_, _) => None
      case Dir(_, cs) =>
        var k := IndexOf(cs, segs[0]);
        if k < |cs| then GetAt(cs[k], segs[1..]) else None
  }

  /** `n` with the node at `segs` replaced by `m`; `n` itself when `segs` leads nowhere. */
  function ReplaceAt(n: Node, segs: seq<string>, m: Node): Node
    decreases |segs|
  {
    if |segs| == 0 then m
    else match n
      case File(_, _) => n
      case Dir(name, cs) =>
        var k := IndexOf(cs, segs[0]);
        if k < |cs| then Dir(name, cs[k := ReplaceAt(cs[k], segs[1..], m)]) else n
  }

  predicate IsPrefix(p: seq<string>, q: seq<string>) {
    |p| <= |q| && q[..|p|] == p
  }

  /** Sibling names are pairwise different. */
  predicate DistinctNames(cs: seq<Node>) {
    forall i, j :: 0 <= i < j < |cs| ==> cs[i].name != cs[j].name
  }

  /** Every directory of the tree has pairwise different child names, as the keys of a dictionary do. */
  predicate WellFormed(n: Node) {
    match n
    case File(_, _) => true
    case Dir(_, cs) => DistinctNames(cs) && forall i :: 0 <= i < |cs| ==> WellFormed(cs[i])
  }

  /** `Names(cs)` lists the children's names in order. */
  function Names(cs: seq<Node>): (r: seq<string>)
    ensures |r| == |cs|
    ensures forall i :: 0 <= i < |cs| ==> r[i] == cs[i].name
  {
    if |cs| == 0 then [] else [cs[0].name] + Names(cs[1..])
  }

  // ---------------------------------------------------------------------
  // Lemmas

  /** A node found by a non-empty path carries the path's last name. */
  lemma {:induction false} GetAtName(n: Node, p: seq<string>)
    requires p != [] && GetAt(n, p).Some?
    ensures GetAt(n, p).value.name == p[|p| - 1]
  {
    var cs := n.children;
    var k := IndexOf(cs, p[0]);
    if |p| > 1 {
      GetAtName(cs[k], p[1..]);
    }
  }

  /** Walking `p + q` is walking `p`, then `q`. */
  lemma {:induction false} GetAtAppend(n: Node, p: seq<string>, q: seq<string>)
    ensures GetAt(n, p + q) == match GetAt(n, p) case None => None case Some(x) => GetAt(x, q)
  {
    if |p| == 0 {
      assert p + q == q;
    } else if n.Dir? {
      var k := IndexOf(n.children, p[0]);
      assert (p + q)[0] == p[0];
      assert (p + q)[1..] == p[1..] + q;
      if k < |n.children| {
        GetAtAppend(n.children[k], p[1..], q);
      }
    }
  }

  /** Two child lists with the same names find the same index for every name. */
  lemma {:induction false} IndexOfSameNames(cs: seq<Node>, ds: seq<Node>, name: string)
    requires |cs| == |ds|
    requires forall i :: 0 <= i < |cs| ==> cs[i].name == ds[i].name
    ensures IndexOf(cs, name) == IndexOf(ds, name)
  {
    if |cs| > 0 && cs[0].name != name {
      IndexOfSameNames(cs[1..], ds[1..], name);
    }
  }

  /** The replacement keeps the name and the kind of the node it is applied to. */
  lemma {:induction false} ReplaceAtShape(n: Node, p: seq<string>, m: Node)
    requires p != []
    ensures ReplaceAt(n, p, m).name == n.name
    ensures ReplaceAt(n, p, m).Dir? == n.Dir?
  {
  }

  /** Replacement where nothing is found changes nothing. */
  lemma {:induction false} ReplaceAtMissing(n: Node, p: seq<string>, m: Node)
    requires GetAt(n, p).None?
    ensures ReplaceAt(n, p, m) == n
  {
    if n.Dir? {
      var k := IndexOf(n.children, p[0]);
      if k < |n.children| {
        ReplaceAtMissing(n.children[k], p[1..], m);
        assert n.children[k := n.children[k]] == n.children;
      }
    }
  }

  /** After replacing the node at `p` by `m` (carrying the name `p` ends with), `p + q` leads into `m`. */
  lemma {:induction false} GetReplaced(n: Node, p: seq<string>, m: Node, q: seq<string>)
    requires GetAt(n, p).Some?
    requires p != [] ==> m.name == p[|p| - 1]
    ensures GetAt(ReplaceAt(n, p, m), p + q) == GetAt(m, q)
  {
    if |p| == 0 {
      assert p + q == q;
    } else {
      var cs := n.children;
      var k := IndexOf(cs, p[0]);
      var c := ReplaceAt(cs[k], p[1..], m);
      var ds := cs[k := c];
      if |p| > 1 {
        ReplaceAtShape(cs[k], p[1..], m);
      }
      assert c.name == cs[k].name;
      IndexOfSameNames(cs, ds, p[0]);
      assert (p + q)[0] == p[0];
      assert (p + q)[1..] == p[1..] + q;
      GetReplaced(cs[k], p[1..], m, q);
    }
  }

  /** Replacing the node at `p` leaves every path that neither extends nor is extended by `p` alone. */
  lemma {:induction false} GetElsewhere(n: Node, p: seq<string>, m: Node, q: seq<string>)
    requires p != [] ==> m.name == p[|p| - 1]
    requires !IsPrefix(p, q) && !IsPrefix(q, p)
    ensures GetAt(ReplaceAt(n, p, m), q) == GetAt(n, q)
  {
    assert p != [] && q != [];
    if n.Dir? {
      var cs := n.children;
      var k := IndexOf(cs, p[0]);
      if k < |cs| {
        var c := ReplaceAt(cs[k], p[1..], m);
        var ds := cs[k := c];
        if |p| > 1 {
          ReplaceAtShape(cs[k], p[1..], m);
        }
        assert c.name == cs[k].name;
        IndexOfSameNames(cs, ds, q[0]);
        var j := IndexOf(cs, q[0]);
        if p[0] == q[0] {
          assert !IsPrefix(p[1..], q[1..]) && !IsPrefix(q[1..], p[1..]);
          GetElsewhere(cs[k], p[1..], m, q[1..]);
        } else if j < |cs| {
          assert j != k;
        }
      }
    }
  }

  /** Replacing a node by a well-formed one with the same name keeps the tree well formed. */
  lemma {:induction false} ReplaceAtWellFormed(n: Node, p: seq<string>, m: Node)
    requires WellFormed(n) && WellFormed(m)
    requires p != [] ==> m.name == p[|p| - 1]
    ensures WellFormed(ReplaceAt(n, p, m))
  {
    if |p| > 0 && n.Dir? {
      var cs := n.children;
      var k := IndexOf(cs, p[0]);
      if k < |cs| {
        var c := ReplaceAt(cs[k], p[1..], m);
        if |p| > 1 {
          ReplaceAtShape(cs[k], p[1..], m);
        }
        ReplaceAtWellFormed(cs[k], p[1..], m);
        var ds := cs[k := c];
        assert forall i :: 0 <= i < |ds| ==> ds[i].name == cs[i].name;
        assert forall i :: 0 <= i < |ds| ==> WellFormed(ds[i]);
      }
    }
  }
}
