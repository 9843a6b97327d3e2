/**
 * The configuration tree ("helm values"): nested string-keyed maps with
 * string leaves, the key-wise deep merge that projectors use to add a
 * subtree to it, and the facts that make such merges compose.
 */
module HelmValues {
  import opened Wrappers

  /** A node of the tree: a string leaf or a map of named children. */
  datatype V = Str(s: string) | Node(children: map<string, V>)

  type Tree = map<string, V>

  /**
   * Deep merge of `b` into `a`: where both are maps the children are
   * merged key by key, otherwise `b` replaces `a`.
   */
  function MergeV(a: V, b: V): (r: V)
    ensures b.Str? || a.Str? ==> r == b
    ensures a.Node? && b.Node? ==> r.Node? && r.children.Keys == a.children.Keys + b.children.Keys
    decreases b
  {
    match b
    case Str(_) => b
    case Node(nb) =>
      match a
      case Str(_) => b
      case Node(na) =>
        Node(map k | k in na.Keys + nb.Keys ::
               if k !in nb then na[k] else if k in na then MergeV(na[k], nb[k]) else nb[k])
  }

  /** Merge of a patch into an accumulator; keys the patch lacks keep their subtrees. */
  function Merge(acc: Tree, patch: Tree): (r: Tree)
    ensures r.Keys == acc.Keys + patch.Keys
    ensures forall k :: k in acc && k !in patch ==> r[k] == acc[k]
    ensures forall k :: k in patch && k !in acc ==> r[k] == patch[k]
    ensures forall k :: k in patch && k in acc ==> r[k] == MergeV(acc[k], patch[k])
  {
    MergeV(Node(acc), Node(patch)).children
  }

  /** The subtree at a path, if the path leads through maps only. */
  function LookupV(v: V, path: seq<string>): Option<V>
    decreases |path|
  {
    if |path| == 0 then Some(v)
    else match v
      case Str(_) => None
      case Node(c) => if path[0] in c then LookupV(c[path[0]], path[1..]) else None
  }

  function Lookup(t: Tree, path: seq<string>): Option<V>
  {
    LookupV(Node(t), path)
  }

  /** One step of a lookup: the first key of the path selects a child. */
  lemma LookupCons(v: V, k: string, rest: seq<string>)
    ensures LookupV(v, [k] + rest) == if v.Node? && k in v.children then LookupV(v.children[k], rest) else None
  {
    assert ([k] + rest)[1..] == rest;
  }

  /** Looking up a concatenated path is looking up its second part from where the first ends. */
  lemma {:induction false} LookupAppend(v: V, p: seq<string>, q: seq<string>)
    ensures LookupV(v, p + q) == if LookupV(v, p).Some? then LookupV(LookupV(v, p).value, q) else None
    decreases |p|
  {
    if |p| == 0 {
      assert p + q == q;
    } else {
      assert (p + q)[0] == p[0];
      assert (p + q)[1..] == p[1..] + q;
      if v.Node? && p[0] in v.children {
        LookupAppend(v.children[p[0]], p[1..], q);
      }
    }
  }

  /**
   * A patch leaves the subtree at `path` alone: walking the patch along
   * the path reaches a missing key before it reaches a leaf or the end.
   */
  predicate UntouchedV(patch: V, path: seq<string>)
    decreases |path|
  {
    match patch
    case Str(_) => false
    case Node(c) => |path| > 0 && (path[0] !in c || UntouchedV(c[path[0]], path[1..]))
  }

  predicate Untouched(patch: Tree, path: seq<string>)
  {
    UntouchedV(Node(patch), path)
  }

  /** Neither path is a prefix of the other: they part at some position. */
  predicate Diverges(p: seq<string>, q: seq<string>)
    decreases |p|
  {
    |p| > 0 && |q| > 0 && (p[0] != q[0] || Diverges(p[1..], q[1..]))
  }

  /** Paths that agree on their first key and part later part in their tails. */
  lemma DivergesTail(p: seq<string>, q: seq<string>)
    requires Diverges(p, q) && p[0] == q[0]
    ensures |p| > 1 && |q| > 1 && Diverges(p[1..], q[1..])
  {
  }

  /** A path that parts from a one-key path starts with a different key. */
  lemma DivergesSingle(p: seq<string>, k: string)
    requires Diverges(p, [k])
    ensures p[0] != k
  {
    assert [k][1..] == [];
    assert !Diverges(p[1..], [k][1..]);
  }

  /** Paths that agree before position i and differ at i part. */
  lemma {:induction false} DivergesAt(p: seq<string>, q: seq<string>, i: nat)
    requires i < |p| && i < |q| && p[..i] == q[..i] && p[i] != q[i]
    ensures Diverges(p, q)
    decreases i
  {
    if i > 0 {
      assert p[0] == p[..i][0] == q[..i][0] == q[0];
      assert p[1..][..i - 1] == p[..i][1..] == q[..i][1..] == q[1..][..i - 1];
      DivergesAt(p[1..], q[1..], i - 1);
    }
  }

  /** A patch made of two parts leaves alone what both parts leave alone. */
  lemma {:induction false} UntouchedMergeV(a: V, b: V, path: seq<string>)
    requires UntouchedV(a, path) && UntouchedV(b, path)
    ensures UntouchedV(MergeV(a, b), path)
    decreases |path|
  {
    var k := path[0];
    var na, nb := a.children, b.children;
    var m := MergeV(a, b).children;
    if k in na && k in nb {
      assert m[k] == MergeV(na[k], nb[k]);
      UntouchedMergeV(na[k], nb[k], path[1..]);
    }
  }

  /** A path the patch leaves alone leads nowhere in the patch. */
  lemma {:induction false} UntouchedNotInPatch(patch: V, path: seq<string>)
    requires UntouchedV(patch, path)
    ensures LookupV(patch, path) == None
    decreases |path|
  {
    var c := patch.children;
    if path[0] in c {
      UntouchedNotInPatch(c[path[0]], path[1..]);
    }
  }

  /** Merging never changes a subtree the patch leaves alone. */
  lemma {:induction false} MergeKeepsUntouchedV(a: V, b: V, path: seq<string>)
    requires UntouchedV(b, path)
    ensures LookupV(MergeV(a, b), path) == LookupV(a, path)
    decreases |path|
  {
    var nb := b.children;
    var k := path[0];
    match a
    case Str(_) =>
      UntouchedNotInPatch(b, path);
    case Node(na) =>
      var m := MergeV(a, b).children;
      if k in nb {
        if k in na {
          assert m[k] == MergeV(na[k], nb[k]);
          MergeKeepsUntouchedV(na[k], nb[k], path[1..]);
        } else {
          assert m[k] == nb[k];
          UntouchedNotInPatch(nb[k], path[1..]);
        }
      }
  }

  /** Every leaf of the patch is in the merge, at the same path. */
  lemma {:induction false} MergePlacesLeavesV(a: V, b: V, path: seq<string>, s: string)
    requires LookupV(b, path) == Some(Str(s))
    ensures LookupV(MergeV(a, b), path) == Some(Str(s))
    decreases |path|
  {
    if |path| > 0 && a.Node? {
      var k := path[0];
      var na, nb := a.children, b.children;
      var m := MergeV(a, b).children;
      if k in na {
        assert m[k] == MergeV(na[k], nb[k]);
        MergePlacesLeavesV(na[k], nb[k], path[1..], s);
      } else {
        assert m[k] == nb[k];
      }
    }
  }

  /** Merging a tree into itself changes nothing. */
  lemma {:induction false} MergeSelfV(b: V)
    ensures MergeV(b, b) == b
    decreases b
  {
    if b.Node? {
      var nb := b.children;
      var m := MergeV(b, b).children;
      forall k | k in nb
        ensures m[k] == nb[k]
      {
        MergeSelfV(nb[k]);
      }
      assert m == nb;
    }
  }

  /** Merging the same patch a second time changes nothing. */
  lemma {:induction false} MergeIdempotentV(a: V, b: V)
    ensures MergeV(MergeV(a, b), b) == MergeV(a, b)
    decreases b
  {
    match b
    case Str(_) =>
    case Node(nb) =>
      match a
      case Str(_) =>
        MergeSelfV(b);
      case Node(na) =>
        var m := MergeV(a, b).children;
        var m2 := MergeV(MergeV(a, b), b).children;
        forall k | k in m
          ensures m2[k] == m[k]
        {
          if k in nb {
            if k in na {
              MergeIdempotentV(na[k], nb[k]);
            } else {
              MergeSelfV(nb[k]);
            }
          }
        }
        assert m2 == m;
  }

  /** Merging a patch into the empty tree yields the patch. */
  lemma MergeIntoEmpty(patch: Tree)
    ensures Merge(map[], patch) == patch
  {
    assert Merge(map[], patch).Keys == patch.Keys;
  }

  /** Tree-level form of MergeKeepsUntouchedV: siblings of what a patch writes survive. */
  lemma MergeKeepsUntouched(acc: Tree, patch: Tree, path: seq<string>)
    requires Untouched(patch, path)
    ensures Lookup(Merge(acc, patch), path) == Lookup(acc, path)
  {
    MergeKeepsUntouchedV(Node(acc), Node(patch), path);
  }

  /** Tree-level form of MergePlacesLeavesV. */
  lemma MergePlacesLeaves(acc: Tree, patch: Tree, path: seq<string>, s: string)
    requires Lookup(patch, path) == Some(Str(s))
    ensures Lookup(Merge(acc, patch), path) == Some(Str(s))
  {
    MergePlacesLeavesV(Node(acc), Node(patch), path, s);
  }

  /** Tree-level form of MergeIdempotentV. */
  lemma MergeIdempotent(acc: Tree, patch: Tree)
    ensures Merge(Merge(acc, patch), patch) == Merge(acc, patch)
  {
    MergeIdempotentV(Node(acc), Node(patch));
  }

  /**
   * The caller's values object: a map that projectors change in place,
   * as the caller inspects its own argument afterwards.
   */
  class Values {
    var tree: Tree

    constructor (t: Tree)
      ensures tree == t
    {
      tree := t;
    }

    /** Merges a patch into the tree in place. */
    method MergeIn(patch: Tree)
      modifies this
      ensures tree == Merge(old(tree), patch)
    {
      tree := Merge(tree, patch);
    }
  }
}
