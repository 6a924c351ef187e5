/** Texts with variations: every tree reads back, and what is kept of it is its main line. */
module SgfTrees {
  import opened Rules
  import opened Sgf
  import opened SgfRoundTrip

  function DumpTree(t: Tree): string
    decreases t, 0
  {
    "(" + DumpNodes(t.nodes) + DumpTrees(t.subtrees) + ")"
  }

  function DumpTrees(ts: seq<Tree>): string
    decreases ts, 1
  {
    if ts == [] then [] else DumpTree(ts[0]) + DumpTrees(ts[1..])
  }

  ghost predicate WritableTree(t: Tree) {
    && (forall k :: 0 <= k < |t.nodes| ==> Writable(t.nodes[k]))
    && forall k :: 0 <= k < |t.subtrees| ==> WritableTree(t.subtrees[k])
  }

  lemma TreeText(t: Tree, r: string)
    ensures DumpTree(t) + r == "(" + (DumpNodes(t.nodes) + (DumpTrees(t.subtrees) + (")" + r)))
  {
  }

  lemma TreesStart(ts: seq<Tree>, r: string)
    requires StartsWith(r, ')')
    ensures StartsWith(DumpTrees(ts) + r, '(') || StartsWith(DumpTrees(ts) + r, ')')
  {
    hide DumpNodes;
    if ts == [] {
      assert DumpTrees(ts) + r == r;
    }
  }

  lemma OneSubtree(s: string, t: Tree, rest: string, ts: seq<Tree>, r: string)
    requires StartsWith(s, '(') && TreeAt(s) == Got(t, rest) && TreesAt(rest) == Got(ts, r)
    ensures TreesAt(s) == Got([t] + ts, r)
  {
    hide TreeAt;
    assert SkipSpace(s) == s;
  }

  lemma WholeTree(s: string, ns: seq<Node>, t: string, ts: seq<Tree>, r: string)
    requires NodesAt(s) == Got(ns, t) && TreesAt(t) == Got(ts, r) && StartsWith(r, ')')
    ensures TreeAt("(" + s) == Got(Tree(ns, ts), r[1..])
  {
    hide NodesAt, TreesAt;
    var u := "(" + s;
    assert SkipSpace(u) == u && u[1..] == s;
    NoNode(r);
  }

  /** Every tree of writable nodes, variations within variations, reads back before any remainder. */
  lemma {:induction false} TreeReadsBack(t: Tree, r: string)
    requires WritableTree(t)
    ensures TreeAt(DumpTree(t) + r) == Got(t, r)
    decreases t, 0
  {
    hide NodesAt, TreesAt, TreeAt, DumpNodes, DumpTrees;
    var close := ")" + r;
    TreesStart(t.subtrees, close);
    TreesReadBack(t.subtrees, close);
    NodesReadBack(t.nodes, DumpTrees(t.subtrees) + close);
    WholeTree(DumpNodes(t.nodes) + (DumpTrees(t.subtrees) + close), t.nodes, DumpTrees(t.subtrees) + close,
              t.subtrees, close);
    TreeText(t, r);
  }

  lemma {:induction false} TreesReadBack(ts: seq<Tree>, r: string)
    requires (forall k :: 0 <= k < |ts| ==> WritableTree(ts[k])) && StartsWith(r, ')')
    ensures TreesAt(DumpTrees(ts) + r) == Got(ts, r)
    decreases ts, 1
  {
    hide TreesAt, TreeAt, DumpTree;
    if ts == [] {
      assert DumpTrees(ts) + r == r;
      NoNode(r);
    } else {
      var tail := DumpTrees(ts[1..]) + r;
      TreeReadsBack(ts[0], tail);
      TreesReadBack(ts[1..], r);
      assert DumpTrees(ts) + r == DumpTree(ts[0]) + tail;
      TreeText(ts[0], tail);
      OneSubtree(DumpTree(ts[0]) + tail, ts[0], tail, ts[1..], r);
      assert [ts[0]] + ts[1..] == ts;
    }
  }

  // ----- the main line and the depth, by paths -----

  /** Each tree is a variation of the one before. */
  predicate IsPath(path: seq<Tree>) {
    path != [] && forall k :: 0 < k < |path| ==> path[k] in path[k - 1].subtrees
  }

  predicate IsFirst(t: Tree, u: Tree) {
    t.subtrees != [] && u == t.subtrees[0]
  }

  /** Each tree is the first variation of the one before, and the last has none. */
  predicate IsFirstPath(path: seq<Tree>) {
    && path != [] && path[|path| - 1].subtrees == []
    && forall k :: 0 < k < |path| ==> IsFirst(path[k - 1], path[k])
  }

  function NodesAlong(path: seq<Tree>): seq<Node> {
    if path == [] then [] else path[0].nodes + NodesAlong(path[1..])
  }

  lemma {:induction false} MainLineIsFirstPath(path: seq<Tree>)
    requires IsFirstPath(path)
    ensures MainLine(path[0]) == NodesAlong(path)
    decreases |path|
  {
    if |path| == 1 {
      assert NodesAlong(path[1..]) == [];
    } else {
      forall k | 0 < k < |path[1..]| ensures IsFirst(path[1..][k - 1], path[1..][k]) {
        assert path[1..][k] == path[k + 1] && path[1..][k - 1] == path[k];
      }
      assert IsFirst(path[0], path[1]);
      MainLineIsFirstPath(path[1..]);
    }
  }

  lemma {:induction false} DepthBoundsOne(ts: seq<Tree>, t: Tree)
    requires t in ts
    ensures Depth(t) <= DepthOfAll(ts)
    decreases |ts|
  {
    if t != ts[0] {
      DepthBoundsOne(ts[1..], t);
    }
  }

  /** No path is longer than the depth. */
  lemma {:induction false} DepthBoundsPaths(path: seq<Tree>)
    requires IsPath(path)
    ensures |path| <= Depth(path[0])
    decreases |path|
  {
    if |path| > 1 {
      forall k | 0 < k < |path[1..]| ensures path[1..][k] in path[1..][k - 1].subtrees {
        assert path[1..][k] == path[k + 1] && path[1..][k - 1] == path[k];
      }
      DepthBoundsPaths(path[1..]);
      assert path[1] in path[0].subtrees;
      DepthBoundsOne(path[0].subtrees, path[1]);
    }
  }

  lemma {:induction false} DeepestPath(t: Tree) returns (path: seq<Tree>)
    ensures IsPath(path) && path[0] == t && |path| == Depth(t)
    decreases t, 0
  {
    if t.subtrees == [] {
      path := [t];
    } else {
      var rest := DeepestOfAll(t.subtrees);
      path := [t] + rest;
    }
  }

  lemma {:induction false} DeepestOfAll(ts: seq<Tree>) returns (path: seq<Tree>)
    requires ts != []
    ensures IsPath(path) && path[0] in ts && |path| == DepthOfAll(ts)
    decreases ts, 1
  {
    path := DeepestPath(ts[0]);
    if |ts| > 1 && DepthOfAll(ts[1..]) > Depth(ts[0]) {
      path := DeepestOfAll(ts[1..]);
    } else if |ts| == 1 {
      assert ts[1..] == [];
    }
  }

  /** A path of more than a thousand trees, counted from the first. */
  ghost predicate TooDeep(t: Tree) {
    exists path :: IsPath(path) && path[0] == t && |path| > 1000
  }

  /** A text with variations is read as the nodes along its first variations, unless they are none or more than ten
      thousand, or some variation is nested deeper than a thousand. */
  lemma VariationsAreDropped(first: seq<Tree>, r: string)
    requires IsFirstPath(first) && WritableTree(first[0])
    ensures Read(DumpTree(first[0]) + r)
         == if TooDeep(first[0]) || NodesAlong(first) == [] || |NodesAlong(first)| > 10000 then None
            else Some(NodesAlong(first))
  {
    hide TreeAt, DumpTree, MainLine, Depth, WritableTree, NodesAlong;
    var t := first[0];
    TreeReadsBack(t, r);
    MainLineIsFirstPath(first);
    if Depth(t) > 1000 {
      var path := DeepestPath(t);
    } else if TooDeep(t) {
      var path :| IsPath(path) && path[0] == t && |path| > 1000;
      DepthBoundsPaths(path);
    }
  }
}
