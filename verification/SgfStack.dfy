/** What is left to read of a game tree while some parentheses are open, in terms of the grammar: the
    meaning of the iterative reader's stack. */
module SgfStack {
  import opened Rules
  import opened Sgf

  /** One open parenthesis: whether it is on the main line, and the subtrees seen so far. */
  datatype Frame = Frame(main: bool, seen: nat)

  /** The nodes still to come before the first subtree of the innermost open tree. */
  function OwnNodes(s: string, f: Frame): (r: Parsed<seq<Node>>)
    ensures r.Got? ==> |r.rest| <= |s|
  {
    if f.seen == 0 then NodesAt(s) else Got([], s)
  }

  /** Close the innermost of `depth` open trees, reading by the grammar: `nodes` with what the main
      line still adds, and the text after the `)`; `None` when it is malformed, too deep or too long. */
  function CloseInner(s: string, f: Frame, depth: nat, nodes: seq<Node>): Option<(seq<Node>, string)> {
    var n := OwnNodes(s, f);
    if n.Malformed? then None
    else
      var k := TreesAt(n.rest);
      if k.Malformed? then None
      else
        var u := SkipSpace(k.rest);
        if !StartsWith(u, ')') || depth + DepthOfAll(k.value) > MAX_DEPTH then None
        else
          var more := if f.main && f.seen == 0 then nodes + n.value + FirstLine(k.value) else nodes;
          if |more| > MAX_NODES then None else Some((more, u[1..]))
  }

  /** Close every open tree, innermost first. */
  function Finish(s: string, stack: seq<Frame>, nodes: seq<Node>): Option<seq<Node>>
    decreases |stack|
  {
    if stack == [] then Some(nodes)
    else
      var inner := CloseInner(s, stack[|stack| - 1], |stack|, nodes);
      if inner.None? then None else Finish(inner.value.1, stack[..|stack| - 1], inner.value.0)
  }

  /** With one tree open, finishing is reading the text by the grammar. */
  lemma FinishIsRead(text: string)
    requires StartsWith(SkipSpace(text), '(')
    ensures var r := Finish(SkipSpace(text)[1..], [Frame(true, 0)], []);
            Read(text) == if r.Some? && r.value != [] then r else None
  {
    hide NodesAt, TreesAt, SkipSpace, Depth, DepthOfAll;
    var t := TreeAt(text);
    if t.Got? {
      OneDeeper(t.value);
      assert [] + t.value.nodes + FirstLine(t.value.subtrees) == MainLine(t.value);
    }
  }

  lemma OneDeeper(t: Tree)
    ensures Depth(t) == 1 + DepthOfAll(t.subtrees)
  {
  }

  /** Leading space changes nothing. */
  lemma FinishSkips(s: string, stack: seq<Frame>, nodes: seq<Node>)
    requires stack != []
    ensures Finish(SkipSpace(s), stack, nodes) == Finish(s, stack, nodes)
  {
    SkipsFirst(s);
    var f := stack[|stack| - 1];
    assert CloseInner(SkipSpace(s), f, |stack|, nodes) == CloseInner(s, f, |stack|, nodes) by {
      hide SkipSpace, NodesAt, TreesAt, DepthOfAll, FirstLine;
    }
    hide CloseInner, SkipSpace;
  }

  lemma SkipsFirst(s: string)
    ensures NodesAt(SkipSpace(s)) == NodesAt(s) && TreesAt(SkipSpace(s)) == TreesAt(s)
    ensures SkipSpace(SkipSpace(s)) == SkipSpace(s)
  {
    hide NodeAt, TreeAt;
    var t := SkipSpace(s);
    assert SkipSpace(t) == t;
  }

  lemma NodesAtNode(s: string)
    requires StartsWith(s, ';')
    ensures var n := NodeAt(s[1..], Node([]));
            NodesAt(s) == if n.Malformed? then Malformed
                          else
                            var more := NodesAt(n.rest);
                            if more.Malformed? then Malformed else Got([n.value] + more.value, more.rest)
    ensures TreesAt(s) == Got([], s) && SkipSpace(s) == s
  {
    hide NodeAt, TreeAt;
  }

  lemma NodesAtOther(s: string)
    requires SkipSpace(s) == s && !StartsWith(s, ';')
    ensures NodesAt(s) == Got([], s)
    ensures !StartsWith(s, '(') ==> TreesAt(s) == Got([], s)
  {
    hide NodeAt, TreeAt;
  }

  /** A `;`: a node of the innermost tree, refused once a subtree has been seen. */
  lemma FinishNode(s: string, stack: seq<Frame>, nodes: seq<Node>)
    requires stack != [] && StartsWith(s, ';')
    ensures var f, n := stack[|stack| - 1], NodeAt(s[1..], Node([]));
            Finish(s, stack, nodes)
            == if f.seen > 0 || (f.main && |nodes| >= MAX_NODES) || n.Malformed? then None
               else Finish(n.rest, stack, if f.main then nodes + [n.value] else nodes)
  {
    var f, n := stack[|stack| - 1], NodeAt(s[1..], Node([]));
    NodesAtNode(s);
    hide NodeAt, TreesAt, DepthOfAll, FirstLine, NodesAt, SkipSpace;
    if f.seen == 0 && n.Got? {
      var rest := NodesAt(n.rest);
      if rest.Got? {
        assert nodes + ([n.value] + rest.value) == nodes + [n.value] + rest.value;
      }
      assert CloseInner(s, f, |stack|, nodes).Some? ==>
          CloseInner(s, f, |stack|, nodes)
          == CloseInner(n.rest, f, |stack|, if f.main then nodes + [n.value] else nodes);
    }
  }

  lemma DepthOfCons(t: Tree, ts: seq<Tree>)
    ensures var a, b := Depth(t), DepthOfAll(ts); DepthOfAll([t] + ts) == if a < b then b else a
    ensures FirstLine([t] + ts) == MainLine(t)
  {
    assert ([t] + ts)[1..] == ts;
  }

  /** What a subtree adds at the end of a list of subtrees: the grammar's `{ GameTree }`. */
  lemma TreesAtTree(s: string)
    requires StartsWith(s, '(')
    ensures SkipSpace(s) == s
    ensures var t := TreeAt(s);
            TreesAt(s) == if t.Malformed? then Malformed
                          else
                            var more := TreesAt(t.rest);
                            if more.Malformed? then Malformed else Got([t.value] + more.value, more.rest)
  {
    hide TreeAt;
  }

  lemma TreeAtOpen(s: string)
    requires StartsWith(s, '(')
    ensures var n := NodesAt(s[1..]);
            TreeAt(s) == if n.Malformed? then Malformed
                         else
                           var k := TreesAt(n.rest);
                           if k.Malformed? then Malformed
                           else
                             var u := SkipSpace(k.rest);
                             if StartsWith(u, ')') then Got(Tree(n.value, k.value), u[1..]) else Malformed
  {
    hide NodesAt, TreesAt;
    assert SkipSpace(s) == s;
  }

  /** Closing the tree just opened reads the tree the grammar reads there. */
  lemma ChildIsTree(s: string, main: bool, depth: nat, nodes: seq<Node>)
    requires StartsWith(s, '(') && |nodes| <= MAX_NODES
    ensures var t := TreeAt(s);
            CloseInner(s[1..], Frame(main, 0), depth + 1, nodes)
            == if t.Malformed? || depth + Depth(t.value) > MAX_DEPTH then None
               else
                 var more := if main then nodes + MainLine(t.value) else nodes;
                 if |more| > MAX_NODES then None else Some((more, t.rest))
  {
    TreeAtOpen(s);
    var t := TreeAt(s);
    hide TreesAt, NodesAt, SkipSpace, TreeAt, DepthOfAll, FirstLine, Depth;
    if t.Got? {
      OneDeeper(t.value);
      assert nodes + MainLine(t.value) == nodes + t.value.nodes + FirstLine(t.value.subtrees);
    }
  }

  /** Opening a subtree, one frame at a time: first the new tree is closed, then its parent. */
  lemma OpenThenClose(s: string, f: Frame, depth: nat, nodes: seq<Node>)
    requires StartsWith(s, '(') && |nodes| <= MAX_NODES
    ensures var child := CloseInner(s[1..], Frame(f.main && f.seen == 0, 0), depth + 1, nodes);
            CloseInner(s, f, depth, nodes)
            == if child.None? then None
               else CloseInner(child.value.1, Frame(f.main, f.seen + 1), depth, child.value.0)
  {
    TreesAtTree(s);
    NodesAtOther(s);
    var t := TreeAt(s);
    ChildIsTree(s, f.main && f.seen == 0, depth, nodes);
    hide TreesAt, NodesAt, SkipSpace, TreeAt, DepthOfAll, FirstLine, Depth, MainLine, CloseInner;
    if t.Got? {
      ParentAfterChild(s, f, depth, nodes, t.value, t.rest);
    } else {
      ParentMalformed(s, f, depth, nodes);
    }
  }

  lemma ParentMalformed(s: string, f: Frame, depth: nat, nodes: seq<Node>)
    requires StartsWith(s, '(') && TreesAt(s).Malformed?
    ensures CloseInner(s, f, depth, nodes) == None
  {
    NodesAtOther(s);
    hide TreesAt, NodesAt, SkipSpace, TreeAt, DepthOfAll;
  }

  lemma ParentAfterChild(s: string, f: Frame, depth: nat, nodes: seq<Node>, t: Tree, r: string)
    requires StartsWith(s, '(') && NodesAt(s) == Got([], s) && |nodes| <= MAX_NODES
    requires var more := TreesAt(r);
             TreesAt(s) == if more.Malformed? then Malformed else Got([t] + more.value, more.rest)
    ensures var after := if f.main && f.seen == 0 then nodes + MainLine(t) else nodes;
            CloseInner(s, f, depth, nodes)
            == if depth + Depth(t) > MAX_DEPTH || |after| > MAX_NODES then None
               else CloseInner(r, Frame(f.main, f.seen + 1), depth, after)
  {
    var more := TreesAt(r);
    hide TreesAt, NodesAt, SkipSpace, TreeAt, DepthOfAll, FirstLine, Depth, MainLine;
    if more.Got? {
      DepthOfCons(t, more.value);
      assert nodes + [] + MainLine(t) == nodes + MainLine(t);
    }
  }

  lemma FinishPush(s: string, below: seq<Frame>, f: Frame, nodes: seq<Node>)
    ensures var inner := CloseInner(s, f, |below| + 1, nodes);
            Finish(s, below + [f], nodes)
            == if inner.None? then None else Finish(inner.value.1, below, inner.value.0)
  {
    hide CloseInner;
    assert (below + [f])[..|below|] == below;
  }

  /** The stack once a subtree of the innermost tree is opened. */
  function Opened(stack: seq<Frame>): (r: seq<Frame>)
    requires stack != []
    ensures |r| == |stack| + 1
  {
    var f := stack[|stack| - 1];
    stack[..|stack| - 1] + [Frame(f.main, f.seen + 1)] + [Frame(f.main && f.seen == 0, 0)]
  }

  /** A `(`: a subtree of the innermost tree, on the main line when it is the main line's first. */
  lemma FinishOpen(s: string, stack: seq<Frame>, nodes: seq<Node>)
    requires stack != [] && StartsWith(s, '(') && |nodes| <= MAX_NODES
    ensures Finish(s, stack, nodes) == Finish(s[1..], Opened(stack), nodes)
  {
    hide CloseInner, Finish;
    var f, below := stack[|stack| - 1], stack[..|stack| - 1];
    var parent, child := Frame(f.main, f.seen + 1), Frame(f.main && f.seen == 0, 0);
    assert stack == below + [f];
    OpenThenClose(s, f, |stack|, nodes);
    FinishPush(s, below, f, nodes);
    var lower := below + [parent];
    assert |lower| + 1 == |stack| + 1 && |below| + 1 == |stack|;
    FinishPush(s[1..], lower, child, nodes);
    assert Opened(stack) == lower + [child];
    var inner := CloseInner(s[1..], child, |stack| + 1, nodes);
    if inner.Some? {
      FinishPush(inner.value.1, below, parent, inner.value.0);
    }
  }

  /** A `)`: the innermost tree is closed. */
  lemma FinishClose(s: string, stack: seq<Frame>, nodes: seq<Node>)
    requires stack != [] && |stack| <= MAX_DEPTH && |nodes| <= MAX_NODES && StartsWith(s, ')')
    ensures Finish(s, stack, nodes) == Finish(s[1..], stack[..|stack| - 1], nodes)
  {
    assert SkipSpace(s) == s;
    NodesAtOther(s);
    hide NodesAt, TreesAt, SkipSpace;
    assert nodes + [] + FirstLine([]) == nodes;
    assert CloseInner(s, stack[|stack| - 1], |stack|, nodes) == Some((nodes, s[1..]));
  }

  /** Anything else, the end of the text included, is malformed; so is one tree too many open. */
  lemma FinishFails(s: string, stack: seq<Frame>, nodes: seq<Node>)
    requires stack != [] && SkipSpace(s) == s
    requires StartsWith(s, '(') ==> |stack| >= MAX_DEPTH
    requires !StartsWith(s, ';') && !StartsWith(s, ')')
    ensures Finish(s, stack, nodes) == None
  {
    NodesAtOther(s);
    if StartsWith(s, '(') {
      TreesAtTree(s);
      var t := TreeAt(s);
      if t.Got? && TreesAt(t.rest).Got? {
        OneDeeper(t.value);
        DepthOfCons(t.value, TreesAt(t.rest).value);
      }
    }
    hide NodesAt, TreesAt, TreeAt, SkipSpace, DepthOfAll, Depth;
  }
}
