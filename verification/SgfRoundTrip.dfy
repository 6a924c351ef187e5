/** What the writer writes, the grammar reads back. */
module SgfRoundTrip {
  import opened Rules
  import opened Sgf

  /** A property as the writer expects one: an upper-case identifier and at least one value. */
  predicate WritableProp(p: Prop) {
    p.key != [] && (forall k :: 0 <= k < |p.key| ==> IsUpper(p.key[k])) && p.values != []
  }

  ghost predicate DistinctKeys(ps: seq<Prop>) {
    forall i, j :: 0 <= i < j < |ps| ==> ps[i].key != ps[j].key
  }

  ghost predicate Writable(n: Node) {
    (forall k :: 0 <= k < |n.props| ==> WritableProp(n.props[k])) && DistinctKeys(n.props)
  }

  /** `r` neither continues a property nor is skipped. */
  predicate Stops(r: string) {
    r != [] && !IsSpace(r[0]) && r[0] != '['
  }

  // ----- one step of the grammar at a time -----

  lemma OneChar(c: char, s: string)
    ensures c != ']' && c != '\\' ==> ValueAt([c] + s) == Prepend([c], ValueAt(s))
    ensures !IsBreak(c) ==> ValueAt(['\\', c] + s) == Prepend([c], ValueAt(s))
  {
    assert ([c] + s)[1..] == s && (['\\', c] + s)[2..] == s;
  }

  lemma OneValue(s: string, v: string, t: string, vs: seq<string>, r: string)
    requires ValueAt(s) == Got(v, t) && ValuesAt(t) == Got(vs, r)
    ensures ValuesAt("[" + s) == Got([v] + vs, r)
  {
    hide ValueAt;
    var u := "[" + s;
    assert SkipSpace(u) == u && u[1..] == s;
  }

  lemma NoValue(r: string)
    requires Stops(r)
    ensures ValuesAt(r) == Got([], r)
  {
    hide ValueAt;
  }

  lemma OneProp(s: string, p: Prop, t: string, n: Node)
    requires s != [] && IsUpper(s[0]) && PropAt(s) == Got(p, t)
    ensures NodeAt(s, n) == NodeAt(t, Extend(n, p))
  {
    hide PropAt, Extend;
    assert SkipSpace(s) == s;
  }

  lemma NoProp(r: string, n: Node)
    requires Stops(r) && !IsLetter(r[0])
    ensures NodeAt(r, n) == Got(n, r)
  {
    hide PropAt, Extend;
  }

  lemma OneNode(s: string, n: Node, t: string, ns: seq<Node>, r: string)
    requires NodeAt(s, Node([])) == Got(n, t) && NodesAt(t) == Got(ns, r)
    ensures NodesAt(";" + s) == Got([n] + ns, r)
  {
    hide NodeAt;
    var u := ";" + s;
    assert SkipSpace(u) == u && u[1..] == s;
  }

  lemma NoNode(r: string)
    requires StartsWith(r, ')') || StartsWith(r, '(')
    ensures NodesAt(r) == Got([], r) && SkipSpace(r) == r
    ensures StartsWith(r, ')') ==> TreesAt(r) == Got([], r)
  {
    hide NodeAt, TreeAt;
  }

  lemma OneTree(s: string, ns: seq<Node>, r: string)
    requires NodesAt(s) == Got(ns, r) && StartsWith(r, ')')
    ensures TreeAt("(" + s) == Got(Tree(ns, []), r[1..])
  {
    hide NodesAt, TreesAt;
    var u := "(" + s;
    assert SkipSpace(u) == u && u[1..] == s;
    NoNode(r);
  }

  // ----- escaping -----

  lemma ReplaceFirst(s: string, c: char, w: string)
    requires s != []
    ensures Replace(s, c, w) == (if s[0] == c then w else [s[0]]) + Replace(s[1..], c, w)
  {
  }

  lemma JoinLater(a: string, b: string, c: string)
    ensures a + (b + c) == a + b + c
  {
  }

  lemma {:induction false} ReplaceConcat(a: string, b: string, c: char, w: string)
    ensures Replace(a + b, c, w) == Replace(a, c, w) + Replace(b, c, w)
  {
    if a == [] {
      assert a + b == b;
    } else {
      hide Replace;
      ReplaceConcat(a[1..], b, c, w);
      assert (a + b)[1..] == a[1..] + b;
      ReplaceFirst(a, c, w);
      ReplaceFirst(a + b, c, w);
      JoinLater(if a[0] == c then w else [a[0]], Replace(a[1..], c, w), Replace(b, c, w));
    }
  }

  /** Escaping goes character by character, although the writer replaces in two passes. */
  lemma EscapeFirst(v: string)
    requires v != []
    ensures Escape(v) == (if v[0] == '\\' || v[0] == ']' then ['\\', v[0]] else [v[0]]) + Escape(v[1..])
  {
    var first := if v[0] == '\\' then "\\\\" else [v[0]];
    ReplaceConcat(first, Replace(v[1..], '\\', "\\\\"), ']', "\\]");
    assert first[1..] == "" || first[1..] == "\\";
    assert Replace("\\"[1..], ']', "\\]") == "";
  }

  /** Escaping undoes itself: any text, brackets, backslashes and line breaks included, reads back. */
  lemma {:induction false} ValueReadsBack(v: string, r: string)
    ensures ValueAt(Escape(v) + "]" + r) == Got(v, r)
  {
    hide Escape, ValueAt;
    if v == [] {
      EmptyValue(r);
    } else {
      var tail := Escape(v[1..]) + "]" + r;
      EscapeFirst(v);
      ValueReadsBack(v[1..], r);
      OneChar(v[0], tail);
      assert [v[0]] + v[1..] == v;
      var first := if v[0] == '\\' || v[0] == ']' then ['\\', v[0]] else [v[0]];
      assert Escape(v) + "]" + r == first + tail;
    }
  }

  lemma EmptyValue(r: string)
    ensures ValueAt(Escape("") + "]" + r) == Got("", r)
  {
    assert Escape("") + "]" + r == "]" + r;
  }

  lemma {:induction false} ValuesReadBack(vs: seq<string>, r: string)
    requires Stops(r)
    ensures ValuesAt(DumpValues(vs) + r) == Got(vs, r)
  {
    hide ValuesAt, ValueAt, Escape;
    if vs == [] {
      assert DumpValues(vs) + r == r;
      NoValue(r);
    } else {
      var tail := DumpValues(vs[1..]) + r;
      ValueReadsBack(vs[0], tail);
      ValuesReadBack(vs[1..], r);
      OneValue(Escape(vs[0]) + "]" + tail, vs[0], tail, vs[1..], r);
      assert DumpValues(vs) + r == "[" + (Escape(vs[0]) + "]" + tail);
      assert [vs[0]] + vs[1..] == vs;
    }
  }

  // ----- properties, nodes and the tree -----

  lemma {:induction false} UpperKey(key: string)
    requires forall k :: 0 <= k < |key| ==> IsUpper(key[k])
    ensures UpperOnly(key) == key
  {
    if key != [] {
      UpperKey(key[1..]);
    }
  }

  lemma {:induction false} LettersOfKey(key: string, r: string)
    requires forall k :: 0 <= k < |key| ==> IsLetter(key[k])
    requires r != [] && !IsLetter(r[0])
    ensures Letters(key + r) == |key|
  {
    if key == [] {
      assert key + r == r;
    } else {
      assert (key + r)[1..] == key[1..] + r;
      LettersOfKey(key[1..], r);
    }
  }

  lemma PropReadsBack(p: Prop, r: string)
    requires WritableProp(p) && Stops(r)
    ensures PropAt(p.key + DumpValues(p.values) + r) == Got(p, r)
  {
    hide ValuesAt, Letters;
    var tail := DumpValues(p.values) + r;
    var s := p.key + tail;
    assert p.key + DumpValues(p.values) + r == s;
    assert tail[0] == '[';
    LettersOfKey(p.key, tail);
    UpperKey(p.key);
    ValuesReadBack(p.values, r);
    assert s[..|p.key|] == p.key && s[|p.key|..] == tail;
  }

  lemma NewKeyIsAppended(done: seq<Prop>, p: Prop)
    requires forall j :: 0 <= j < |done| ==> done[j].key != p.key
    ensures Extend(Node(done), p) == Node(done + [p])
  {
  }

  lemma {:induction false} NodeReadsBack(ps: seq<Prop>, done: seq<Prop>, r: string)
    requires (forall k :: 0 <= k < |ps| ==> WritableProp(ps[k])) && DistinctKeys(done + ps)
    requires Stops(r) && !IsLetter(r[0])
    ensures NodeAt(DumpProps(ps) + r, Node(done)) == Got(Node(done + ps), r)
    decreases |ps|
  {
    hide NodeAt, PropAt, Extend, DumpValues;
    if ps == [] {
      assert DumpProps(ps) + r == r && done + ps == done;
      NoProp(r, Node(done));
    } else {
      var tail := DumpProps(ps[1..]) + r;
      var s := ps[0].key + DumpValues(ps[0].values) + tail;
      assert DumpProps(ps) + r == s && s[0] == ps[0].key[0];
      assert Stops(tail) by {
        if |ps| > 1 { assert tail[0] == ps[1].key[0] && WritableProp(ps[1]); }
      }
      PropReadsBack(ps[0], tail);
      OneProp(s, ps[0], tail, Node(done));
      forall j | 0 <= j < |done| ensures done[j].key != ps[0].key {
        assert (done + ps)[j] == done[j] && (done + ps)[|done|] == ps[0];
      }
      NewKeyIsAppended(done, ps[0]);
      assert done + [ps[0]] + ps[1..] == done + ps;
      NodeReadsBack(ps[1..], done + [ps[0]], r);
    }
  }

  lemma {:induction false} NodesReadBack(ns: seq<Node>, r: string)
    requires (forall k :: 0 <= k < |ns| ==> Writable(ns[k])) && (StartsWith(r, ')') || StartsWith(r, '('))
    ensures NodesAt(DumpNodes(ns) + r) == Got(ns, r)
    decreases |ns|
  {
    hide NodesAt, NodeAt, DumpProps;
    if ns == [] {
      assert DumpNodes(ns) + r == r;
      NoNode(r);
    } else {
      var tail := DumpNodes(ns[1..]) + r;
      assert tail[0] == ';' || tail[0] == ')' || tail[0] == '(';
      assert [] + ns[0].props == ns[0].props;
      NodeReadsBack(ns[0].props, [], tail);
      NodesReadBack(ns[1..], r);
      OneNode(DumpProps(ns[0].props) + tail, ns[0], tail, ns[1..], r);
      assert DumpNodes(ns) + r == ";" + (DumpProps(ns[0].props) + tail);
      assert [ns[0]] + ns[1..] == ns;
    }
  }

  /** Every list of one to `MAX_NODES` writable nodes reads back exactly as it was written. */
  lemma DumpReadsBack(ns: seq<Node>)
    requires 0 < |ns| <= MAX_NODES && forall k :: 0 <= k < |ns| ==> Writable(ns[k])
    ensures Read(Dump(ns)) == Some(ns)
  {
    hide NodesAt, TreeAt, DumpNodes;
    NodesReadBack(ns, ")\n");
    OneTree(DumpNodes(ns) + ")\n", ns, ")\n");
    assert Dump(ns) == "(" + (DumpNodes(ns) + ")\n");
    assert MainLine(Tree(ns, [])) == ns && Depth(Tree(ns, [])) == 1;
  }
}
