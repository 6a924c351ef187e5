/** SGF text: the FF[4] grammar read by recursion, and the writer. The iterative reader in
    SgfReader.dfy is proved to agree with this grammar. */
module Sgf {
  import opened Rules

  /** Deepest variation nesting, and longest main line in nodes, that the reader accepts. */
  const MAX_DEPTH := 1000
  const MAX_NODES := 10000

  datatype Prop = Prop(key: string, values: seq<string>)

  /** A node's properties in the order their keys first appear. */
  datatype Node = Node(props: seq<Prop>)

  datatype Tree = Tree(nodes: seq<Node>, subtrees: seq<Tree>)

  /** What a piece of grammar reads from the front of a text, and the text left over. */
  datatype Parsed<T> = Malformed | Got(value: T, rest: string)

  // ----- characters -----

  predicate IsSpace(c: char) {
    var n := c as int;
    9 <= n <= 13 || 28 <= n <= 32 || n == 0x85 || n == 0xa0 || n == 0x1680 || 0x2000 <= n <= 0x200a
    || n == 0x2028 || n == 0x2029 || n == 0x202f || n == 0x205f || n == 0x3000
  }

  predicate IsUpper(c: char) {
    'A' <= c <= 'Z'
  }

  predicate IsLetter(c: char) {
    IsUpper(c) || 'a' <= c <= 'z'
  }

  predicate IsBreak(c: char) {
    c == '\r' || c == '\n'
  }

  predicate StartsWith(s: string, c: char) {
    s != [] && s[0] == c
  }

  function SkipSpace(s: string): (r: string)
    ensures |r| <= |s|
    ensures r != [] ==> !IsSpace(r[0])
  {
    if s != [] && IsSpace(s[0]) then SkipSpace(s[1..]) else s
  }

  // ----- property values: section "Text" of SGF FF[4] -----

  function Prepend(p: string, r: Parsed<string>): Parsed<string> {
    if r.Malformed? then r else Got(p + r.value, r.rest)
  }

  /** The text after a line break that a backslash made soft: a pair of different breaks is one. */
  function AfterBreak(s: string): (r: string)
    requires s != []
    ensures |r| < |s|
  {
    if |s| > 1 && IsBreak(s[1]) && s[1] != s[0] then s[2..] else s[1..]
  }

  /** A property value, from just after its `[`. */
  function ValueAt(s: string): (r: Parsed<string>)
    ensures r.Got? ==> |r.rest| < |s|
    decreases |s|
  {
    if s == [] then Malformed
    else if s[0] == ']' then Got("", s[1..])
    else if s[0] != '\\' then Prepend([s[0]], ValueAt(s[1..]))
    else if |s| == 1 then Malformed
    else if IsBreak(s[1]) then ValueAt(AfterBreak(s[1..]))
    else Prepend([s[1]], ValueAt(s[2..]))
  }

  function ValuesAt(s: string): (r: Parsed<seq<string>>)
    ensures r.Got? ==> |r.rest| <= |s|
    decreases |s|
  {
    var t := SkipSpace(s);
    if !StartsWith(t, '[') then Got([], t)
    else
      var v := ValueAt(t[1..]);
      if v.Malformed? then Malformed
      else
        var more := ValuesAt(v.rest);
        if more.Malformed? then Malformed else Got([v.value] + more.value, more.rest)
  }

  // ----- properties and nodes -----

  function Letters(s: string): (n: nat)
    ensures n <= |s| && (forall k :: 0 <= k < n ==> IsLetter(s[k])) && (n < |s| ==> !IsLetter(s[n]))
  {
    if s != [] && IsLetter(s[0]) then 1 + Letters(s[1..]) else 0
  }

  function UpperOnly(s: string): string {
    if s == [] then [] else (if IsUpper(s[0]) then [s[0]] else []) + UpperOnly(s[1..])
  }

  function ToUpper(s: string): string {
    seq(|s|, k requires 0 <= k < |s| => if 'a' <= s[k] <= 'z' then s[k] - 'a' + 'A' else s[k])
  }

  /** A property identifier's key: its upper-case letters, or all of it in upper case. */
  function KeyOf(ident: string): string {
    if UpperOnly(ident) != [] then UpperOnly(ident) else ToUpper(ident)
  }

  /** The index of a key, or the number of properties when it is not there. */
  function Find(props: seq<Prop>, key: string): (k: nat)
    ensures k <= |props| && (k < |props| ==> props[k].key == key)
    ensures forall j :: 0 <= j < k ==> props[j].key != key
  {
    if props == [] || props[0].key == key then 0 else 1 + Find(props[1..], key)
  }

  /** A property read again extends the values it has. */
  function Extend(n: Node, p: Prop): Node {
    var k := Find(n.props, p.key);
    if k < |n.props| then Node(n.props[k := Prop(p.key, n.props[k].values + p.values)])
    else Node(n.props + [p])
  }

  function PropAt(s: string): (r: Parsed<Prop>)
    requires s != [] && IsLetter(s[0])
    ensures r.Got? ==> |r.rest| < |s|
  {
    var n := Letters(s);
    var v := ValuesAt(s[n..]);
    if v.Malformed? || v.value == [] then Malformed else Got(Prop(KeyOf(s[..n]), v.value), v.rest)
  }

  /** The rest of a node, `n` being what has been read of it. */
  function NodeAt(s: string, n: Node): (r: Parsed<Node>)
    ensures r.Got? ==> |r.rest| <= |s|
    decreases |s|
  {
    var t := SkipSpace(s);
    if t == [] || !IsLetter(t[0]) then Got(n, t)
    else
      var p := PropAt(t);
      if p.Malformed? then Malformed else NodeAt(p.rest, Extend(n, p.value))
  }

  function NodesAt(s: string): (r: Parsed<seq<Node>>)
    ensures r.Got? ==> |r.rest| <= |s|
    decreases |s|
  {
    var t := SkipSpace(s);
    if !StartsWith(t, ';') then Got([], t)
    else
      var n := NodeAt(t[1..], Node([]));
      if n.Malformed? then Malformed
      else
        var more := NodesAt(n.rest);
        if more.Malformed? then Malformed else Got([n.value] + more.value, more.rest)
  }

  // ----- game trees: section "EBNF Definition" of SGF FF[4] -----

  /** `GameTree = "(" Sequence { GameTree } ")"`. */
  function TreeAt(s: string): (r: Parsed<Tree>)
    ensures r.Got? ==> |r.rest| < |s|
    decreases |s|, 0
  {
    var t := SkipSpace(s);
    if !StartsWith(t, '(') then Malformed
    else
      var n := NodesAt(t[1..]);
      if n.Malformed? then Malformed
      else
        var k := TreesAt(n.rest);
        if k.Malformed? then Malformed
        else
          var u := SkipSpace(k.rest);
          if StartsWith(u, ')') then Got(Tree(n.value, k.value), u[1..]) else Malformed
  }

  function TreesAt(s: string): (r: Parsed<seq<Tree>>)
    ensures r.Got? ==> |r.rest| <= |s|
    decreases |s|, 1
  {
    var t := SkipSpace(s);
    if !StartsWith(t, '(') then Got([], t)
    else
      var k := TreeAt(t);
      if k.Malformed? then Malformed
      else
        var more := TreesAt(k.rest);
        if more.Malformed? then Malformed else Got([k.value] + more.value, more.rest)
  }

  /** A tree's own nodes, then recursively those of its first subtree. */
  function MainLine(t: Tree): seq<Node> {
    t.nodes + FirstLine(t.subtrees)
  }

  function FirstLine(ts: seq<Tree>): seq<Node> {
    if ts == [] then [] else MainLine(ts[0])
  }

  function Depth(t: Tree): nat {
    1 + DepthOfAll(t.subtrees)
  }

  function DepthOfAll(ts: seq<Tree>): nat {
    if ts == [] then 0
    else
      var a, b := Depth(ts[0]), DepthOfAll(ts[1..]);
      if a < b then b else a
  }

  /** The main line of the first game tree of a text; `None` when the text is malformed, nested too
      deep, its main line is too long, or it has no node there. */
  function Read(text: string): Option<seq<Node>> {
    var t := TreeAt(text);
    if t.Malformed? || Depth(t.value) > MAX_DEPTH || |MainLine(t.value)| > MAX_NODES || MainLine(t.value) == []
    then None
    else Some(MainLine(t.value))
  }

  // ----- the writer -----

  /** Every `c` replaced by `w`. */
  function Replace(s: string, c: char, w: string): string {
    if s == [] then [] else (if s[0] == c then w else [s[0]]) + Replace(s[1..], c, w)
  }

  function Escape(v: string): string {
    Replace(Replace(v, '\\', "\\\\"), ']', "\\]")
  }

  function DumpValues(vs: seq<string>): string {
    if vs == [] then [] else "[" + Escape(vs[0]) + "]" + DumpValues(vs[1..])
  }

  function DumpProps(ps: seq<Prop>): string {
    if ps == [] then [] else ps[0].key + DumpValues(ps[0].values) + DumpProps(ps[1..])
  }

  function DumpNodes(ns: seq<Node>): string {
    if ns == [] then [] else ";" + DumpProps(ns[0].props) + DumpNodes(ns[1..])
  }

  function Dump(ns: seq<Node>): string {
    "(" + DumpNodes(ns) + ")\n"
  }
}
