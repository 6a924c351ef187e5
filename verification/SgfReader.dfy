/** The iterative SGF reader: a position in the text and an explicit stack of open parentheses. */
module SgfReader {
  import opened Rules
  import opened Sgf
  import opened SgfStack

  /** Space skipped once needs no second skip. */
  lemma SkipOnce(s: string)
    ensures SkipSpace(SkipSpace(s)) == SkipSpace(s)
    ensures ValuesAt(SkipSpace(s)) == ValuesAt(s)
    ensures forall n :: NodeAt(SkipSpace(s), n) == NodeAt(s, n)
  {
    var t := SkipSpace(s);
    assert SkipSpace(t) == t;
    hide SkipSpace, ValueAt, PropAt;
  }

  class Reader {
    const text: string
    var pos: nat

    ghost predicate Valid()
      reads this
    {
      pos <= |text|
    }

    ghost function Rest(): string
      requires Valid()
      reads this
    {
      text[pos..]
    }

    constructor (text: string)
      ensures Valid() && Rest() == text
    {
      this.text := text;
      this.pos := 0;
    }

    /** Skip white space; the character after it, if any. */
    method Skip() returns (c: Option<char>)
      requires Valid()
      modifies `pos
      ensures Valid() && Rest() == SkipSpace(old(Rest())) && old(pos) <= pos
      ensures c == if Rest() == [] then None else Some(Rest()[0])
    {
      ghost var skipped := SkipSpace(Rest());
      while pos < |text| && IsSpace(text[pos])
        invariant Valid() && old(pos) <= pos && SkipSpace(Rest()) == skipped
      {
        assert Rest()[1..] == text[pos + 1..];
        pos := pos + 1;
      }
      c := if pos < |text| then Some(text[pos]) else None;
    }

    /** The end of the run of plain value characters at the position. */
    method PlainRun() returns (end: nat)
      requires Valid()
      ensures pos <= end <= |text| && (end < |text| ==> text[end] == '\\' || text[end] == ']')
      ensures ValueAt(Rest()) == Prepend(text[pos..end], ValueAt(text[end..]))
    {
      end := pos;
      PrependNothing(ValueAt(Rest()));
      assert text[pos..pos] == "";
      while end < |text| && text[end] != '\\' && text[end] != ']'
        invariant pos <= end <= |text|
        invariant ValueAt(Rest()) == Prepend(text[pos..end], ValueAt(text[end..]))
      {
        PlainChar(text, pos, end);
        end := end + 1;
      }
    }

    /** A property value, from just after its `[`: runs of plain characters and escapes. */
    method Value() returns (v: Option<string>)
      requires Valid()
      modifies `pos
      ensures Valid() && old(pos) <= pos
      ensures match ValueAt(old(Rest()))
        case Malformed => v == None
        case Got(x, r) => v == Some(x) && Rest() == r && old(pos) < pos
    {
      hide ValueAt;
      ghost var whole := ValueAt(Rest());
      PrependNothing(whole);
      var out := "";
      while true
        invariant Valid() && old(pos) <= pos && Prepend(out, ValueAt(Rest())) == whole
        decreases |text| - pos
      {
        var end := PlainRun();
        PrependTwice(out, text[pos..end], ValueAt(text[end..]));
        out := out + text[pos..end];
        ValueEnds(text, end);
        if end >= |text| {
          return None;
        }
        if text[end] == ']' {
          pos := end + 1;
          PrependAll(out, Rest());
          return Some(out);
        }
        EscapedChar(text, end);
        end := end + 1;
        if end >= |text| {
          return None;
        }
        var nxt := text[end];
        if IsBreak(nxt) {
          end := end + 1;
          if end < |text| && IsBreak(text[end]) && text[end] != nxt {
            end := end + 1;
          }
        } else {
          PrependTwice(out, [nxt], ValueAt(text[end + 1..]));
          out := out + [nxt];
          end := end + 1;
        }
        pos := end;
      }
    }

    /** The values of a property: everything in brackets that follows, space between them skipped. */
    method Values() returns (values: Option<seq<string>>)
      requires Valid()
      modifies `pos
      ensures Valid() && old(pos) <= pos
      ensures match ValuesAt(old(Rest()))
        case Malformed => values == None
        case Got(x, r) => values == Some(x) && Rest() == r
    {
      hide ValueAt, ValuesAt, SkipSpace;
      ghost var whole := ValuesAt(Rest());
      var got: seq<string> := [];
      assert whole == Further(got, whole) by { NothingFurther(whole); }
      while true
        invariant Valid() && old(pos) <= pos && Further(got, ValuesAt(Rest())) == whole
        decreases |text| - pos
      {
        SkipOnce(Rest());
        var c := Skip();
        ghost var s := Rest();
        ValuesStep(s);
        if c != Some('[') {
          FurtherAll(got, s);
          return Some(got);
        }
        pos := pos + 1;
        assert Rest() == s[1..];
        var v := Value();
        if v.None? {
          return None;
        }
        FurtherTwice(got, v.value, ValuesAt(Rest()));
        got := got + [v.value];
      }
    }

    /** One node, from just after its `;`. */
    method ReadNode() returns (node: Option<Node>)
      requires Valid()
      modifies `pos
      ensures Valid() && old(pos) <= pos
      ensures match NodeAt(old(Rest()), Node([]))
        case Malformed => node == None
        case Got(x, r) => node == Some(x) && Rest() == r
    {
      hide ValuesAt, SkipSpace, NodeAt, KeyOf;
      ghost var whole := NodeAt(Rest(), Node([]));
      var n := Node([]);
      while true
        invariant Valid() && old(pos) <= pos && NodeAt(Rest(), n) == whole
        decreases |text| - pos
      {
        SkipOnce(Rest());
        var c := Skip();
        ghost var s := Rest();
        NodeStep(s, n);
        var end := Ident();
        if end == pos {
          return Some(n);
        }
        var key := KeyOf(text[pos..end]);
        assert text[pos..end] == s[..end - pos] && s[end - pos..] == text[end..];
        pos := end;
        var values := Values();
        if values.None? || values.value == [] {
          return None;
        }
        n := Extend(n, Prop(key, values.value));
      }
    }

    /** The end of the run of letters at the position. */
    method Ident() returns (end: nat)
      requires Valid()
      ensures pos <= end <= |text| && end - pos == Letters(Rest())
    {
      end := pos;
      while end < |text| && IsLetter(text[end])
        invariant pos <= end <= |text| && end - pos + Letters(text[end..]) == Letters(Rest())
      {
        assert text[end..][1..] == text[end + 1..];
        end := end + 1;
      }
    }

    /** Read the main line of the first game tree, one frame per open parenthesis. */
    method GameTree() returns (r: Option<seq<Node>>)
      requires Valid()
      modifies `pos
      ensures Valid() && r == Read(old(Rest()))
    {
      hide Read, Finish, SkipSpace, NodeAt;
      ghost var input := Rest();
      var c := Skip();
      if c != Some('(') {
        NotATree(input);
        return None;
      }
      FinishIsRead(input);
      ghost var whole := Finish(Rest()[1..], [Frame(true, 0)], []);
      assert Rest()[1..] == text[pos + 1..];
      pos := pos + 1;
      var nodes: seq<Node> := [];
      var stack := [Frame(true, 0)];
      while |stack| > 0
        invariant Valid() && |stack| <= MAX_DEPTH && |nodes| <= MAX_NODES
        invariant Finish(Rest(), stack, nodes) == whole
        decreases |text| - pos, |stack|
      {
        FinishSkips(Rest(), stack, nodes);
        SkipOnce(Rest());
        c := Skip();
        ghost var s := Rest();
        assert s != [] ==> s[1..] == text[pos + 1..];
        var frame := stack[|stack| - 1];
        if c == Some(';') {
          FinishNode(s, stack, nodes);
          if frame.seen > 0 || (frame.main && |nodes| >= MAX_NODES) {
            return None;
          }
          pos := pos + 1;
          var node := ReadNode();
          if node.None? {
            return None;
          }
          if frame.main {
            nodes := nodes + [node.value];
          }
        } else if c == Some('(') {
          if |stack| >= MAX_DEPTH {
            FinishFails(s, stack, nodes);
            return None;
          }
          FinishOpen(s, stack, nodes);
          pos := pos + 1;
          stack := stack[..|stack| - 1] + [Frame(frame.main, frame.seen + 1)]
                   + [Frame(frame.main && frame.seen == 0, 0)];
        } else if c == Some(')') {
          FinishClose(s, stack, nodes);
          pos := pos + 1;
          stack := stack[..|stack| - 1];
        } else {
          FinishFails(s, stack, nodes);
          return None;
        }
      }
      FinishNothing(Rest(), nodes);
      return if nodes == [] then None else Some(nodes);
    }
  }

  lemma FinishNothing(s: string, nodes: seq<Node>)
    ensures Finish(s, [], nodes) == Some(nodes)
  {
  }

  lemma NotATree(s: string)
    requires !StartsWith(SkipSpace(s), '(')
    ensures Read(s) == None
  {
  }

  // ----- values, one at a time -----

  ghost function Further(got: seq<string>, r: Parsed<seq<string>>): Parsed<seq<string>> {
    if r.Malformed? then r else Got(got + r.value, r.rest)
  }

  lemma NothingFurther(r: Parsed<seq<string>>)
    ensures Further([], r) == r
  {
    if r.Got? { assert [] + r.value == r.value; }
  }

  lemma FurtherAll(got: seq<string>, s: string)
    ensures Further(got, Got([], s)) == Got(got, s)
  {
    assert got + [] == got;
  }

  lemma FurtherTwice(got: seq<string>, v: string, r: Parsed<seq<string>>)
    ensures Further(got, if r.Malformed? then Malformed else Got([v] + r.value, r.rest)) == Further(got + [v], r)
  {
    if r.Got? { assert got + ([v] + r.value) == got + [v] + r.value; }
  }

  lemma ValuesStep(s: string)
    requires SkipSpace(s) == s
    ensures !StartsWith(s, '[') ==> ValuesAt(s) == Got([], s)
    ensures StartsWith(s, '[') ==>
              var v := ValueAt(s[1..]);
              ValuesAt(s) == if v.Malformed? then Malformed
                             else
                               var more := ValuesAt(v.rest);
                               if more.Malformed? then Malformed else Got([v.value] + more.value, more.rest)
  {
    hide ValueAt;
  }

  lemma NodeStep(s: string, n: Node)
    requires SkipSpace(s) == s
    ensures Letters(s) == 0 ==> NodeAt(s, n) == Got(n, s)
    ensures Letters(s) > 0 ==>
              var k := Letters(s);
              var v := ValuesAt(s[k..]);
              NodeAt(s, n) == if v.Malformed? || v.value == [] then Malformed
                              else NodeAt(v.rest, Extend(n, Prop(KeyOf(s[..k]), v.value)))
  {
    hide ValuesAt, KeyOf, Extend;
  }

  lemma PrependNothing(r: Parsed<string>)
    ensures Prepend("", r) == r
  {
    if r.Got? { assert "" + r.value == r.value; }
  }

  lemma PrependTwice(a: string, b: string, r: Parsed<string>)
    ensures Prepend(a, Prepend(b, r)) == Prepend(a + b, r)
  {
    if r.Got? { assert a + (b + r.value) == a + b + r.value; }
  }

  lemma PrependAll(a: string, r: string)
    ensures Prepend(a, Got("", r)) == Got(a, r)
  {
    assert a + "" == a;
  }

  lemma ValueEnds(text: string, end: nat)
    requires end <= |text|
    ensures end == |text| ==> ValueAt(text[end..]).Malformed?
    ensures end < |text| && text[end] == ']' ==> ValueAt(text[end..]) == Got("", text[end + 1..])
  {
    if end < |text| { assert text[end..][1..] == text[end + 1..]; }
  }

  lemma PlainChar(text: string, pos: nat, end: nat)
    requires pos <= end < |text| && text[end] != '\\' && text[end] != ']'
    ensures Prepend(text[pos..end], ValueAt(text[end..])) == Prepend(text[pos..end + 1], ValueAt(text[end + 1..]))
  {
    assert text[end..][1..] == text[end + 1..];
    assert text[pos..end] + [text[end]] == text[pos..end + 1];
    PrependTwice(text[pos..end], [text[end]], ValueAt(text[end + 1..]));
  }

  /** What follows a backslash at `end`. */
  lemma EscapedChar(text: string, end: nat)
    requires end < |text| && text[end] == '\\'
    ensures end + 1 == |text| ==> ValueAt(text[end..]).Malformed?
    ensures end + 1 < |text| && !IsBreak(text[end + 1]) ==>
              ValueAt(text[end..]) == Prepend([text[end + 1]], ValueAt(text[end + 2..]))
    ensures end + 1 < |text| && IsBreak(text[end + 1]) ==>
              var pair := end + 2 < |text| && IsBreak(text[end + 2]) && text[end + 2] != text[end + 1];
              ValueAt(text[end..]) == ValueAt(text[if pair then end + 3 else end + 2..])
  {
    var s := text[end..];
    if |s| > 1 {
      assert s[1..] == text[end + 1..] && s[2..] == text[end + 2..];
      assert s[1..][1..] == text[end + 2..];
      if |s| > 2 { assert s[1..][2..] == text[end + 3..]; }
    }
  }
}
