/** What the grammar reads from texts the writer itself never writes: values with soft line breaks, long identifiers,
    properties that come again, and variations. */
module SgfReadings {
  import opened Rules
  import opened Sgf
  import opened SgfRoundTrip

  // ----- every way to write a value -----

  /** A piece of a property value: a character as it is or behind a backslash, or a soft line break. */
  datatype Piece = Plain(c: char) | Escaped(c: char) | Soft(b: string)

  function Written(ps: seq<Piece>): string {
    if ps == [] then ""
    else
      (match ps[0]
       case Plain(c) => [c]
       case Escaped(c) => ['\\', c]
       case Soft(b) => "\\" + b) + Written(ps[1..])
  }

  /** The characters of the pieces; a soft line break is none. */
  function Meant(ps: seq<Piece>): string {
    if ps == [] then ""
    else
      (match ps[0]
       case Plain(c) => [c]
       case Escaped(c) => [c]
       case Soft(_) => "") + Meant(ps[1..])
  }

  /** A line break is one of two characters, or both in either order; a single one is not followed by the other. */
  predicate IsLineBreak(b: string, next: string) {
    || b == "\r\n" || b == "\n\r"
    || (b == "\r" && !StartsWith(next, '\n')) || (b == "\n" && !StartsWith(next, '\r'))
  }

  predicate WellFormed(ps: seq<Piece>) {
    ps != [] ==>
      && WellFormed(ps[1..])
      && match ps[0]
         case Plain(c) => c != ']' && c != '\\'
         case Escaped(c) => c != '\r' && c != '\n'
         case Soft(b) => IsLineBreak(b, Written(ps[1..]) + "]")
  }

  lemma SoftBreakVanishes(b: string, s: string)
    requires IsLineBreak(b, s)
    ensures ValueAt("\\" + b + s) == ValueAt(s)
  {
    var t := "\\" + b + s;
    assert t[1..] == b + s;
    assert |b| == 1 ==> (b + s)[1..] == s;
    assert |b| == 2 ==> (b + s)[2..] == s;
  }

  lemma SameNext(s: string, r: string, b: string)
    requires s != [] && IsLineBreak(b, s)
    ensures IsLineBreak(b, s + r)
  {
  }

  /** However a value is written, it reads as the characters meant: line breaks behind a backslash vanish, every
      other character behind one stands for itself. */
  lemma {:induction false} PiecesReadBack(ps: seq<Piece>, r: string)
    requires WellFormed(ps)
    ensures ValueAt(Written(ps) + "]" + r) == Got(Meant(ps), r)
    decreases |ps|
  {
    hide ValueAt;
    if ps == [] {
      EmptyValue(r);
      assert Written(ps) + "]" + r == Escape("") + "]" + r;
    } else {
      var tail := Written(ps[1..]) + "]" + r;
      PiecesReadBack(ps[1..], r);
      match ps[0] {
        case Plain(c) =>
          OneChar(c, tail);
          assert Written(ps) + "]" + r == [c] + tail;
        case Escaped(c) =>
          OneChar(c, tail);
          assert Written(ps) + "]" + r == ['\\', c] + tail;
        case Soft(b) =>
          SameNext(Written(ps[1..]) + "]", r, b);
          assert Written(ps[1..]) + "]" + r == tail;
          SoftBreakVanishes(b, tail);
          assert Meant(ps) == Meant(ps[1..]);
          assert Written(ps) + "]" + r == "\\" + b + tail;
      }
    }
  }

  lemma Unclosed(s: string)
    requires s == "" || s == "\\"
    ensures ValueAt(s) == Malformed
  {
  }

  /** A value that its text does not close cannot be read, not even after a last backslash. */
  lemma {:induction false} UnclosedValueFails(ps: seq<Piece>, end: string)
    requires WellFormed(ps) && (end == "" || end == "\\")
    ensures ValueAt(Written(ps) + end) == Malformed
    decreases |ps|
  {
    hide ValueAt;
    if ps == [] {
      Unclosed(end);
      assert Written(ps) + end == end;
    } else {
      var tail := Written(ps[1..]) + end;
      UnclosedValueFails(ps[1..], end);
      match ps[0] {
        case Plain(c) =>
          OneChar(c, tail);
          assert Written(ps) + end == [c] + tail;
        case Escaped(c) =>
          OneChar(c, tail);
          assert Written(ps) + end == ['\\', c] + tail;
        case Soft(b) =>
          assert IsLineBreak(b, tail);
          SoftBreakVanishes(b, tail);
          assert Written(ps) + end == "\\" + b + tail;
      }
    }
  }

  // ----- identifiers -----

  lemma UpperFirst(s: string)
    requires s != []
    ensures UpperOnly(s) == (if IsUpper(s[0]) then [s[0]] else []) + UpperOnly(s[1..])
  {
  }

  lemma {:induction false} UpperOnlyConcat(a: string, b: string)
    ensures UpperOnly(a + b) == UpperOnly(a) + UpperOnly(b)
  {
    if a == [] {
      assert a + b == b;
    } else {
      hide UpperOnly;
      assert (a + b)[1..] == a[1..] + b;
      UpperOnlyConcat(a[1..], b);
      UpperFirst(a);
      UpperFirst(a + b);
      JoinLater(if IsUpper(a[0]) then [a[0]] else [], UpperOnly(a[1..]), UpperOnly(b));
    }
  }

  /** A lower-case letter counts for nothing in an identifier that has an upper-case one. */
  lemma LowerCaseIsDropped(a: string, c: char, b: string)
    requires 'a' <= c <= 'z' && exists k :: 0 <= k < |a + b| && 'A' <= (a + b)[k] <= 'Z'
    ensures KeyOf(a + [c] + b) == KeyOf(a + b)
  {
    hide UpperOnly, ToUpper;
    UpperOnlyConcat(a + [c], b);
    UpperOnlyConcat(a, [c]);
    UpperOnlyConcat(a, b);
    NoUpper([c]);
    assert UpperOnly(a) + [] == UpperOnly(a);
    var k :| 0 <= k < |a + b| && 'A' <= (a + b)[k] <= 'Z';
    HasUpper(a + b, k);
  }

  lemma {:induction false} HasUpper(s: string, k: nat)
    requires k < |s| && IsUpper(s[k])
    ensures UpperOnly(s) != []
  {
    if k > 0 {
      HasUpper(s[1..], k - 1);
    }
  }

  /** An identifier of upper-case letters is its own key; one of lower-case letters is put in upper case. */
  lemma {:induction false} OneCaseIsKept(s: string)
    ensures (forall k :: 0 <= k < |s| ==> 'A' <= s[k] <= 'Z') ==> KeyOf(s) == s
    ensures (forall k :: 0 <= k < |s| ==> 'a' <= s[k] <= 'z') ==>
              |KeyOf(s)| == |s| && forall k :: 0 <= k < |s| ==> KeyOf(s)[k] as int == s[k] as int - 32
  {
    if forall k :: 0 <= k < |s| ==> 'A' <= s[k] <= 'Z' {
      UpperKey(s);
      assert s == [] ==> ToUpper(s) == s;
    }
    if forall k :: 0 <= k < |s| ==> 'a' <= s[k] <= 'z' {
      NoUpper(s);
    }
  }

  lemma {:induction false} NoUpper(s: string)
    requires forall k :: 0 <= k < |s| ==> !IsUpper(s[k])
    ensures UpperOnly(s) == []
  {
    if s != [] {
      NoUpper(s[1..]);
    }
  }

  // ----- properties that come again -----

  /** A property as a text may hold one: an identifier of letters and at least one value. */
  predicate Legible(p: Prop) {
    p.key != [] && (forall k :: 0 <= k < |p.key| ==> IsLetter(p.key[k])) && p.values != []
  }

  /** All the values the properties give a key, in order. */
  function ValuesOf(ps: seq<Prop>, key: string): seq<string> {
    if ps == [] then []
    else
      var last := ps[|ps| - 1];
      ValuesOf(ps[..|ps| - 1], key) + if KeyOf(last.key) == key then last.values else []
  }

  /** The keys of the properties, each where it first appears. */
  function FirstKeys(ps: seq<Prop>): seq<string> {
    if ps == [] then []
    else
      var past, key := FirstKeys(ps[..|ps| - 1]), KeyOf(ps[|ps| - 1].key);
      if key in past then past else past + [key]
  }

  /** One entry for each key of `ps`, in order of first appearance, with everything `ps` gives it. */
  ghost predicate Gathers(ps: seq<Prop>, props: seq<Prop>) {
    && |props| == |FirstKeys(ps)|
    && forall k :: 0 <= k < |props| ==>
         props[k].key == FirstKeys(ps)[k] && props[k].values == ValuesOf(ps, props[k].key)
  }

  lemma {:induction false} NoValuesElsewhere(ps: seq<Prop>, key: string)
    requires key !in FirstKeys(ps)
    ensures ValuesOf(ps, key) == []
    decreases |ps|
  {
    if ps != [] {
      NoValuesElsewhere(ps[..|ps| - 1], key);
    }
  }

  lemma {:induction false} FirstKeysAreDistinct(ps: seq<Prop>)
    ensures forall i, j :: 0 <= i < j < |FirstKeys(ps)| ==> FirstKeys(ps)[i] != FirstKeys(ps)[j]
    decreases |ps|
  {
    if ps != [] {
      FirstKeysAreDistinct(ps[..|ps| - 1]);
    }
  }

  lemma OneMoreProp(ps: seq<Prop>, props: seq<Prop>, p: Prop)
    requires Gathers(ps, props)
    ensures Gathers(ps + [p], Extend(Node(props), Prop(KeyOf(p.key), p.values)).props)
  {
    hide KeyOf;
    var all, key := ps + [p], KeyOf(p.key);
    assert all[..|ps|] == ps && all[|ps|] == p;
    FirstKeysAreDistinct(ps);
    var k := Find(props, key);
    assert k < |props| <==> key in FirstKeys(ps);
    if k == |props| {
      NoValuesElsewhere(ps, key);
    }
    forall c | c in FirstKeys(ps) && c != key ensures ValuesOf(all, c) == ValuesOf(ps, c) {
    }
  }

  lemma LegibleReadsBack(p: Prop, r: string)
    requires Legible(p) && Stops(r)
    ensures PropAt(p.key + DumpValues(p.values) + r) == Got(Prop(KeyOf(p.key), p.values), r)
  {
    hide ValuesAt, Letters, KeyOf;
    var tail := DumpValues(p.values) + r;
    var s := p.key + tail;
    assert p.key + DumpValues(p.values) + r == s;
    assert tail[0] == '[';
    LettersOfKey(p.key, tail);
    ValuesReadBack(p.values, r);
    assert s[..|p.key|] == p.key && s[|p.key|..] == tail;
  }

  lemma LetterIsNoSpace(c: char)
    requires IsLetter(c)
    ensures !IsSpace(c) && c != '['
  {
  }

  lemma NextProp(s: string, p: Prop, t: string, n: Node)
    requires s != [] && IsLetter(s[0]) && PropAt(s) == Got(p, t)
    ensures NodeAt(s, n) == NodeAt(t, Extend(n, p))
  {
    hide PropAt, Extend;
    LetterIsNoSpace(s[0]);
    assert SkipSpace(s) == s;
  }

  lemma {:induction false} PropsGather(done: seq<Prop>, props: seq<Prop>, ps: seq<Prop>, r: string) returns (m: Node)
    requires forall k :: 0 <= k < |ps| ==> Legible(ps[k])
    requires Stops(r) && !IsLetter(r[0]) && Gathers(done, props)
    ensures NodeAt(DumpProps(ps) + r, Node(props)) == Got(m, r) && Gathers(done + ps, m.props)
    decreases |ps|
  {
    hide NodeAt, PropAt, Extend, DumpValues, Gathers, KeyOf;
    if ps == [] {
      assert DumpProps(ps) + r == r && done + ps == done;
      NoProp(r, Node(props));
      m := Node(props);
    } else {
      var p, tail := ps[0], DumpProps(ps[1..]) + r;
      var s := p.key + DumpValues(p.values) + tail;
      assert DumpProps(ps) + r == s && s[0] == p.key[0];
      assert Stops(tail) by {
        if |ps| > 1 {
          assert tail[0] == ps[1].key[0] && Legible(ps[1]);
          LetterIsNoSpace(tail[0]);
        }
      }
      LegibleReadsBack(p, tail);
      NextProp(s, Prop(KeyOf(p.key), p.values), tail, Node(props));
      OneMoreProp(done, props, p);
      m := PropsGather(done + [p], Extend(Node(props), Prop(KeyOf(p.key), p.values)).props, ps[1..], r);
      assert done + [p] + ps[1..] == done + ps;
    }
  }

  /** An identifier without a value spoils its node. */
  lemma ValuelessFails(key: string, n: Node, r: string)
    requires key != [] && (forall k :: 0 <= k < |key| ==> IsLetter(key[k])) && Stops(r) && !IsLetter(r[0])
    ensures NodeAt(key + r, n) == Malformed
  {
    hide ValuesAt, Letters, Extend;
    var s := key + r;
    LettersOfKey(key, r);
    LetterIsNoSpace(s[0]);
    NoValue(r);
    assert SkipSpace(s) == s && s[|key|..] == r;
  }

  /** A node's properties, whatever keys come again: one entry for each key, where it first appears, with the values
      of all its properties one after the other. */
  lemma RepeatedKeysGather(ps: seq<Prop>, r: string)
    requires (forall k :: 0 <= k < |ps| ==> Legible(ps[k])) && Stops(r) && !IsLetter(r[0])
    ensures var n := NodeAt(DumpProps(ps) + r, Node([]));
            && n.Got? && n.rest == r && Gathers(ps, n.value.props) && DistinctKeys(n.value.props)
  {
    hide NodeAt, DumpProps;
    var m := PropsGather([], [], ps, r);
    assert [] + ps == ps;
    FirstKeysAreDistinct(ps);
  }
}
