/** What is read from a game text that the program did not write: the defaults of a root, how rules may be named, and
    which of the moves are played. */
module GameReadings {
  import opened Chains
  import opened Boards
  import opened Rules
  import opened Lines
  import opened Records
  import opened Coords
  import opened Sgf
  import opened Text
  import opened SetupText
  import opened GameText
  import opened GameRoundTrip

  // ----- the root -----

  predicate Lacks(root: Node, key: string) {
    forall k :: 0 <= k < |root.props| ==> root.props[k].key != key
  }

  lemma LackingIsEmpty(root: Node, key: string)
    requires Lacks(root, key)
    ensures !Has(root, key) && Get(root, key) == "" && Lookup(root.props, key) == []
  {
  }

  /** A root that says nothing of a game starts an empty 19 by 19 game under Japanese rules. */
  lemma BareRootReads(root: Node, fl: Floats, maxMoves: nat)
    requires Lacks(root, "SZ") && Lacks(root, "KM") && Lacks(root, "HA") && Lacks(root, "RU") && Lacks(root, "PL")
    requires Lacks(root, "PB") && Lacks(root, "PW") && Lacks(root, "AB") && Lacks(root, "AW")
    ensures GameOfRoot(root, fl, maxMoves)
         == Some(GameState(Setup(19, RuleSet("japanese", SimpleKo, false, 6.5), [], Black, maxMoves), 6.5, 0, "Black",
                           "White", [], 0, ""))
  {
    hide Get, Has, Lookup, Lacks, RulesOf, SetupOf, Strip, Lower;
    LackingIsEmpty(root, "SZ");
    LackingIsEmpty(root, "KM");
    LackingIsEmpty(root, "HA");
    LackingIsEmpty(root, "RU");
    LackingIsEmpty(root, "PL");
    LackingIsEmpty(root, "PB");
    LackingIsEmpty(root, "PW");
    LackingIsEmpty(root, "AB");
    LackingIsEmpty(root, "AW");
    NoRulesGiven();
    NothingIsSetUp();
    EmptyIsEmpty();
  }

  lemma EmptyIsEmpty()
    ensures Strip("") == "" && Lower("") == ""
  {
  }

  lemma NothingIsSetUp()
    ensures SetupOf([], [], 19) == Some([])
  {
  }

  // ----- rules -----

  lemma {:induction false} RulesNotNamed(name: string, from: seq<RuleSet>)
    requires forall k :: 0 <= k < |from| ==> from[k].name != name
    ensures RulesNamed(name, from) == None
    decreases |from|
  {
    if from != [] {
      RulesNotNamed(name, from[1..]);
    }
  }

  lemma NoRulesGiven()
    ensures RulesOf("") == RuleSet("japanese", SimpleKo, false, 6.5)
  {
    hide RulesNamed;
    RulesNotNamed("", RULE_SETS);
    assert Strip("") == "" && Replace("", '_', "-") == "" && Replace("", ' ', "-") == "" && Lower("") == "";
    assert Alias("", RULE_ALIASES) == "";
  }

  /** `c` writes the character `d` of a rule set's name: a letter in either case, or one of three for a dash. */
  predicate Spells(c: char, d: char) {
    if d == '-' then c in "-_ " else 'a' <= d <= 'z' && (c == d || c as int == d as int - 32)
  }

  lemma {:induction false} StripSpaces(a: string, s: string, b: string)
    requires s != [] && !IsSpace(s[0]) && !IsSpace(s[|s| - 1])
    requires forall k :: 0 <= k < |a| ==> IsSpace(a[k])
    requires forall k :: 0 <= k < |b| ==> IsSpace(b[k])
    ensures Strip(a + s + b) == s
  {
    StripLeftSpaces(a, s + b);
    assert a + s + b == a + (s + b);
    StripRightSpaces(s, b);
  }

  lemma {:induction false} StripLeftSpaces(a: string, s: string)
    requires s != [] && !IsSpace(s[0]) && forall k :: 0 <= k < |a| ==> IsSpace(a[k])
    ensures StripLeft(a + s) == s
  {
    if a == [] {
      assert a + s == s;
    } else {
      assert (a + s)[1..] == a[1..] + s;
      StripLeftSpaces(a[1..], s);
    }
  }

  lemma {:induction false} StripRightSpaces(s: string, b: string)
    requires s != [] && !IsSpace(s[|s| - 1]) && forall k :: 0 <= k < |b| ==> IsSpace(b[k])
    ensures StripRight(s + b) == s
    decreases |b|
  {
    if b == [] {
      assert s + b == s;
    } else {
      assert (s + b)[..|s + b| - 1] == s + b[..|b| - 1];
      StripRightSpaces(s, b[..|b| - 1]);
    }
  }

  lemma {:induction false} ReplaceEach(s: string, c: char, d: char)
    ensures |Replace(s, c, [d])| == |s|
    ensures forall k :: 0 <= k < |s| ==> Replace(s, c, [d])[k] == if s[k] == c then d else s[k]
  {
    if s != [] {
      ReplaceEach(s[1..], c, d);
    }
  }

  /** However a rule set is written, in any case, with spaces or underscores for dashes and white space around it, it
      is read as that rule set. */
  lemma RulesAreReadLoosely(r: RuleSet, a: string, w: string, b: string)
    requires r in RULE_SETS && |w| == |r.name| && forall k :: 0 <= k < |w| ==> Spells(w[k], r.name[k])
    requires (forall k :: 0 <= k < |a| ==> IsSpace(a[k])) && (forall k :: 0 <= k < |b| ==> IsSpace(b[k]))
    ensures RulesOf(a + w + b) == r
  {
    var i :| 0 <= i < |RULE_SETS| && RULE_SETS[i] == r;
    NameEnds(i);
    hide Strip, Replace, Lower, Alias, RulesNamed, IsSpace, Spells, IsWord;
    LetterIsNoSpace(w[0], r.name[0]);
    LetterIsNoSpace(w[|w| - 1], r.name[|w| - 1]);
    StripSpaces(a, w, b);
    RuleNamesDiffer(i);
    SpeltIsName(w, r.name);
    WordIsPlain(r.name);
  }

  lemma SpeltIsName(w: string, name: string)
    requires |w| == |name| && forall k :: 0 <= k < |w| ==> Spells(w[k], name[k])
    ensures Replace(Replace(Lower(w), '_', "-"), ' ', "-") == name
  {
    hide Replace, Lower, Spells;
    var dashed := Replace(Lower(w), '_', "-");
    var key := Replace(dashed, ' ', "-");
    ReplaceEach(Lower(w), '_', '-');
    ReplaceEach(dashed, ' ', '-');
    LowerEach(w);
    forall k | 0 <= k < |w| ensures key[k] == name[k] {
      SpeltLetter(w[k], name[k]);
    }
  }

  function LowerOne(c: char): char {
    if 'A' <= c <= 'Z' then c - 'A' + 'a' else if c == '\U{212A}' then 'k' else c
  }

  lemma LowerEach(w: string)
    ensures |Lower(w)| == |w| && forall k :: 0 <= k < |w| ==> Lower(w)[k] == LowerOne(w[k])
  {
  }

  lemma SpeltLetter(c: char, d: char)
    requires Spells(c, d)
    ensures var e := if LowerOne(c) == '_' then '-' else LowerOne(c); (if e == ' ' then '-' else e) == d
  {
  }

  lemma AliasIsRead(w: string, i: nat)
    requires i < |RULE_SETS| && IsWord(w) && Alias(w, RULE_ALIASES) == RULE_SETS[i].name
    ensures RulesOf(w) == RULE_SETS[i]
  {
    hide Strip, Lower, Replace, Alias, RulesNamed;
    WordIsPlain(w);
    RuleNamesDiffer(i);
    WordIsPlain(RULE_SETS[i].name);
  }

  /** Four short names stand for rule sets. */
  lemma AliasesRead()
    ensures RulesOf("jp").name == "japanese" && RulesOf("cn").name == "chinese"
    ensures RulesOf("nz").name == "new-zealand" && RulesOf("tromptaylor").name == "tromp-taylor"
  {
    hide RulesOf;
    AliasIsRead("jp", 0);
    AliasIsRead("cn", 2);
    AliasIsRead("nz", 4);
    AliasIsRead("tromptaylor", 5);
  }

  lemma LetterIsNoSpace(c: char, d: char)
    requires 'a' <= d <= 'z' && Spells(c, d)
    ensures !IsSpace(c)
  {
  }

  lemma NameEnds(i: nat)
    requires i < |RULE_SETS|
    ensures var n := RULE_SETS[i].name; n != "" && 'a' <= n[0] <= 'z' && 'a' <= n[|n| - 1] <= 'z'
  {
  }

  // ----- the moves -----

  /** A move a main line asks for: its colour, the text of its point, and the comment of its node. */
  datatype Asked = Asked(color: Colour, text: string, comment: string)

  predicate SetsUp(n: Node) {
    !Lacks(n, "AB") || !Lacks(n, "AW") || !Lacks(n, "AE")
  }

  function AskedBy(n: Node, key: string, color: Colour): seq<Asked> {
    if Lacks(n, key) then [] else [Asked(color, Get(n, key), Get(n, "C"))]
  }

  /** What the nodes ask for, a black move of a node before its white one, up to a node with setup stones. */
  function AskedMoves(ns: seq<Node>): seq<Asked> {
    if ns == [] || SetsUp(ns[0]) then []
    else AskedBy(ns[0], "B", Black) + AskedBy(ns[0], "W", White) + AskedMoves(ns[1..])
  }

  /** The move `m` is what was asked for. */
  predicate Answers(m: Move, q: Asked, size: nat) {
    m.color == q.color && FromSgf(q.text, size) == At(m.point) && m.comment == q.comment
  }

  ghost predicate CannotPlay(st: GameState, q: Asked)
    requires st.Ok()
  {
    var p := FromSgf(q.text, st.setup.size);
    p.BadCoordinate? || Played(st, q.color, p.point, q.comment) == None
  }

  lemma HasOrLacks(n: Node, key: string)
    ensures Has(n, key) <==> !Lacks(n, key)
  {
  }

  lemma NothingAsked(n: Node, key: string, color: Colour, st: GameState)
    requires st.Ok() && Lacks(n, key)
    ensures AskedBy(n, key, color) == [] && PlayProp(st, n, key, color) == Some(st)
  {
    hide Lacks, Played, FromSgf;
    HasOrLacks(n, key);
  }

  /** `end` is `st` with the first `k` of the asked moves played. */
  ghost predicate PlayedOf(st: GameState, qs: seq<Asked>, k: nat, end: GameState) {
    && k <= |qs| && |end.moves| == |st.moves| + k && end.moves[..|st.moves|] == st.moves
    && (forall i :: 0 <= i < k ==> Answers(end.moves[|st.moves| + i], qs[i], st.setup.size))
    && end == st.(moves := end.moves, cursor := |end.moves|, result := if k > 0 then "" else st.result)
  }

  /** One property: its move is played, or cannot be. */
  lemma OneAsked(st: GameState, n: Node, key: string, color: Colour)
    requires st.Ok() && st.cursor == |st.moves|
    ensures var qs, r := AskedBy(n, key, color), PlayProp(st, n, key, color);
            if r.Some? then PlayedOf(st, qs, |qs|, r.value) else |qs| == 1 && CannotPlay(st, qs[0])
  {
    hide Lacks, Judge, FromSgf, WellPlayed;
    HasOrLacks(n, key);
    if Lacks(n, key) {
      NothingAsked(n, key, color, st);
    }
    assert st.moves[..|st.moves|] == st.moves;
  }

  lemma PlayedOn(st: GameState, a: seq<Asked>, mid: GameState, b: seq<Asked>, k: nat, end: GameState)
    requires PlayedOf(st, a, |a|, mid) && PlayedOf(mid, b, k, end)
    ensures PlayedOf(st, a + b, |a| + k, end)
  {
    hide Answers;
    assert end.moves[..|st.moves|] == end.moves[..|mid.moves|][..|st.moves|];
    forall i | 0 <= i < |a| + k ensures Answers(end.moves[|st.moves| + i], (a + b)[i], st.setup.size) {
      if i < |a| {
        assert end.moves[|st.moves| + i] == end.moves[..|mid.moves|][|st.moves| + i];
      } else {
        assert end.moves[|st.moves| + i] == end.moves[|mid.moves| + (i - |a|)];
      }
    }
  }

  lemma NonePlayed(st: GameState, qs: seq<Asked>)
    requires st.cursor == |st.moves|
    ensures PlayedOf(st, qs, 0, st)
  {
  }

  lemma {:induction false} AskedPlayed(st: GameState, ns: seq<Node>) returns (k: nat)
    requires st.Ok() && st.cursor == |st.moves|
    ensures PlayedOf(st, AskedMoves(ns), k, ReadMoves(st, ns))
    ensures k < |AskedMoves(ns)| ==> CannotPlay(ReadMoves(st, ns), AskedMoves(ns)[k])
    decreases |ns|
  {
    hide PlayedOf, CannotPlay, PlayProp, AskedBy, Lacks, Has;
    if ns == [] {
      NonePlayed(st, []);
      return 0;
    }
    HasOrLacks(ns[0], "AB");
    HasOrLacks(ns[0], "AW");
    HasOrLacks(ns[0], "AE");
    if SetsUp(ns[0]) {
      NonePlayed(st, []);
      return 0;
    }
    var b, w, rest := AskedBy(ns[0], "B", Black), AskedBy(ns[0], "W", White), AskedMoves(ns[1..]);
    OneAsked(st, ns[0], "B", Black);
    assert AskedMoves(ns) == b + w + rest && b + w + rest == b + (w + rest);
    var black := PlayProp(st, ns[0], "B", Black);
    if black.None? {
      NonePlayed(st, b + w + rest);
      return 0;
    }
    AtItsEnd(st, b, |b|, black.value);
    OneAsked(black.value, ns[0], "W", White);
    var white := PlayProp(black.value, ns[0], "W", White);
    if white.None? {
      NonePlayed(black.value, w + rest);
      PlayedOn(st, b, black.value, w + rest, 0, black.value);
      return |b|;
    }
    AtItsEnd(black.value, w, |w|, white.value);
    k := AskedPlayed(white.value, ns[1..]);
    PlayedOn(black.value, w, white.value, rest, k, ReadMoves(white.value, ns[1..]));
    PlayedOn(st, b, black.value, w + rest, |w| + k, ReadMoves(white.value, ns[1..]));
    k := |b| + |w| + k;
  }

  lemma AtItsEnd(st: GameState, qs: seq<Asked>, k: nat, end: GameState)
    requires PlayedOf(st, qs, k, end)
    ensures end.cursor == |end.moves|
  {
  }

  /** The moves a text asks for are played in order until one cannot be: each move added answers the asked one, point
      and comment, and if any is left, the first of them is no move on this board or is illegal there. */
  lemma MovesPlayedWhilePossible(st: GameState, ns: seq<Node>)
    requires st.Ok() && st.cursor == |st.moves|
    ensures var end, qs, n := ReadMoves(st, ns), AskedMoves(ns), |st.moves|;
            && n <= |end.moves| <= n + |qs| && end.moves[..n] == st.moves
            && (forall i :: 0 <= i < |end.moves| - n ==>
                  && end.moves[n + i].color == qs[i].color && end.moves[n + i].comment == qs[i].comment
                  && FromSgf(qs[i].text, st.setup.size) == At(end.moves[n + i].point))
            && end == st.(moves := end.moves, cursor := |end.moves|,
                          result := if |end.moves| > n then "" else st.result)
            && (|end.moves| < n + |qs| ==>
                  var q := qs[|end.moves| - n];
                  var p := FromSgf(q.text, st.setup.size);
                  p.BadCoordinate? || Played(end, q.color, p.point, q.comment) == None)
  {
    hide FromSgf, Played, ReadMoves, AskedMoves;
    var k := AskedPlayed(st, ns);
  }

  // ----- parts of a root that are missing -----

  /** Whatever else a root gives: without a size it is 19, without a komi that of the rules or half a point with a
      handicap, without a handicap none, without a first player White exactly when there is a handicap; and a handicap
      takes setup stones and is two or more. */
  lemma MissingPartsDefault(root: Node, fl: Floats, maxMoves: nat)
    requires GameOfRoot(root, fl, maxMoves).Some?
    ensures var st := GameOfRoot(root, fl, maxMoves).value;
            && (Lacks(root, "SZ") ==> st.setup.size == 19)
            && (Lacks(root, "KM") ==> st.komi == if st.handicap > 0 then 0.5 else st.setup.rules.defaultKomi)
            && (Lacks(root, "HA") ==> st.handicap == 0)
            && (st.handicap > 0 ==> st.handicap >= 2 && st.setup.stones != [])
            && (Lacks(root, "PL") ==> st.setup.first == if st.handicap > 0 then White else Black)
            && (Lacks(root, "PB") ==> st.blackName == "Black") && (Lacks(root, "PW") ==> st.whiteName == "White")
            && (Lacks(root, "RU") ==> st.setup.rules.name == "japanese")
            && st.moves == [] && st.cursor == 0 && st.result == "" && st.setup.maxMoves == maxMoves
            && Some(st.setup.stones) == SetupOf(Lookup(root.props, "AB"), Lookup(root.props, "AW"), st.setup.size)
  {
    hide SetupOf, Strip, Lower, RulesOf;
    NoRulesGiven();
    EmptyIsEmpty();
  }

  // ----- the size -----

  /** A size is a number from 2 to 25, alone or twice with a colon between. */
  lemma SizesRead(root: Node, n: nat, m: nat)
    requires n < 10000 && m < 10000 && Has(root, "SZ")
    ensures Get(root, "SZ") == Decimal(n) ==> SizeOf(root) == if 2 <= n <= 25 then Some(n) else None
    ensures Get(root, "SZ") == Decimal(n) + ":" + Decimal(m) ==>
              SizeOf(root) == if n == m && 2 <= n <= 25 then Some(n) else None
  {
    hide Decimal, SmallInt;
    SmallIntReadsBack(n);
    SmallIntReadsBack(m);
    var one, two := Decimal(n), Decimal(n) + ":" + Decimal(m);
    assert FindChar(one, ':') == |one| && one[..|one|] == one;
    assert two[|one|] == ':' && forall k :: 0 <= k < |one| ==> two[k] == one[k];
    assert FindChar(two, ':') == |one| && two[..|one|] == one && two[|one| + 1..] == Decimal(m);
  }

  // ----- the handicap and the first player -----

  /** A handicap is a number up to the points of the board, with white space or a sign before it; a minus only of 0. */
  lemma HandicapsRead(root: Node, size: nat, a: string, sign: string, n: nat, b: string)
    requires Has(root, "HA") && Get(root, "HA") == a + (sign + Decimal(n)) + b && n < 10000
    requires sign in ["", "+", "-"]
    requires (forall k :: 0 <= k < |a| ==> IsSpace(a[k])) && (forall k :: 0 <= k < |b| ==> IsSpace(b[k]))
    ensures HandicapOf(root, size) == if n > size * size || (sign == "-" && n > 0) then None else Some(n)
  {
    hide Decimal, SmallInt, StripLeft, StripRight, Strip, Has, Get;
    SmallIntReadsBack(n);
    var value := sign + Decimal(n);
    DigitsAreNoSpace(Decimal(n));
    StripSpaces(a, value, b);
    assert sign != "" ==> value[1..] == Decimal(n);
    assert sign == "" ==> value == Decimal(n);
  }

  lemma DigitsAreNoSpace(s: string)
    requires AllDigits(s)
    ensures forall k :: 0 <= k < |s| ==> !IsSpace(s[k]) && s[k] != '+' && s[k] != '-'
  {
  }

  /** The first player is a colour's name or initial, in any case, with white space around it. */
  lemma FirstPlayersRead(root: Node, handicap: nat, a: string, w: string, name: string, b: string)
    requires Get(root, "PL") == a + w + b && |w| == |name| && forall k :: 0 <= k < |w| ==> Spells(w[k], name[k])
    requires (forall k :: 0 <= k < |a| ==> IsSpace(a[k])) && (forall k :: 0 <= k < |b| ==> IsSpace(b[k]))
    requires name in ["b", "black", "w", "white"]
    ensures FirstOf(root, handicap) == if name == "b" || name == "black" then Black else White
  {
    hide StripLeft, StripRight, Strip, Lower, Get, IsSpace;
    LetterIsNoSpace(w[0], name[0]);
    LetterIsNoSpace(w[|w| - 1], name[|w| - 1]);
    StripSpaces(a, w, b);
    LowerEach(w);
    assert Lower(w) == name;
  }
}
