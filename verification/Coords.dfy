/** SGF points and the fixed handicap points. A point is `(x, y)` from the top-left. */
module Coords {
  import opened Boards
  import opened Rules

  const SGF_LETTERS := "abcdefghijklmnopqrstuvwxy"

  /** What a text names: nothing on this board, or a point, a pass having none. */
  datatype Named = BadCoordinate | At(point: Option<(int, int)>)

  predicate OnBoard(point: (int, int), size: nat) {
    0 <= point.0 < size && 0 <= point.1 < size
  }

  /** The first place of `c`, or the length when it is not there. */
  function FindChar(s: string, c: char): (k: nat)
    ensures k <= |s| && (k < |s| ==> s[k] == c)
    ensures forall j :: 0 <= j < k ==> s[j] != c
  {
    if s == [] || s[0] == c then 0 else 1 + FindChar(s[1..], c)
  }

  /** How SGF writes a point or, empty, a pass; `None` for a point that is not on the board. */
  function ToSgf(point: Option<(int, int)>, size: nat): Option<string>
    requires size <= 25
  {
    if point.None? then Some("")
    else if !OnBoard(point.value, size) then None
    else Some([SGF_LETTERS[point.value.0], SGF_LETTERS[point.value.1]])
  }

  /** The point two letters name, if the board has it. */
  function SgfPoint(text: string, size: nat): (r: Option<(int, int)>)
    ensures r.Some? ==> OnBoard(r.value, size)
  {
    if |text| != 2 then None
    else
      var x, y := FindChar(SGF_LETTERS, text[0]), FindChar(SGF_LETTERS, text[1]);
      if x == |SGF_LETTERS| || y == |SGF_LETTERS| || !OnBoard((x, y), size) then None else Some((x, y))
  }

  /** What a move's text names; a pass has two texts on boards up to 19. */
  function FromSgf(text: string, size: nat): Named {
    if text == "" || (text == "tt" && size <= 19) then At(None)
    else
      var p := SgfPoint(text, size);
      if p.None? then BadCoordinate else At(p)
  }

  lemma LettersDiffer(i: nat, j: nat)
    requires i < |SGF_LETTERS| && j < |SGF_LETTERS|
    ensures |SGF_LETTERS| == 25
    ensures SGF_LETTERS[i] == 'a' + i as char
    ensures SGF_LETTERS[i] == SGF_LETTERS[j] ==> i == j
  {
    LetterAt(i);
    LetterAt(j);
  }

  lemma LetterAt(i: nat)
    requires i < |SGF_LETTERS|
    ensures |SGF_LETTERS| == 25 && SGF_LETTERS[i] == 'a' + i as char
  {
    var s := SGF_LETTERS;
    assert s[0] == 'a' && s[1] == 'b' && s[2] == 'c' && s[3] == 'd' && s[4] == 'e';
    assert s[5] == 'f' && s[6] == 'g' && s[7] == 'h' && s[8] == 'i' && s[9] == 'j';
    assert s[10] == 'k' && s[11] == 'l' && s[12] == 'm' && s[13] == 'n' && s[14] == 'o';
    assert s[15] == 'p' && s[16] == 'q' && s[17] == 'r' && s[18] == 's' && s[19] == 't';
    assert s[20] == 'u' && s[21] == 'v' && s[22] == 'w' && s[23] == 'x' && s[24] == 'y';
  }

  lemma PointReadsBack(p: (int, int), size: nat)
    requires size <= 25 && OnBoard(p, size)
    ensures SgfPoint(ToSgf(Some(p), size).value, size) == Some(p)
    ensures |ToSgf(Some(p), size).value| == 2 && ':' !in ToSgf(Some(p), size).value
  {
    LettersDiffer(p.0, FindChar(SGF_LETTERS, SGF_LETTERS[p.0]));
    LettersDiffer(p.1, FindChar(SGF_LETTERS, SGF_LETTERS[p.1]));
  }

  /** Every point on a board, and a pass, is written as a text that reads back as it. */
  lemma MoveReadsBack(p: Option<(int, int)>, size: nat)
    requires size <= 25 && (p.Some? ==> OnBoard(p.value, size))
    ensures ToSgf(p, size).Some? && FromSgf(ToSgf(p, size).value, size) == At(p)
  {
    if p.Some? {
      PointReadsBack(p.value, size);
      var t := ToSgf(p, size).value;
      if t == "tt" {
        LettersDiffer(p.value.0, 19);
        assert t[0] == 't';
      }
    }
  }

  /** Every text that names a point is the text that point is written as: only the passes have two names. */
  lemma NameIsUnique(text: string, size: nat)
    requires size <= 25 && FromSgf(text, size).At?
    ensures ToSgf(FromSgf(text, size).point, size) == Some(text) || (text == "tt" && size <= 19)
  {
    if |text| == 2 { assert text == [text[0], text[1]]; }
  }

  // ----- handicap -----

  predicate HandicapAllowed(size: nat, count: int) {
    if count == 0 || count == 1 then true
    else if count < 0 || size < 7 then false
    else if size == 7 || size % 2 == 0 then 2 <= count <= 4
    else 2 <= count <= 9
  }

  /** GTP's fixed handicap points, in its order; `None` where the size does not allow the count. */
  function HandicapPoints(size: nat, count: int): Option<seq<(nat, nat)>> {
    if !HandicapAllowed(size, count) then None
    else if count < 2 then Some([])
    else
      var edge := if size <= 12 then 2 else 3;
      var low, high, mid := edge, size - 1 - edge, size / 2;
      var corners := [(low, high), (high, low), (low, low), (high, high)];
      var sides, ends, centre := [(low, mid), (high, mid)], [(mid, high), (mid, low)], [(mid, mid)];
      if count <= 4 then Some(corners[..count])
      else if count == 5 then Some(corners + centre)
      else if count == 6 then Some(corners + sides)
      else if count == 7 then Some(corners + sides + centre)
      else if count == 8 then Some(corners + sides + ends)
      else Some(corners + sides + ends + centre)
  }

  predicate OnLines(size: nat, a: nat) {
    var edge := if size <= 12 then 2 else 3;
    size >= 7 && (a == edge || a == size - 1 - edge || (size >= 9 && size % 2 == 1 && a == size / 2))
  }

  lemma HandicapOnLines(size: nat, count: int)
    requires HandicapPoints(size, count).Some?
    ensures forall p :: p in HandicapPoints(size, count).value ==> OnLines(size, p.0) && OnLines(size, p.1)
  {
  }

  lemma HandicapDistinct(size: nat, count: int)
    requires HandicapPoints(size, count).Some?
    ensures var q := HandicapPoints(size, count).value;
            |q| == (if count < 2 then 0 else count) && Distinct(q)
  {
  }

  /** The points a count of stones takes on three lines each way. */
  function Plan(near: nat, mid: nat, far: nat, count: int): seq<(nat, nat)> {
    [(near, far), (far, near)] + (if count >= 3 then [(near, near)] else []) + (if count >= 4 then [(far, far)] else [])
    + (if count >= 6 then [(near, mid), (far, mid)] else []) + (if count >= 8 then [(mid, far), (mid, near)] else [])
    + (if count >= 5 && count % 2 == 1 then [(mid, mid)] else [])
  }

  lemma HandicapIsPlan(size: nat, count: int)
    requires HandicapPoints(size, count).Some? && count >= 2
    ensures var near := if size <= 12 then 2 else 3;
            size >= 7 && near < size / 2 < size - 1 - near
            && HandicapPoints(size, count).value == Plan(near, size / 2, size - 1 - near, count)
  {
  }

  lemma PlanHas(near: nat, mid: nat, far: nat, count: int, p: (nat, nat))
    requires near < mid < far
    ensures p in Plan(near, mid, far, count) <==>
            || p == (near, far) || p == (far, near)
            || (count >= 3 && p == (near, near)) || (count >= 4 && p == (far, far))
            || (count >= 6 && (p == (near, mid) || p == (far, mid)))
            || (count >= 8 && (p == (mid, far) || p == (mid, near)))
            || (count >= 5 && count % 2 == 1 && p == (mid, mid))
  {
  }

  /** Which points a count of handicap stones takes, on the third lines up to 12, the fourth from 13: two opposite
      corners, the third and the fourth from those counts on, the left and right sides from six, the other two from
      eight, and the centre for odd counts from five. */
  lemma HandicapStandsOn(size: nat, count: int, p: (nat, nat))
    requires HandicapPoints(size, count).Some? && count >= 2
    ensures var near, far, mid := if size <= 12 then 2 else 3, if size <= 12 then size - 3 else size - 4, size / 2;
            p in HandicapPoints(size, count).value <==>
              || p == (near, far) || p == (far, near)
              || (count >= 3 && p == (near, near)) || (count >= 4 && p == (far, far))
              || (count >= 6 && (p == (near, mid) || p == (far, mid)))
              || (count >= 8 && (p == (mid, far) || p == (mid, near)))
              || (count >= 5 && count % 2 == 1 && p == (mid, mid))
  {
    hide HandicapPoints, Plan;
    HandicapIsPlan(size, count);
    var near := if size <= 12 then 2 else 3;
    PlanHas(near, size / 2, size - 1 - near, count, p);
  }

  /** The points are as many as asked, all different, off all four edges, and no two are next to each other. */
  lemma HandicapPointsStandApart(size: nat, count: int)
    requires HandicapPoints(size, count).Some?
    ensures var q := HandicapPoints(size, count).value;
            && |q| == (if count < 2 then 0 else count) && Distinct(q)
            && forall p :: p in q ==>
                 && 0 < p.0 < size - 1 && 0 < p.1 < size - 1
                 && (p.0 - 1, p.1) !in q && (p.0 + 1, p.1) !in q && (p.0, p.1 - 1) !in q && (p.0, p.1 + 1) !in q
  {
    HandicapOnLines(size, count);
    HandicapDistinct(size, count);
    hide HandicapPoints, Distinct;
    assert forall a: nat :: OnLines(size, a) ==> 0 < a < size - 1 && !OnLines(size, a - 1) && !OnLines(size, a + 1);
  }
}
