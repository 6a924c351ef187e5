/** Which stones the setup properties of a root list, point by point: single points and rectangles, whatever corners
    a rectangle is written by. */
module SetupReadings {
  import opened Chains
  import opened Boards
  import opened Rules
  import opened Lines
  import opened Coords
  import opened SetupText

  /** Column and row as two letters from `a`. */
  function Corner(x: nat, y: nat): string
    requires x < 25 && y < 25
  {
    ['a' + x as char, 'a' + y as char]
  }

  predicate Between(a: nat, b: nat, x: nat) {
    a <= x <= b || b <= x <= a
  }

  /** The value is a point of the board, or two corners of a rectangle, with `(x, y)` on it. */
  ghost predicate Covers(value: string, size: nat, x: nat, y: nat)
    requires size <= 25
  {
    || (x < size && y < size && value == Corner(x, y))
    || exists a: nat, b: nat, c: nat, d: nat :: CoversFrom(value, size, a, b, c, d, x, y)
  }

  predicate CoversFrom(value: string, size: nat, a: nat, b: nat, c: nat, d: nat, x: nat, y: nat)
    requires size <= 25
  {
    && a < size && b < size && c < size && d < size
    && value == Corner(a, b) + ":" + Corner(c, d) && Between(a, c, x) && Between(b, d, y)
  }

  /** A point is written as its column and row. */
  lemma WrittenAsLetters(x: nat, y: nat, size: nat)
    requires size <= 25 && x < size && y < size
    ensures ToSgf(Some((x, y)), size) == Some(['a' + x as char, 'a' + y as char])
    ensures SgfPoint(['a' + x as char, 'a' + y as char], size) == Some((x, y))
  {
    LetterAt(x);
    LetterAt(y);
    PointReadsBack((x, y), size);
  }

  lemma ReadAsLetters(text: string, size: nat)
    requires size <= 25 && SgfPoint(text, size).Some?
    ensures var p := SgfPoint(text, size).value; text == Corner(p.0, p.1)
  {
    LetterAt(SgfPoint(text, size).value.0);
    LetterAt(SgfPoint(text, size).value.1);
  }

  /** What a move's text names: the empty text a pass, `tt` a pass up to 19 by 19, two letters that the board has the
      point in that column and row, and anything else nothing. */
  lemma MoveTextNames(text: string, size: nat)
    requires size <= 25
    ensures text == "" || (text == "tt" && size <= 19) ==> FromSgf(text, size) == At(None)
    ensures text != "" && !(text == "tt" && size <= 19) ==>
              && (forall x: nat, y: nat :: x < size && y < size ==>
                    (text == Corner(x, y) <==> FromSgf(text, size) == At(Some((x, y)))))
              && (FromSgf(text, size).At? ==> exists x: nat, y: nat :: x < size && y < size && text == Corner(x, y))
  {
    hide SgfPoint;
    forall x: nat, y: nat | x < size && y < size && text == Corner(x, y) ensures SgfPoint(text, size) == Some((x, y)) {
      WrittenAsLetters(x, y, size);
    }
    if SgfPoint(text, size).Some? {
      ReadAsLetters(text, size);
    }
  }

  lemma CornersReadBack(a: nat, b: nat, c: nat, d: nat, size: nat)
    requires size <= 25 && a < size && b < size && c < size && d < size
    ensures RectOf(Corner(a, b), size) == Some(Rect(a, b, a, b))
    ensures RectOf(Corner(a, b) + ":" + Corner(c, d), size)
         == Some(Rect(Min(a, c), Min(b, d), Max(a, c), Max(b, d)))
  {
    hide SgfPoint;
    var s, t := Corner(a, b), Corner(a, b) + ":" + Corner(c, d);
    WrittenAsLetters(a, b, size);
    WrittenAsLetters(c, d, size);
    assert t[0] != ':' && t[1] != ':' && t[2] == ':';
    assert t[..2] == s && t[3..] == Corner(c, d);
  }

  /** A value is read as the rectangle of exactly the points it covers, and not at all when it covers none. */
  lemma RectCovers(value: string, size: nat, x: nat, y: nat)
    requires size <= 25
    ensures Covers(value, size, x, y) <==>
            RectOf(value, size).Some? && var r := RectOf(value, size).value; r.x1 <= x <= r.x2 && r.y1 <= y <= r.y2
  {
    hide SgfPoint;
    if Covers(value, size, x, y) {
      if x < size && y < size && value == Corner(x, y) {
        CornersReadBack(x, y, x, y, size);
      } else {
        var a: nat, b: nat, c: nat, d: nat :| CoversFrom(value, size, a, b, c, d, x, y);
        CornersReadBack(a, b, c, d, size);
      }
    }
    var r := RectOf(value, size);
    if r.Some? && r.value.x1 <= x <= r.value.x2 && r.value.y1 <= y <= r.value.y2 {
      var colon := FindChar(value, ':');
      if colon == |value| {
        ReadAsLetters(value, size);
      } else {
        ReadAsLetters(value[..colon], size);
        ReadAsLetters(value[colon + 1..], size);
        var p, q := SgfPoint(value[..colon], size).value, SgfPoint(value[colon + 1..], size).value;
        assert value == value[..colon] + ":" + value[colon + 1..];
        assert CoversFrom(value, size, p.0, p.1, q.0, q.1, x, y);
      }
    }
  }

  /** A rectangle counts as many points as it lists. */
  lemma {:induction false} RowsCount(x1: nat, x2: nat, y1: nat, y2: nat)
    requires x1 <= x2 && y1 <= y2 + 1
    ensures |Rows(x1, x2, y1, y2)| == (x2 - x1 + 1) * (y2 + 1 - y1)
    decreases y2 + 1 - y1
  {
    if y1 <= y2 {
      RowCount(x1, x2, y1);
      RowsCount(x1, x2, y1 + 1, y2);
      assert (x2 - x1 + 1) * (y2 + 1 - y1) == (x2 - x1 + 1) + (x2 - x1 + 1) * (y2 - y1);
    }
  }

  lemma {:induction false} RowCount(x1: nat, x2: nat, y: nat)
    requires x1 <= x2 + 1
    ensures |Row(x1, x2, y)| == x2 + 1 - x1
    decreases x2 + 1 - x1
  {
    if x1 <= x2 {
      RowCount(x1 + 1, x2, y);
    }
  }

  lemma AreaIsItsPoints(r: Rect)
    requires r.Ok()
    ensures r.Area() == |PointsIn(r)|
  {
    RowsCount(r.x1, r.x2, r.y1, r.y2);
  }

  // ----- what is placed -----

  lemma OwnerIsThere(done: seq<SetupStone>, color: Colour, p: (nat, nat))
    ensures Owner(done, p) == color ==> SetupStone(color, p.0, p.1) in done
  {
    if Owner(done, p) == color {
      var k :| 0 <= k < |done| && (done[k].x, done[k].y) == p && done[k].color == color;
      assert done[k] == SetupStone(color, p.0, p.1);
    }
  }

  lemma {:induction false} PlacedPoints(done: Option<seq<SetupStone>>, color: Colour, ps: seq<(nat, nat)>,
                                        t: SetupStone)
    requires PlaceAll(done, color, ps).Some?
    ensures done.Some?
    ensures t in PlaceAll(done, color, ps).value <==> t in done.value || (t.color == color && (t.x, t.y) in ps)
    decreases |ps|
  {
    hide Owner;
    if ps != [] {
      PlacedPoints(PlaceOne(done, color, ps[0]), color, ps[1..], t);
      OwnerIsThere(done.value, color, ps[0]);
    }
  }

  ghost predicate Lists(ls: seq<Listed>, t: SetupStone) {
    exists k :: 0 <= k < |ls| && ls[k].color == t.color && (t.x, t.y) in PointsIn(ls[k].rect)
  }

  lemma {:induction false} PlacedRects(done: Option<seq<SetupStone>>, ls: seq<Listed>, t: SetupStone)
    requires PlaceRects(done, ls).Some?
    ensures done.Some? && (t in PlaceRects(done, ls).value <==> t in done.value || Lists(ls, t))
    decreases |ls|
  {
    hide PlaceAll, PointsIn;
    if ls != [] {
      var next := PlaceAll(done, ls[0].color, PointsIn(ls[0].rect));
      PlacedRects(next, ls[1..], t);
      PlacedPoints(done, ls[0].color, PointsIn(ls[0].rect), t);
      ListsFirst(ls, t);
    }
  }

  lemma ListsFirst(ls: seq<Listed>, t: SetupStone)
    requires ls != []
    ensures Lists(ls, t) <==> (ls[0].color == t.color && (t.x, t.y) in PointsIn(ls[0].rect)) || Lists(ls[1..], t)
  {
    hide PointsIn;
    assert forall k :: 0 < k < |ls| ==> ls[k] == ls[1..][k - 1];
  }

  /** Some value of the property covers the point. */
  ghost predicate Covered(values: seq<string>, size: nat, x: nat, y: nat)
    requires size <= 25
  {
    exists v :: v in values && Covers(v, size, x, y)
  }

  lemma {:induction false} RectsCover(values: seq<string>, color: Colour, size: nat, t: SetupStone)
    requires size <= 25 && RectsOf(values, color, size).Some?
    ensures Lists(RectsOf(values, color, size).value, t) <==> t.color == color && Covered(values, size, t.x, t.y)
    decreases |values|
  {
    hide RectOf, Covers, PointsIn;
    if values != [] {
      RectsCover(values[1..], color, size, t);
      RectCovers(values[0], size, t.x, t.y);
      RectLists(RectOf(values[0], size).value, t.x, t.y);
      ListsFirst(RectsOf(values, color, size).value, t);
      assert RectsOf(values, color, size).value[1..] == RectsOf(values[1..], color, size).value;
      CoveredFirst(values, size, t.x, t.y);
    }
  }

  lemma RectLists(r: Rect, x: nat, y: nat)
    ensures (x, y) in PointsIn(r) <==> r.x1 <= x <= r.x2 && r.y1 <= y <= r.y2
  {
    RowsInside(r.x1, r.x2, r.y1, r.y2);
  }

  lemma CoveredFirst(values: seq<string>, size: nat, x: nat, y: nat)
    requires size <= 25 && values != []
    ensures Covered(values, size, x, y) <==> Covers(values[0], size, x, y) || Covered(values[1..], size, x, y)
  {
    hide Covers;
    assert forall v :: v in values <==> v == values[0] || v in values[1..];
  }

  lemma ListsConcat(a: seq<Listed>, b: seq<Listed>, t: SetupStone)
    ensures Lists(a + b, t) <==> Lists(a, t) || Lists(b, t)
  {
    hide PointsIn;
    assert forall k :: 0 <= k < |a| ==> (a + b)[k] == a[k];
    assert forall k :: 0 <= k < |b| ==> (a + b)[|a| + k] == b[k];
  }

  /** The setup a root gives has a stone of a colour on a point exactly when some value of that colour's property covers
      the point; no point is covered by both properties. */
  lemma SetupIsWhatIsCovered(ab: seq<string>, aw: seq<string>, size: nat, x: nat, y: nat)
    requires size <= 25 && SetupOf(ab, aw, size).Some?
    ensures SetupStone(Black, x, y) in SetupOf(ab, aw, size).value <==> Covered(ab, size, x, y)
    ensures SetupStone(White, x, y) in SetupOf(ab, aw, size).value <==> Covered(aw, size, x, y)
    ensures !(Covered(ab, size, x, y) && Covered(aw, size, x, y))
  {
    hide RectsOf, PlaceRects, Covered, Lists;
    var stones, b, w := SetupOf(ab, aw, size).value, RectsOf(ab, Black, size).value, RectsOf(aw, White, size).value;
    var black, white := SetupStone(Black, x, y), SetupStone(White, x, y);
    forall t | t == black || t == white
      ensures t in stones <==> (if t == black then Covered(ab, size, x, y) else Covered(aw, size, x, y))
    {
      PlacedRects(Some([]), b + w, t);
      ListsConcat(b, w, t);
      RectsCover(ab, Black, size, t);
      RectsCover(aw, White, size, t);
    }
    SetupIsTidy(ab, aw, size);
    OneColour(stones, size, x, y);
  }

  lemma OneColour(stones: seq<SetupStone>, size: nat, x: nat, y: nat)
    requires Tidy(stones, size)
    ensures SetupStone(Black, x, y) in stones ==> SetupStone(White, x, y) !in stones
  {
  }

  // ----- when no setup is read -----

  lemma {:induction false} PointsClash(done: seq<SetupStone>, color: Colour, ps: seq<(nat, nat)>)
    returns (t: SetupStone)
    requires PlaceAll(Some(done), color, ps) == None
    ensures t in done && t.color != color && (t.x, t.y) in ps
    decreases |ps|
  {
    hide Owner;
    var seen := Owner(done, ps[0]);
    var next := PlaceOne(Some(done), color, ps[0]);
    if next == None {
      OwnerIsThere(done, seen, ps[0]);
      t := SetupStone(seen, ps[0].0, ps[0].1);
    } else {
      t := PointsClash(next.value, color, ps[1..]);
    }
  }

  lemma {:induction false} RectsClash(done: seq<SetupStone>, ls: seq<Listed>) returns (t: SetupStone, u: SetupStone)
    requires PlaceRects(Some(done), ls) == None
    ensures (t.x, t.y) == (u.x, u.y) && t.color != u.color
    ensures (t in done || Lists(ls, t)) && Lists(ls, u)
    decreases |ls|
  {
    hide PlaceAll, PointsIn;
    var ps := PointsIn(ls[0].rect);
    var next := PlaceAll(Some(done), ls[0].color, ps);
    if next == None {
      t := PointsClash(done, ls[0].color, ps);
      u := SetupStone(ls[0].color, t.x, t.y);
    } else {
      t, u := RectsClash(next.value, ls[1..]);
      PlacedPoints(Some(done), ls[0].color, ps, t);
      ListsFirst(ls, t);
      ListsFirst(ls, u);
    }
    ListsFirst(ls, u);
  }

  lemma {:induction false} RectsUnread(values: seq<string>, color: Colour, size: nat)
    requires size <= 25
    ensures RectsOf(values, color, size) == None <==> exists v :: v in values && RectOf(v, size) == None
    decreases |values|
  {
    hide RectOf;
    if values != [] {
      RectsUnread(values[1..], color, size);
      assert forall v :: v in values <==> v == values[0] || v in values[1..];
    }
  }

  lemma UnreadCoversNothing(value: string, size: nat)
    requires size <= 25
    ensures RectOf(value, size) == None <==> forall x: nat, y: nat :: !Covers(value, size, x, y)
  {
    hide Covers;
    forall x: nat, y: nat | RectOf(value, size) == None ensures !Covers(value, size, x, y) {
      RectCovers(value, size, x, y);
    }
    if RectOf(value, size).Some? {
      var r := RectOf(value, size).value;
      RectCovers(value, size, r.x1, r.y1);
    }
  }

  /** The setup of a root is refused exactly when a value covers no point, the areas add up to more points than the
      board has, or a point is covered by both properties. */
  lemma SetupIsRefusedExactly(ab: seq<string>, aw: seq<string>, size: nat)
    requires size <= 25
    ensures var b, w := RectsOf(ab, Black, size), RectsOf(aw, White, size);
            SetupOf(ab, aw, size) == None <==>
              || (exists v :: v in ab + aw && forall x: nat, y: nat :: !Covers(v, size, x, y))
              || (b.Some? && w.Some? && TotalArea(b.value) + TotalArea(w.value) > size * size)
              || exists x: nat, y: nat :: Covered(ab, size, x, y) && Covered(aw, size, x, y)
  {
    hide RectsOf, PlaceRects, Covered, Lists, Covers, RectOf;
    var b, w := RectsOf(ab, Black, size), RectsOf(aw, White, size);
    RectsUnread(ab, Black, size);
    RectsUnread(aw, White, size);
    assert forall v :: v in ab || v in aw <==> v in ab + aw;
    forall v | v in ab + aw
      ensures RectOf(v, size) == None <==> forall x: nat, y: nat :: !Covers(v, size, x, y)
    {
      UnreadCoversNothing(v, size);
    }
    if SetupOf(ab, aw, size).Some? {
      forall x: nat, y: nat ensures !(Covered(ab, size, x, y) && Covered(aw, size, x, y)) {
        SetupIsWhatIsCovered(ab, aw, size, x, y);
      }
    } else if b.Some? && w.Some? && TotalArea(b.value) + TotalArea(w.value) <= size * size {
      var t, u := RectsClash([], b.value + w.value);
      ListsConcat(b.value, w.value, t);
      ListsConcat(b.value, w.value, u);
      RectsCover(ab, Black, size, t);
      RectsCover(aw, White, size, t);
      RectsCover(ab, Black, size, u);
      RectsCover(aw, White, size, u);
    }
  }
}
