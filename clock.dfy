/**
 * The seven-segment clock of SevenSegmentClock.cs: the digit activation
 * table, the chamfered segment and rhombus outlines, the layout of the time
 * digits with the colon after the second one, and the blinking colon.
 * Coordinates are exact reals; the source's integer divisions of its int
 * constants stay integer divisions.
 */
module Clock {

  const SegmentWidth: int := 13
  const SegmentLength: int := 45
  const TriangleSize: int := 8
  const DigitSpacing: int := 5

  /** The size the layout passes for the colon's rhombi. */
  const ColonSize: real := 10.0

  /**
   * Digit -> lit segments, in the slot order top, upper right, lower right,
   * bottom, lower left, upper left, middle.
   */
  const DigitSegments: seq<seq<bool>> := [
    [true, true, true, true, true, true, false],
    [false, true, true, false, false, false, false],
    [true, true, false, true, true, false, true],
    [true, true, true, true, false, false, true],
    [false, true, true, false, false, true, true],
    [true, false, true, true, false, true, true],
    [true, false, true, true, true, true, true],
    [true, true, true, false, false, false, false],
    [true, true, true, true, true, true, true],
    [true, true, true, true, false, true, true]
  ]

  datatype Point = Point(x: real, y: real)

  predicate InBox(p: Point, x0: real, y0: real, x1: real, y1: real) {
    x0 <= p.x <= x1 && y0 <= p.y <= y1
  }

  function Abs(r: real): real {
    if r < 0.0 then -r else r
  }

  /** Reflections about the vertical line x = c and the horizontal line y = c. */
  function MirrorX(p: Point, c: real): Point { Point(2.0 * c - p.x, p.y) }
  function MirrorY(p: Point, c: real): Point { Point(p.x, 2.0 * c - p.y) }

  /** The same points with their coordinates swapped. */
  function Transposed(pts: seq<Point>): (r: seq<Point>)
    ensures |r| == |pts|
  {
    seq(|pts|, i requires 0 <= i < |pts| => Point(pts[i].y, pts[i].x))
  }

  /** The same points moved by (dx, dy). */
  function Translated(pts: seq<Point>, dx: real, dy: real): (r: seq<Point>)
    ensures |r| == |pts|
  {
    seq(|pts|, i requires 0 <= i < |pts| => Point(pts[i].x + dx, pts[i].y + dy))
  }

  // ------------------------------------------------------------------
  // Outlines
  // ------------------------------------------------------------------

  /**
   * A horizontal segment of length l anchored at (x, y): a hexagon of height
   * SegmentWidth with both ends cut to a point by TriangleSize.
   */
  function HorizontalSegment(x: real, y: real, l: real): (pts: seq<Point>)
    ensures |pts| == 6
  {
    var w, t := SegmentWidth as real, TriangleSize as real;
    [Point(x + t, y), Point(x + l - t, y), Point(x + l, y + w / 2.0),
     Point(x + l - t, y + w), Point(x + t, y + w), Point(x, y + w / 2.0)]
  }

  /**
   * A horizontal segment is symmetric about its vertical and its horizontal
   * centre line: each reflection maps its point i to its point i'.
   */
  lemma HorizontalSymmetric(x: real, y: real, l: real)
    ensures var pts := HorizontalSegment(x, y, l);
            forall i :: 0 <= i < 6 ==>
              MirrorX(pts[i], x + l / 2.0) == pts[MirrorXIndex(i)]
              && MirrorY(pts[i], y + SegmentWidth as real / 2.0) == pts[MirrorYIndex(i)]
  {
  }

  /** The point a reflection about the vertical centre line maps point i to: 0-1, 2-5, 3-4. */
  function MirrorXIndex(i: int): int
    requires 0 <= i < 6
  {
    [1, 0, 5, 4, 3, 2][i]
  }

  /** The point a reflection about the horizontal centre line maps point i to: 0-4, 1-3, 2 and 5 fixed. */
  function MirrorYIndex(i: int): int
    requires 0 <= i < 6
  {
    [4, 3, 2, 1, 0, 5][i]
  }

  /** A segment no shorter than its two chamfers lies in its box: l along, SegmentWidth across. */
  lemma HorizontalInBox(x: real, y: real, l: real)
    requires TriangleSize as real <= l
    ensures forall i :: 0 <= i < 6 ==> InBox(HorizontalSegment(x, y, l)[i], x, y, x + l, y + SegmentWidth as real)
  {
  }

  /** A vertical segment anchored at (x, y) of length l. */
  function VerticalSegment(x: real, y: real, l: real): (pts: seq<Point>)
    ensures |pts| == 6
  {
    var w, t := SegmentWidth as real, TriangleSize as real;
    [Point(x, y + t), Point(x, y + l - t), Point(x + w / 2.0, y + l),
     Point(x + w, y + l - t), Point(x + w, y + t), Point(x + w / 2.0, y)]
  }

  /** A vertical segment is the horizontal one with the axes swapped, point for point. */
  lemma VerticalIsTransposedHorizontal(x: real, y: real, l: real)
    ensures VerticalSegment(x, y, l) == Transposed(HorizontalSegment(y, x, l))
  {
  }

  lemma VerticalInBox(x: real, y: real, l: real)
    requires TriangleSize as real <= l
    ensures forall i :: 0 <= i < 6 ==> InBox(VerticalSegment(x, y, l)[i], x, y, x + SegmentWidth as real, y + l)
  {
  }

  /** A rhombus in the size-by-size box at (x, y). */
  function Rhomb(x: real, y: real, size: real): (pts: seq<Point>)
    ensures |pts| == 4
  {
    [Point(x + size / 2.0, y), Point(x + size, y + size / 2.0),
     Point(x + size / 2.0, y + size), Point(x, y + size / 2.0)]
  }

  /** The rhombus is a diamond: every corner is size/2 from the box centre in the L1 norm, inside the box. */
  lemma RhombIsDiamond(x: real, y: real, size: real)
    requires size >= 0.0
    ensures forall i :: 0 <= i < 4 ==>
              var p := Rhomb(x, y, size)[i];
              Abs(p.x - (x + size / 2.0)) + Abs(p.y - (y + size / 2.0)) == size / 2.0
              && InBox(p, x, y, x + size, y + size)
  {
  }

  /** The colon's two rhombi, at (x, y) and 4 * size below. */
  function Colon(x: real, y: real, size: real): (r: seq<seq<Point>>)
    ensures |r| == 2 && |r[0]| == 4 && |r[1]| == 4
  {
    var spacing := size * 4.0;
    [Rhomb(x, y, size), Rhomb(x, y + spacing, size)]
  }

  /** The lower rhombus is the upper one moved down by 4 * size, and for size > 0 lies wholly below it. */
  lemma ColonShape(x: real, y: real, size: real)
    ensures Colon(x, y, size)[0] == Rhomb(x, y, size)
    ensures Colon(x, y, size)[1] == Translated(Colon(x, y, size)[0], 0.0, 4.0 * size)
    ensures size > 0.0 ==> forall i, j :: 0 <= i < 4 && 0 <= j < 4 ==>
              Colon(x, y, size)[0][i].y < Colon(x, y, size)[1][j].y
  {
  }

  // ------------------------------------------------------------------
  // Digits
  // ------------------------------------------------------------------

  /** The outline for segment slot s of a digit anchored at (x, y). */
  function SegmentPolygon(slot: nat, x: real, y: real): (pts: seq<Point>)
    requires slot < 7
    ensures |pts| == 6
  {
    var half := (SegmentWidth / 2) as real;
    var len := SegmentLength as real;
    if slot == 0 then HorizontalSegment(x + half, y, len)
    else if slot == 1 then VerticalSegment(x + len, y + half, len)
    else if slot == 2 then VerticalSegment(x + len, y + len + half, len)
    else if slot == 3 then HorizontalSegment(x + half, y + len * 2.0, len)
    else if slot == 4 then VerticalSegment(x, y + len + half, len)
    else if slot == 5 then VerticalSegment(x, y + half, len)
    else HorizontalSegment(x + half, y + len, len)
  }

  /** The outlines of the lit slots among the first n of a table row, in slot order. */
  function LitUpTo(row: seq<bool>, n: nat, x: real, y: real): seq<seq<Point>>
    requires |row| == 7 && n <= 7
  {
    if n == 0 then []
    else LitUpTo(row, n - 1, x, y) + (if row[n - 1] then [SegmentPolygon(n - 1, x, y)] else [])
  }

  /** One more slot of the row: its outline follows the earlier ones when it is lit. */
  lemma LitStep(row: seq<bool>, n: nat, x: real, y: real)
    requires |row| == 7 && n < 7
    ensures LitUpTo(row, n + 1, x, y)
            == LitUpTo(row, n, x, y) + (if row[n] then [SegmentPolygon(n, x, y)] else [])
  {
  }

  /** The glyph of a digit anchored at (x, y): one outline per lit slot of its table row. */
  function DigitGlyph(digit: int, x: real, y: real): seq<seq<Point>>
    requires 0 <= digit <= 9
  {
    LitUpTo(DigitSegments[digit], 7, x, y)
  }

  /** The number of true entries of a row. */
  function LitCount(row: seq<bool>): nat {
    if row == [] then 0 else LitCount(row[..|row| - 1]) + (if row[|row| - 1] then 1 else 0)
  }

  /** Slots 0, 3 and 6 are horizontal bars (their first edge is level); slots 1, 2, 4 and 5 are vertical. */
  lemma SlotOrientation(slot: nat, x: real, y: real)
    requires slot < 7
    ensures SegmentPolygon(slot, x, y)[0].y == SegmentPolygon(slot, x, y)[1].y
            <==> slot == 0 || slot == 3 || slot == 6
    ensures SegmentPolygon(slot, x, y)[0].x == SegmentPolygon(slot, x, y)[1].x
            <==> slot == 1 || slot == 2 || slot == 4 || slot == 5
  {
    var h, l := (SegmentWidth / 2) as real, SegmentLength as real;
    if slot == 0 || slot == 3 || slot == 6 {
      var y0 := if slot == 0 then y else if slot == 3 then y + l * 2.0 else y + l;
      assert SegmentPolygon(slot, x, y) == HorizontalSegment(x + h, y0, l);
    } else {
      var x0 := if slot == 1 || slot == 2 then x + l else x;
      var y0 := if slot == 1 || slot == 5 then y + h else y + l + h;
      assert SegmentPolygon(slot, x, y) == VerticalSegment(x0, y0, l);
    }
  }

  /** Every row of the table has seven entries; 8 lights every slot and 1 lights slots 1 and 2 only. */
  lemma DigitTableRows()
    ensures |DigitSegments| == 10
    ensures forall d :: 0 <= d < 10 ==> |DigitSegments[d]| == 7
    ensures forall s :: 0 <= s < 7 ==> DigitSegments[8][s]
    ensures forall s :: 0 <= s < 7 ==> (DigitSegments[1][s] <==> s == 1 || s == 2)
  {
  }

  /** One outline per lit slot among the first n. */
  lemma {:induction false} LitUpToCount(row: seq<bool>, n: nat, x: real, y: real)
    requires |row| == 7 && n <= 7
    ensures |LitUpTo(row, n, x, y)| == LitCount(row[..n])
  {
    if n > 0 {
      LitUpToCount(row, n - 1, x, y);
      assert row[..n][..n - 1] == row[..n - 1];
    }
  }

  /** An outline is emitted exactly for a lit slot among the first n. */
  lemma {:induction false} LitUpToMembers(row: seq<bool>, n: nat, x: real, y: real, p: seq<Point>)
    requires |row| == 7 && n <= 7
    ensures p in LitUpTo(row, n, x, y) <==> exists s :: 0 <= s < n && row[s] && p == SegmentPolygon(s, x, y)
  {
    if n > 0 {
      LitUpToMembers(row, n - 1, x, y, p);
    }
  }

  /** A digit emits one outline per true entry of its row. */
  lemma DigitGlyphCount(digit: int, x: real, y: real)
    requires 0 <= digit <= 9
    ensures |DigitGlyph(digit, x, y)| == LitCount(DigitSegments[digit])
  {
    var row := DigitSegments[digit];
    LitUpToCount(row, 7, x, y);
    assert row[..7] == row;
  }

  /** DrawDigit emits exactly one six-point outline per true entry of the digit's row. */
  lemma DigitGlyphShape(digit: int, x: real, y: real)
    requires 0 <= digit <= 9
    ensures |DigitGlyph(digit, x, y)| == LitCount(DigitSegments[digit])
    ensures forall p :: p in DigitGlyph(digit, x, y) ==> |p| == 6
    ensures forall p :: p in DigitGlyph(digit, x, y) <==>
              exists s :: 0 <= s < 7 && DigitSegments[digit][s] && p == SegmentPolygon(s, x, y)
  {
    var row := DigitSegments[digit];
    DigitGlyphCount(digit, x, y);
    forall p ensures p in DigitGlyph(digit, x, y) <==>
                     exists s :: 0 <= s < 7 && row[s] && p == SegmentPolygon(s, x, y)
    {
      LitUpToMembers(row, 7, x, y, p);
    }
  }

  /** Each segment lies in the digit's box: SegmentLength + SegmentWidth wide, 2 * SegmentLength + SegmentWidth tall. */
  lemma SegmentInBox(slot: nat, x: real, y: real)
    requires slot < 7
    ensures forall i :: 0 <= i < |SegmentPolygon(slot, x, y)| ==>
              InBox(SegmentPolygon(slot, x, y)[i], x, y, x + 58.0, y + 103.0)
  {
    var h, l := (SegmentWidth / 2) as real, SegmentLength as real;
    if slot == 0 {
      assert SegmentPolygon(slot, x, y) == HorizontalSegment(x + h, y, l);
      HorizontalInBox(x + h, y, l);
    } else if slot == 1 {
      assert SegmentPolygon(slot, x, y) == VerticalSegment(x + l, y + h, l);
      VerticalInBox(x + l, y + h, l);
    } else if slot == 2 {
      assert SegmentPolygon(slot, x, y) == VerticalSegment(x + l, y + l + h, l);
      VerticalInBox(x + l, y + l + h, l);
    } else if slot == 3 {
      assert SegmentPolygon(slot, x, y) == HorizontalSegment(x + h, y + l * 2.0, l);
      HorizontalInBox(x + h, y + l * 2.0, l);
    } else if slot == 4 {
      assert SegmentPolygon(slot, x, y) == VerticalSegment(x, y + l + h, l);
      VerticalInBox(x, y + l + h, l);
    } else if slot == 5 {
      assert SegmentPolygon(slot, x, y) == VerticalSegment(x, y + h, l);
      VerticalInBox(x, y + h, l);
    } else {
      assert SegmentPolygon(slot, x, y) == HorizontalSegment(x + h, y + l, l);
      HorizontalInBox(x + h, y + l, l);
    }
  }

  /** Every point of a digit's glyph lies in the digit's box. */
  lemma DigitInBox(digit: int, x: real, y: real)
    requires 0 <= digit <= 9
    ensures forall p, i :: p in DigitGlyph(digit, x, y) && 0 <= i < |p| ==>
              InBox(p[i], x, y, x + 58.0, y + 103.0)
  {
    var row := DigitSegments[digit];
    forall p | p in LitUpTo(row, 7, x, y)
      ensures forall i :: 0 <= i < |p| ==> InBox(p[i], x, y, x + 58.0, y + 103.0)
    {
      LitUpToMembers(row, 7, x, y, p);
      var s :| 0 <= s < 7 && row[s] && p == SegmentPolygon(s, x, y);
      SegmentInBox(s, x, y);
    }
  }

  // ------------------------------------------------------------------
  // Layout
  // ------------------------------------------------------------------

  predicate IsDigits(time: string) {
    forall i :: 0 <= i < |time| ==> '0' <= time[i] <= '9'
  }

  /** time[i] - '0'. */
  function DigitValue(c: char): int {
    c as int - '0' as int
  }

  /** Left edge of digit i: i * (2 * SegmentLength + DigitSpacing). */
  function DigitX(i: nat): real {
    (i * (SegmentLength * 2 + DigitSpacing)) as real
  }

  /** Digits laid out 95 apart never overlap: every point of an earlier digit lies left of every point of a later one. */
  lemma DigitsDoNotOverlap(d1: int, d2: int, i: nat, j: nat, y: real)
    requires 0 <= d1 <= 9 && 0 <= d2 <= 9 && i < j
    ensures forall p: seq<Point>, q: seq<Point>, a, b ::
              p in DigitGlyph(d1, DigitX(i), y) && q in DigitGlyph(d2, DigitX(j), y) && 0 <= a < |p| && 0 <= b < |q|
              ==> p[a].x < q[b].x
  {
    DigitInBox(d1, DigitX(i), y);
    DigitInBox(d2, DigitX(j), y);
    assert DigitX(i) + 58.0 < DigitX(j) by {
      assert i * 95 + 95 <= j * 95;
    }
  }

  /** The outlines of the first n digits, each followed, after the second digit, by the colon when shown. */
  function ClockPrefix(time: string, n: nat, y: real, showColon: bool): seq<seq<Point>>
    requires IsDigits(time) && n <= |time|
  {
    if n == 0 then []
    else
      var i := n - 1;
      var x := DigitX(i);
      ClockPrefix(time, i, y, showColon) + DigitGlyph(DigitValue(time[i]), x, y)
      + if i == 1 && showColon
        then Colon(x + (SegmentLength + DigitSpacing * 5) as real, y + (SegmentLength / 2) as real, ColonSize)
        else []
  }

  /** Everything one Render of the clock draws. */
  function ClockPolygons(time: string, y: real, showColon: bool): seq<seq<Point>>
    requires IsDigits(time)
  {
    ClockPrefix(time, |time|, y, showColon)
  }

  /** The number of lit segments over the digits of a time string. */
  function TotalLit(time: string): nat
    requires IsDigits(time)
  {
    if time == [] then 0
    else TotalLit(time[..|time| - 1]) + LitCount(DigitSegments[DigitValue(time[|time| - 1])])
  }

  /** The first n digits emit their lit segments, plus the colon's two rhombi when it is shown and n >= 2. */
  lemma {:induction false} ClockPrefixCount(time: string, n: nat, y: real, showColon: bool)
    requires IsDigits(time) && n <= |time|
    ensures |ClockPrefix(time, n, y, showColon)|
            == TotalLit(time[..n]) + (if showColon && n >= 2 then 2 else 0)
  {
    if n > 0 {
      var i := n - 1;
      var x := DigitX(i);
      var colon := if i == 1 && showColon
                   then Colon(x + (SegmentLength + DigitSpacing * 5) as real, y + (SegmentLength / 2) as real, ColonSize)
                   else [];
      assert ClockPrefix(time, n, y, showColon)
             == ClockPrefix(time, i, y, showColon) + DigitGlyph(DigitValue(time[i]), x, y) + colon;
      ClockPrefixCount(time, i, y, showColon);
      DigitGlyphCount(DigitValue(time[i]), x, y);
      assert time[..n][..i] == time[..i];
      assert time[..n][i] == time[i];
      assert TotalLit(time[..n]) == TotalLit(time[..i]) + LitCount(DigitSegments[DigitValue(time[i])]);
    }
  }

  /** The only outlines that are not six-point segments are the colon's, at (165, y + 22), and only when it is shown. */
  lemma {:induction false} ClockPrefixNonHexagons(time: string, n: nat, y: real, showColon: bool, p: seq<Point>)
    requires IsDigits(time) && n <= |time|
    requires p in ClockPrefix(time, n, y, showColon) && |p| != 6
    ensures showColon && n >= 2 && p in Colon(165.0, y + 22.0, ColonSize)
  {
    var i := n - 1;
    var glyph := DigitGlyph(DigitValue(time[i]), DigitX(i), y);
    if p in ClockPrefix(time, i, y, showColon) {
      ClockPrefixNonHexagons(time, i, y, showColon, p);
    } else if p in glyph {
      DigitGlyphShape(DigitValue(time[i]), DigitX(i), y);
      assert false;
    } else {
      assert DigitX(1) == 95.0;
    }
  }

  /** When the colon is shown and there are two digits, both of its rhombi are drawn. */
  lemma {:induction false} ClockPrefixHasColon(time: string, n: nat, y: real, p: seq<Point>)
    requires IsDigits(time) && 2 <= n <= |time|
    requires p in Colon(165.0, y + 22.0, ColonSize)
    ensures p in ClockPrefix(time, n, y, true)
  {
    if n > 2 {
      ClockPrefixHasColon(time, n - 1, y, p);
    } else {
      assert DigitX(1) == 95.0;
    }
  }

  /**
   * A whole time string emits its lit segments plus the colon exactly when it
   * is shown and there are two digits; the colon's rhombi are then the only
   * outlines that are not six-point segments.
   */
  lemma ClockPolygonsShape(time: string, y: real, showColon: bool)
    requires IsDigits(time)
    ensures |ClockPolygons(time, y, showColon)|
            == TotalLit(time) + (if showColon && |time| >= 2 then 2 else 0)
    ensures forall p :: p in ClockPolygons(time, y, showColon) && |p| != 6 ==>
              showColon && |time| >= 2 && p in Colon(165.0, y + 22.0, ColonSize)
    ensures showColon && |time| >= 2 ==>
              forall p :: p in Colon(165.0, y + 22.0, ColonSize) ==> p in ClockPolygons(time, y, showColon)
  {
    ClockPrefixCount(time, |time|, y, showColon);
    assert time[..|time|] == time;
    forall p | p in ClockPolygons(time, y, showColon) && |p| != 6
      ensures showColon && |time| >= 2 && p in Colon(165.0, y + 22.0, ColonSize)
    {
      ClockPrefixNonHexagons(time, |time|, y, showColon, p);
    }
    if showColon && |time| >= 2 {
      forall p | p in Colon(165.0, y + 22.0, ColonSize)
        ensures p in ClockPolygons(time, y, showColon)
      {
        ClockPrefixHasColon(time, |time|, y, p);
      }
    }
  }

  // ------------------------------------------------------------------
  // Drawing
  // ------------------------------------------------------------------

  /** A figure of a StreamGeometry: BeginFigure(start, isFilled), one LineTo per point, EndFigure(isClosed). */
  datatype Figure = Figure(start: Point, lines: seq<Point>, isFilled: bool, isClosed: bool)

  function Vertices(f: Figure): seq<Point> {
    [f.start] + f.lines
  }

  /** figs outlines polys one for one, each as a filled, closed figure through exactly its points. */
  predicate Draws(figs: seq<Figure>, polys: seq<seq<Point>>) {
    |figs| == |polys|
    && forall i :: 0 <= i < |figs| ==> Vertices(figs[i]) == polys[i] && figs[i].isFilled && figs[i].isClosed
  }

  lemma DrawsAppend(f1: seq<Figure>, p1: seq<seq<Point>>, f2: seq<Figure>, p2: seq<seq<Point>>)
    requires Draws(f1, p1) && Draws(f2, p2)
    ensures Draws(f1 + f2, p1 + p2)
  {
    assert forall i :: |f1| <= i < |f1| + |f2| ==> (f1 + f2)[i] == f2[i - |f1|] && (p1 + p2)[i] == p2[i - |p1|];
  }

  /** Starts at points[0], adds a line to each later point in order, and closes the figure. */
  method DrawPolygon(points: seq<Point>) returns (fig: Figure)
    requires |points| > 0
    ensures Vertices(fig) == points && |fig.lines| == |points| - 1
    ensures fig.isFilled && fig.isClosed
  {
    var start := points[0];
    var lines: seq<Point> := [];
    for i := 1 to |points|
      invariant lines == points[1..i]
    {
      lines := lines + [points[i]];
    }
    fig := Figure(start, lines, true, true);
  }

  /** Appends the one figure that outlines pts. */
  method AddPolygon(figs: seq<Figure>, ghost polys: seq<seq<Point>>, pts: seq<Point>)
    returns (figs': seq<Figure>)
    requires Draws(figs, polys) && |pts| > 0
    ensures Draws(figs', polys + [pts])
  {
    var f := DrawPolygon(pts);
    figs' := figs + [f];
    DrawsAppend(figs, polys, [f], [pts]);
  }

  /** The explicit anchors DrawDigit uses are those of SegmentPolygon, slot by slot. */
  lemma SlotPolygons(x: real, y: real, half: real, len: real)
    requires half == (SegmentWidth / 2) as real && len == SegmentLength as real
    ensures SegmentPolygon(0, x, y) == HorizontalSegment(x + half, y, len)
    ensures SegmentPolygon(1, x, y) == VerticalSegment(x + len, y + half, len)
    ensures SegmentPolygon(2, x, y) == VerticalSegment(x + len, y + len + half, len)
    ensures SegmentPolygon(3, x, y) == HorizontalSegment(x + half, y + len * 2.0, len)
    ensures SegmentPolygon(4, x, y) == VerticalSegment(x, y + len + half, len)
    ensures SegmentPolygon(5, x, y) == VerticalSegment(x, y + half, len)
    ensures SegmentPolygon(6, x, y) == HorizontalSegment(x + half, y + len, len)
  {
  }

  /** `if (s[k])` followed by the draw call: appends pts's figure exactly when the slot is lit. */
  method DrawIfLit(lit: bool, figs: seq<Figure>, ghost polys: seq<seq<Point>>, pts: seq<Point>)
    returns (figs': seq<Figure>)
    requires Draws(figs, polys) && |pts| > 0
    ensures Draws(figs', polys + if lit then [pts] else [])
  {
    figs' := figs;
    if lit {
      figs' := AddPolygon(figs, polys, pts);
    } else {
      assert polys + [] == polys;
    }
  }

  /** Copies the digit's table row into s, then outlines each lit slot in slot order. */
  method DrawDigit(digit: int, x: real, y: real) returns (figs: seq<Figure>)
    requires 0 <= digit <= 9
    ensures Draws(figs, DigitGlyph(digit, x, y))
  {
    var s := new bool[7];
    for i := 0 to 7
      invariant forall k :: 0 <= k < i ==> s[k] == DigitSegments[digit][k]
    {
      s[i] := DigitSegments[digit][i];
    }
    assert s[..] == DigitSegments[digit];
    figs := DrawSegments(s, x, y);
  }

  /** The seven `if (s[k])` draws of DrawDigit. */
  method DrawSegments(s: array<bool>, x: real, y: real) returns (figs: seq<Figure>)
    requires s.Length == 7
    ensures Draws(figs, LitUpTo(s[..], 7, x, y))
  {
    ghost var row := s[..];
    var half := (SegmentWidth / 2) as real;
    var len := SegmentLength as real;
    SlotPolygons(x, y, half, len);
    figs := [];
    figs := DrawIfLit(s[0], figs, LitUpTo(row, 0, x, y), HorizontalSegment(x + half, y, len));
    LitStep(row, 0, x, y);
    figs := DrawIfLit(s[1], figs, LitUpTo(row, 1, x, y), VerticalSegment(x + len, y + half, len));
    LitStep(row, 1, x, y);
    figs := DrawIfLit(s[2], figs, LitUpTo(row, 2, x, y), VerticalSegment(x + len, y + len + half, len));
    LitStep(row, 2, x, y);
    figs := DrawIfLit(s[3], figs, LitUpTo(row, 3, x, y), HorizontalSegment(x + half, y + len * 2.0, len));
    LitStep(row, 3, x, y);
    figs := DrawIfLit(s[4], figs, LitUpTo(row, 4, x, y), VerticalSegment(x, y + len + half, len));
    LitStep(row, 4, x, y);
    figs := DrawIfLit(s[5], figs, LitUpTo(row, 5, x, y), VerticalSegment(x, y + half, len));
    LitStep(row, 5, x, y);
    figs := DrawIfLit(s[6], figs, LitUpTo(row, 6, x, y), HorizontalSegment(x + half, y + len, len));
    LitStep(row, 6, x, y);
  }

  /** Outlines the colon's two rhombi, the upper one first. */
  method DrawColon(x: real, y: real, size: real) returns (figs: seq<Figure>)
    ensures Draws(figs, Colon(x, y, size))
  {
    var spacing := size * 4.0;
    figs := AddPolygon([], [], Rhomb(x, y, size));
    figs := AddPolygon(figs, [Rhomb(x, y, size)], Rhomb(x, y + spacing, size));
  }

  class SevenSegmentClock {
    var showColon: bool
    /** One-second timer ticks so far. */
    ghost var ticks: nat

    /** The colon is shown exactly after an even number of ticks. */
    ghost predicate Valid()
      reads this
    {
      showColon == (ticks % 2 == 0)
    }

    constructor ()
      ensures Valid() && ticks == 0 && showColon
    {
      showColon := true;
      ticks := 0;
    }

    /** The one-second timer's handler: toggles the colon. */
    method TimerTick()
      requires Valid()
      modifies this
      ensures Valid() && ticks == old(ticks) + 1
      ensures showColon == !old(showColon)
    {
      showColon := !showColon;
      ticks := ticks + 1;
    }

    /** Lays the digits of time out left to right at height y, with the colon after the second when shown. */
    method Render(time: string, y: real) returns (figs: seq<Figure>)
      requires IsDigits(time)
      ensures Draws(figs, ClockPolygons(time, y, showColon))
    {
      figs := [];
      for i := 0 to |time|
        invariant Draws(figs, ClockPrefix(time, i, y, showColon))
      {
        var x := (i * (SegmentLength * 2 + DigitSpacing)) as real;
        var digitFigs := DrawDigit(DigitValue(time[i]), x, y);
        DrawsAppend(figs, ClockPrefix(time, i, y, showColon), digitFigs, DigitGlyph(DigitValue(time[i]), x, y));
        figs := figs + digitFigs;
        if i == 1 && showColon {
          var colonX := x + (SegmentLength + DigitSpacing * 5) as real;
          var colonFigs := DrawColon(colonX, y + (SegmentLength / 2) as real, ColonSize);
          DrawsAppend(figs, ClockPrefix(time, i, y, showColon) + DigitGlyph(DigitValue(time[i]), x, y),
                      colonFigs, Colon(colonX, y + (SegmentLength / 2) as real, ColonSize));
          figs := figs + colonFigs;
        }
      }
    }
  }
}
