/**
  The text box-plot renderer. The five-number summary, the whiskers and the
  outliers are projected onto the columns 0 .. width - 1 of three character
  buffers (upper box edge, whiskers and median, lower box edge), which are
  painted in a fixed order so that a later write overwrites an earlier one.
  The three finished buffers are returned as the three output lines.
*/
module BoxPlot {

  datatype Option<T> = None | Some(value: T)

  /** Everything the renderer is given. */
  datatype BoxPlotData = BoxPlotData(
    median: real,
    q1: real,
    q3: real,
    innerLowerFence: real,
    innerUpperFence: real,
    outerLowerFence: real,
    outerUpperFence: real,
    min: real,
    max: real,
    outliers: seq<real>,
    width: int)

  /** What the load-time report always passes: the five numbers in order, the
      inner fences outside the box and every outlier within the data range. */
  predicate WellFormed(d: BoxPlotData) {
    && d.min <= d.q1 <= d.median <= d.q3 <= d.max
    && d.innerLowerFence <= d.q1
    && d.q3 <= d.innerUpperFence
    && forall k :: 0 <= k < |d.outliers| ==> d.min <= d.outliers[k] <= d.max
  }

  // ---------------------------------------------------------------------------
  // Projection onto columns

  /** Rounding to the nearest integer, halves upward. */
  function Round(r: real): (n: int)
    ensures n as real - 0.5 <= r < n as real + 0.5
  {
    (r + 0.5).Floor
  }

  lemma RoundMonotone(r: real, s: real)
    requires r <= s
    ensures Round(r) <= Round(s)
  {
  }

  lemma MulMonotoneReal(a: real, b: real, r: real)
    requires a <= b && 0.0 <= r
    ensures a * r <= b * r
  {
    var d := b - a;
    assert d * r >= 0.0;
    assert b * r == a * r + d * r;
  }

  /** The unrounded column of x: its offset from min scaled by
      (width - 1) / (max - min). */
  function Offset(x: real, min: real, max: real, width: int): real
    requires min < max
  {
    (x - min) * ((width - 1) as real / (max - min))
  }

  /** A non-negative quotient of a non-negative by a positive number. */
  lemma QuotientNonNegative(a: real, b: real)
    requires 0.0 <= a && 0.0 < b
    ensures (a / b) * b == a
    ensures 0.0 <= a / b
  {
    var r := a / b;
    assert r * b == a;
    if r < 0.0 {
      MulMonotoneReal(r, 0.0, b);
      assert false;
    }
  }

  lemma OffsetRange(x: real, min: real, max: real, width: int)
    requires min < max
    ensures width >= 1 && min <= x <= max ==> 0.0 <= Offset(x, min, max, width) <= (width - 1) as real
    ensures x == min ==> Offset(x, min, max, width) == 0.0
    ensures x == max ==> Offset(x, min, max, width) == (width - 1) as real
  {
    var ratio := (width - 1) as real / (max - min);
    assert (max - min) * ratio == (width - 1) as real;
    if width >= 1 && min <= x <= max {
      QuotientNonNegative((width - 1) as real, max - min);
      MulMonotoneReal(0.0, x - min, ratio);
      MulMonotoneReal(x - min, max - min, ratio);
    }
  }

  lemma OffsetMonotone(x: real, y: real, min: real, max: real, width: int)
    requires min < max && width >= 1 && x <= y
    ensures Offset(x, min, max, width) <= Offset(y, min, max, width)
  {
    var ratio := (width - 1) as real / (max - min);
    QuotientNonNegative((width - 1) as real, max - min);
    MulMonotoneReal(x - min, y - min, ratio);
  }

  /** The column of x on a canvas of the given width spanning [min, max]:
      a value of the data range lands on the canvas, min on its first column
      and max on its last. */
  function Project(x: real, min: real, max: real, width: int): (c: int)
    requires min < max
    ensures width >= 1 && min <= x <= max ==> 0 <= c < width
    ensures width >= 1 && x == min ==> c == 0
    ensures width >= 1 && x == max ==> c == width - 1
  {
    OffsetRange(x, min, max, width);
    Round(Offset(x, min, max, width))
  }

  /** Projection preserves order. */
  lemma ProjectMonotone(x: real, y: real, min: real, max: real, width: int)
    requires min < max && width >= 1 && x <= y
    ensures Project(x, min, max, width) <= Project(y, min, max, width)
  {
    OffsetMonotone(x, y, min, max, width);
    RoundMonotone(Offset(x, min, max, width), Offset(y, min, max, width));
  }

  function Column(d: BoxPlotData, x: real): int
    requires d.min < d.max
  {
    Project(x, d.min, d.max, d.width)
  }

  // ---------------------------------------------------------------------------
  // Whiskers and the five columns

  /** The lower whisker: the inner lower fence, but never below the data. */
  function LowerWhisker(d: BoxPlotData): (w: real)
    ensures w >= d.min && w >= d.innerLowerFence
    ensures w == d.min || w == d.innerLowerFence
  {
    if d.min >= d.innerLowerFence then d.min else d.innerLowerFence
  }

  /** The upper whisker: the inner upper fence, but never above the data. */
  function UpperWhisker(d: BoxPlotData): (w: real)
    ensures w <= d.max && w <= d.innerUpperFence
    ensures w == d.max || w == d.innerUpperFence
  {
    if d.max <= d.innerUpperFence then d.max else d.innerUpperFence
  }

  /** Columns of the lower whisker, q1, median, q3 and the upper whisker. */
  datatype Columns = Columns(p1: int, p2: int, p3: int, p4: int, p5: int)

  /** The five columns of well-formed data lie on the canvas, in order. */
  function ColumnsOf(d: BoxPlotData): (c: Columns)
    requires WellFormed(d) && d.min < d.max && d.width >= 1
    ensures 0 <= c.p1 <= c.p2 <= c.p3 <= c.p4 <= c.p5 < d.width
  {
    var lo, up := LowerWhisker(d), UpperWhisker(d);
    var min, max, w := d.min, d.max, d.width;
    ProjectMonotone(lo, d.q1, min, max, w);
    ProjectMonotone(d.q1, d.median, min, max, w);
    ProjectMonotone(d.median, d.q3, min, max, w);
    ProjectMonotone(d.q3, up, min, max, w);
    Columns(Column(d, lo), Column(d, d.q1), Column(d, d.median), Column(d, d.q3), Column(d, up))
  }

  // ---------------------------------------------------------------------------
  // The finished cells, each written as "the last paint operation that covers
  // column i decides it", operations taken in reverse painting order

  /** Upper line: corner at q1, tee at the median, corner at q3, joined by
      horizontal rules strictly between them. */
  function UpperGlyph(c: Columns, i: int): char {
    if i == c.p4 then '┐'
    else if c.p3 < i < c.p4 then '─'
    else if i == c.p3 then '┬'
    else if c.p2 < i < c.p3 then '─'
    else if i == c.p2 then '┌'
    else ' '
  }

  /** Lower line: the mirror image of the upper line. */
  function LowerGlyph(c: Columns, i: int): char {
    if i == c.p4 then '┘'
    else if c.p3 < i < c.p4 then '─'
    else if i == c.p3 then '┴'
    else if c.p2 < i < c.p3 then '─'
    else if i == c.p2 then '└'
    else ' '
  }

  /** Middle line before the outliers: whisker caps, the rules from the caps to
      the box, the box sides and the median bar. */
  function WhiskerGlyph(c: Columns, i: int): char {
    if i == c.p5 then '┤'
    else if c.p4 < i < c.p5 then '─'
    else if i == c.p4 then '├'
    else if i == c.p3 then '│'
    else if i == c.p2 then '┤'
    else if c.p1 < i < c.p2 then '─'
    else if i == c.p1 then '├'
    else ' '
  }

  /** An outlier beyond an outer fence is "far out". */
  predicate IsFarOut(d: BoxPlotData, x: real) {
    x < d.outerLowerFence || x > d.outerUpperFence
  }

  function OutlierGlyph(d: BoxPlotData, x: real): char {
    if IsFarOut(d, x) then '✳' else '○'
  }

  /** The last outlier of os that projects onto column i, if any. */
  function LastOutlierAt(d: BoxPlotData, os: seq<real>, i: int): (r: Option<real>)
    requires d.min < d.max
    ensures r.None? <==> forall k :: 0 <= k < |os| ==> Column(d, os[k]) != i
    ensures r.Some? ==> exists k :: 0 <= k < |os| && os[k] == r.value && Column(d, os[k]) == i
                          && forall j :: k < j < |os| ==> Column(d, os[j]) != i
  {
    if os == [] then None
    else if Column(d, os[|os| - 1]) == i then Some(os[|os| - 1])
    else
      var r := LastOutlierAt(d, os[..|os| - 1], i);
      assert forall k :: 0 <= k < |os| - 1 ==> os[..|os| - 1][k] == os[k];
      r
  }

  /** Middle line after the first outliers os have been painted over it. */
  function MiddleGlyph(d: BoxPlotData, os: seq<real>, i: int): char
    requires WellFormed(d) && d.min < d.max && d.width >= 1
  {
    match LastOutlierAt(d, os, i)
    case Some(o) => OutlierGlyph(d, o)
    case None => WhiskerGlyph(ColumnsOf(d), i)
  }

  // ---------------------------------------------------------------------------
  // Shape facts

  /** The box edge covers exactly the columns from q1 to q3; the rules are
      exactly the open ranges (p2, p3) and (p3, p4). */
  lemma BoxEdgeShape(c: Columns, i: int)
    requires c.p2 <= c.p3 <= c.p4
    ensures UpperGlyph(c, i) != ' ' <==> c.p2 <= i <= c.p4
    ensures LowerGlyph(c, i) != ' ' <==> c.p2 <= i <= c.p4
    ensures UpperGlyph(c, i) == '─' <==> c.p2 < i < c.p3 || c.p3 < i < c.p4
    ensures LowerGlyph(c, i) == '─' <==> c.p2 < i < c.p3 || c.p3 < i < c.p4
    ensures i == c.p4 ==> UpperGlyph(c, i) == '┐' && LowerGlyph(c, i) == '┘'
    ensures i == c.p3 < c.p4 ==> UpperGlyph(c, i) == '┬' && LowerGlyph(c, i) == '┴'
    ensures i == c.p2 < c.p3 ==> UpperGlyph(c, i) == '┌' && LowerGlyph(c, i) == '└'
  {
  }

  /** Before the outliers the middle line is painted exactly on
      [p1, p2], the median column and [p4, p5]. */
  lemma WhiskerShape(c: Columns, i: int)
    requires c.p1 <= c.p2 <= c.p3 <= c.p4 <= c.p5
    ensures WhiskerGlyph(c, i) != ' ' <==> c.p1 <= i <= c.p2 || i == c.p3 || c.p4 <= i <= c.p5
    ensures i == c.p3 < c.p4 ==> WhiskerGlyph(c, i) == '│'
  {
  }

  /** An outlier painted last decides its own column and no other. */
  lemma LastOutlierWins(d: BoxPlotData, os: seq<real>, o: real, i: int)
    requires WellFormed(d) && d.min < d.max && d.width >= 1
    ensures Column(d, o) == i ==> MiddleGlyph(d, os + [o], i) == OutlierGlyph(d, o)
    ensures Column(d, o) != i ==> MiddleGlyph(d, os + [o], i) == MiddleGlyph(d, os, i)
  {
    assert (os + [o])[..|os|] == os;
  }

  // ---------------------------------------------------------------------------
  // Painting

  /** Sets buf[start .. end) to g (nothing when start >= end). */
  method Fill(buf: array<char>, g: char, start: int, end: int)
    requires 0 <= start && end <= buf.Length
    modifies buf
    ensures forall i :: 0 <= i < buf.Length ==> buf[i] == (if start <= i < end then g else old(buf[i]))
  {
    var i := start;
    while i < end
      invariant start <= i && (i <= end || i == start)
      invariant forall k :: 0 <= k < buf.Length ==> buf[k] == (if start <= k < i then g else old(buf[k]))
    {
      buf[i] := g;
      i := i + 1;
    }
  }

  /** Paints the upper box edge over a blank buffer. */
  method PaintUpper(buf: array<char>, c: Columns)
    requires 0 <= c.p2 <= c.p3 <= c.p4 < buf.Length
    requires forall i :: 0 <= i < buf.Length ==> buf[i] == ' '
    modifies buf
    ensures forall i :: 0 <= i < buf.Length ==> buf[i] == UpperGlyph(c, i)
  {
    buf[c.p2] := '┌';
    Fill(buf, '─', c.p2 + 1, c.p3);
    buf[c.p3] := '┬';
    Fill(buf, '─', c.p3 + 1, c.p4);
    buf[c.p4] := '┐';
  }

  /** Paints the whiskers, the box sides and the median bar over a blank buffer. */
  method PaintWhiskers(buf: array<char>, c: Columns)
    requires 0 <= c.p1 <= c.p2 <= c.p3 <= c.p4 <= c.p5 < buf.Length
    requires forall i :: 0 <= i < buf.Length ==> buf[i] == ' '
    modifies buf
    ensures forall i :: 0 <= i < buf.Length ==> buf[i] == WhiskerGlyph(c, i)
  {
    buf[c.p1] := '├';
    Fill(buf, '─', c.p1 + 1, c.p2);
    buf[c.p2] := '┤';
    buf[c.p3] := '│';
    buf[c.p4] := '├';
    Fill(buf, '─', c.p4 + 1, c.p5);
    buf[c.p5] := '┤';
  }

  /** Paints the lower box edge over a blank buffer. */
  method PaintLower(buf: array<char>, c: Columns)
    requires 0 <= c.p2 <= c.p3 <= c.p4 < buf.Length
    requires forall i :: 0 <= i < buf.Length ==> buf[i] == ' '
    modifies buf
    ensures forall i :: 0 <= i < buf.Length ==> buf[i] == LowerGlyph(c, i)
  {
    buf[c.p2] := '└';
    Fill(buf, '─', c.p2 + 1, c.p3);
    buf[c.p3] := '┴';
    Fill(buf, '─', c.p3 + 1, c.p4);
    buf[c.p4] := '┘';
  }

  /** Overlays the outliers, in list order, on the painted middle line. */
  method PaintOutliers(buf: array<char>, d: BoxPlotData)
    requires WellFormed(d) && d.min < d.max && d.width >= 1 && buf.Length == d.width
    requires forall i :: 0 <= i < buf.Length ==> buf[i] == WhiskerGlyph(ColumnsOf(d), i)
    modifies buf
    ensures forall i :: 0 <= i < buf.Length ==> buf[i] == MiddleGlyph(d, d.outliers, i)
  {
    for k := 0 to |d.outliers|
      invariant forall i :: 0 <= i < buf.Length ==> buf[i] == MiddleGlyph(d, d.outliers[..k], i)
    {
      var o := d.outliers[k];
      buf[Column(d, o)] := OutlierGlyph(d, o);
      forall i | 0 <= i < buf.Length
        ensures buf[i] == MiddleGlyph(d, d.outliers[..k + 1], i)
      {
        assert d.outliers[..k + 1] == d.outliers[..k] + [o];
        LastOutlierWins(d, d.outliers[..k], o, i);
      }
    }
    assert d.outliers[..|d.outliers|] == d.outliers;
  }

  /** Renders the box plot. No lines for a non-positive width; otherwise three
      lines of exactly `width` cells. When max == min every projected column is
      undefined in the source (a division by zero gives NaN, and writes at NaN
      are ignored), so all three lines stay blank. */
  method DrawBoxPlot(d: BoxPlotData) returns (lines: seq<string>)
    requires WellFormed(d)
    ensures d.width <= 0 <==> lines == []
    ensures d.width > 0 ==> |lines| == 3 && |lines[0]| == |lines[1]| == |lines[2]| == d.width
    ensures d.width > 0 && d.min == d.max ==>
      forall i :: 0 <= i < d.width ==> lines[0][i] == lines[1][i] == lines[2][i] == ' '
    ensures d.width > 0 && d.min < d.max ==>
      forall i :: 0 <= i < d.width ==>
        && lines[0][i] == UpperGlyph(ColumnsOf(d), i)
        && lines[1][i] == MiddleGlyph(d, d.outliers, i)
        && lines[2][i] == LowerGlyph(ColumnsOf(d), i)
  {
    if d.width <= 0 {
      return [];
    }
    var buf1 := new char[d.width](_ => ' ');
    var buf2 := new char[d.width](_ => ' ');
    var buf3 := new char[d.width](_ => ' ');

    if d.min < d.max {
      var c := ColumnsOf(d);
      PaintUpper(buf1, c);
      PaintWhiskers(buf2, c);
      PaintLower(buf3, c);
      PaintOutliers(buf2, d);
    }

    lines := [buf1[..], buf2[..], buf3[..]];
  }
}
