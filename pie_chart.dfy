/** The `PieChart` component (frontend/src/components/PieChart.tsx): clamp the
    slice values, total them, give each drawable slice an angular sector with a
    running cursor, draw each sector as an SVG path or, when it covers the
    whole turn, as a circle, and list every slice in the legend.

    Angles are exact reals.  The trigonometry of `polarToCartesian` is kept
    abstract: a boundary point is the symbolic `PolarPoint(cx, cy, r, angle)`,
    the point at `angle` degrees clockwise from 12 o'clock. */
module PieChart {
  import opened Wrappers

  /** One input slice (`caption` is its `label`); `color` is absent when the caller gave none. */
  datatype Slice = Slice(caption: string, value: real, color: Option<string>)

  /** The colours used when a slice has none, indexed by the slice's position. */
  const Palette: seq<string> := ["#0ea5e9", "#f97316", "#10b981", "#ef4444"]

  /** Inset of the radius from the edge of the drawing. */
  const Margin: real := 4.0

  /** A sector at least this wide is drawn as a circle. */
  const FullCircle: real := 359.999

  /** The point at `angle` degrees on the circle of radius `r` around (cx, cy). */
  datatype Point = PolarPoint(cx: real, cy: real, r: real, angle: real)

  /** The path `M cx cy L line A r r 0 largeArc sweep arcTo Z` of `describeArc`. */
  datatype ArcPath = ArcPath(cx: real, cy: real, line: Point, r: real,
                             largeArc: char, sweep: char, arcTo: Point)

  datatype Shape =
    | Circle(cx: real, cy: real, r: real, fill: string)
    | Path(d: ArcPath, fill: string, stroke: string)

  /** A drawn slice: its angular range and the shape that paints it. */
  datatype Sector = Sector(start: real, end: real, shape: Shape)

  /** One row of the legend: swatch colour, caption and the value as given. */
  datatype LegendRow = LegendRow(color: string, caption: string, value: real)

  /** `Math.max(0, v)`: the least non-negative number not below `v`. */
  function Clamp(v: real): (c: real)
    ensures c >= 0.0 && c >= v
    ensures c == v || c == 0.0
  {
    if v < 0.0 then 0.0 else v
  }

  function Abs(x: real): real {
    if x < 0.0 then -x else x
  }

  function Min(a: real, b: real): real {
    if a <= b then a else b
  }

  /** `slices.reduce((s, x) => s + Math.max(0, x.value), 0)`, a left fold. */
  function Total(slices: seq<Slice>): (t: real)
    ensures t >= 0.0
    ensures t == 0.0 <==> forall i :: 0 <= i < |slices| ==> slices[i].value <= 0.0
  {
    if slices == [] then 0.0
    else
      var prefix := slices[..|slices| - 1];
      assert forall i :: 0 <= i < |prefix| ==> prefix[i] == slices[i];
      Total(prefix) + Clamp(slices[|slices| - 1].value)
  }

  /** `s.color || palette[i % 4]`: an absent or empty colour falls back to the
      palette entry of the slice's position in the input. */
  function ColorOf(s: Slice, i: nat): (c: string)
    ensures s.color.Some? && s.color.value != "" ==> c == s.color.value
    ensures s.color.None? || s.color.value == "" ==> c == Palette[i % 4]
  {
    if s.color.Some? && s.color.value != "" then s.color.value else Palette[i % 4]
  }

  /** How far the cursor advances for a slice: nothing for a slice that is not
      drawn (clamped value 0, or total 0), else its share of 360 degrees. */
  function Sweep(s: Slice, total: real): (w: real)
    requires total >= 0.0
    ensures w >= 0.0
    ensures w == 0.0 <==> Clamp(s.value) == 0.0 || total == 0.0
  {
    var v := Clamp(s.value);
    if v == 0.0 || total == 0.0 then 0.0 else v / total * 360.0
  }

  /** The cursor before slice `i`: the sweeps of the slices before it, added in
      input order, as the component's `angle += portion` does. */
  function CursorAt(slices: seq<Slice>, total: real, i: nat): (a: real)
    requires total >= 0.0 && i <= |slices|
    ensures a >= 0.0
  {
    if i == 0 then 0.0 else CursorAt(slices, total, i - 1) + Sweep(slices[i - 1], total)
  }

  /** `describeArc` as written: the line goes to the end angle's point and the
      arc command ends at the start angle's point with sweep flag 1; the
      large-arc flag is '1' exactly when the sector spans more than 180
      degrees.  Sweep flag 1 travels towards increasing angles, away from the
      sector (see `DescribeArcOffCircle`); `DescribeWedge` is the arc the
      sector needs. */
  function DescribeArc(cx: real, cy: real, r: real, startAngle: real, endAngle: real): (p: ArcPath)
    ensures p.cx == cx && p.cy == cy && p.r == r
    ensures p.line == PolarPoint(cx, cy, r, endAngle)
    ensures p.arcTo == PolarPoint(cx, cy, r, startAngle)
    ensures p.sweep == '1'
    ensures p.largeArc == '0' <==> Abs(endAngle - startAngle) <= 180.0
    ensures p.largeArc == '0' || p.largeArc == '1'
  {
    var delta := endAngle - startAngle;
    var largeArcFlag := if Abs(delta) <= 180.0 then '0' else '1';
    ArcPath(cx, cy, PolarPoint(cx, cy, r, endAngle), r, largeArcFlag, '1', PolarPoint(cx, cy, r, startAngle))
  }

  /** How far an arc command travels from its first point to its last around
      the centred circle, in the direction its sweep flag names: '1' towards
      increasing angles (clockwise on screen), '0' towards decreasing ones. */
  function Travelled(p: ArcPath): real {
    var d := if p.sweep == '1' then p.arcTo.angle - p.line.angle else p.line.angle - p.arcTo.angle;
    if d < 0.0 then d + 360.0 else d
  }

  /** Whether an SVG renderer draws the arc command on the centred circle.  Of
      the two circles of radius r through the end points, it picks the one on
      which the arc in the sweep direction is large or small as the large-arc
      flag says; a half turn lies on both. */
  predicate OnCentredCircle(p: ArcPath) {
    Travelled(p) == 180.0 || (p.largeArc == '1' <==> Travelled(p) > 180.0)
  }

  /** The wedge's arc with the sweep flag the sector needs: from the end
      angle's point back to the start angle's point towards decreasing angles. */
  function DescribeWedge(cx: real, cy: real, r: real, startAngle: real, endAngle: real): (p: ArcPath)
    requires 0.0 <= startAngle < endAngle <= 360.0
    ensures Travelled(p) == endAngle - startAngle
    ensures OnCentredCircle(p)
  {
    DescribeArc(cx, cy, r, startAngle, endAngle).(sweep := '0')
  }

  /** The arc `describeArc` emits for a sector that is not a half turn is not
      on the centred circle: it travels the other 360 - span degrees, and its
      large-arc flag is chosen for the span. */
  lemma DescribeArcOffCircle(cx: real, cy: real, r: real, startAngle: real, endAngle: real)
    requires 0.0 <= startAngle < endAngle <= 360.0 && endAngle - startAngle != 180.0
    ensures Travelled(DescribeArc(cx, cy, r, startAngle, endAngle)) == 360.0 - (endAngle - startAngle)
    ensures !OnCentredCircle(DescribeArc(cx, cy, r, startAngle, endAngle))
  {
  }

  /** The first slice of a 1 : 3 chart of size 160 is the quarter from 0 to 90
      degrees; `describeArc` gives it `A 76 76 0 0 1`, an arc off the centred
      circle. */
  lemma QuarterSliceOffCircle()
    ensures var p := DescribeArc(80.0, 80.0, 76.0, 0.0, 90.0);
      && p.largeArc == '0' && p.sweep == '1'
      && p.line == PolarPoint(80.0, 80.0, 76.0, 90.0) && p.arcTo == PolarPoint(80.0, 80.0, 76.0, 0.0)
      && !OnCentredCircle(p)
  {
    DescribeArcOffCircle(80.0, 80.0, 76.0, 0.0, 90.0);
  }

  /** What the component draws for slice `i`: nothing, or the sector from the
      cursor to the cursor plus the slice's sweep. */
  function SectorAt(slices: seq<Slice>, size: real, i: nat): (r: Option<Sector>)
    requires i < |slices|
    ensures r.None? <==> Clamp(slices[i].value) == 0.0 || Total(slices) == 0.0
    ensures r.Some? ==> r.value.start < r.value.end
  {
    var total := Total(slices);
    var value := Clamp(slices[i].value);
    if value == 0.0 || total == 0.0 then None
    else
      var portion := value / total * 360.0;
      var start := CursorAt(slices, total, i);
      var end := start + portion;
      var c := size / 2.0;
      var radius := Min(c, c) - Margin;
      var fill := ColorOf(slices[i], i);
      if portion >= FullCircle then Some(Sector(start, end, Circle(c, c, radius, fill)))
      else
        Some(Sector(start, end, Path(DescribeArc(c, c, radius, start, end), fill, "#fff")))
  }

  /** The shapes of the whole chart, one entry per input slice. */
  function Chart(slices: seq<Slice>, size: real): (shapes: seq<Option<Sector>>)
    ensures |shapes| == |slices|
    ensures forall i :: 0 <= i < |slices| ==> shapes[i] == SectorAt(slices, size, i)
  {
    seq(|slices|, i requires 0 <= i < |slices| => SectorAt(slices, size, i))
  }

  /** The legend: one row per input slice, in input order, drawable or not,
      showing the value as given (negative values included). */
  function Legend(slices: seq<Slice>): (rows: seq<LegendRow>)
    ensures |rows| == |slices|
    ensures forall i :: 0 <= i < |slices| ==>
      rows[i] == LegendRow(ColorOf(slices[i], i), slices[i].caption, slices[i].value)
  {
    seq(|slices|, i requires 0 <= i < |slices| => LegendRow(ColorOf(slices[i], i), slices[i].caption, slices[i].value))
  }

  /** The render of `PieChart({slices, size})`: the total shown under the
      legend, the shapes, and the legend rows.  The sectors are allocated with
      a running cursor, as the component does while mapping over the slices. */
  method Render(slices: seq<Slice>, size: real) returns (total: real, shapes: seq<Option<Sector>>, legend: seq<LegendRow>)
    ensures total == Total(slices)
    ensures shapes == Chart(slices, size)
    ensures legend == Legend(slices)
  {
    total := Total(slices);
    var angle := 0.0;
    var cx := size / 2.0;
    var cy := size / 2.0;
    var r := Min(cx, cy) - Margin;
    shapes := [];
    var i := 0;
    while i < |slices|
      invariant 0 <= i <= |slices|
      invariant angle == CursorAt(slices, total, i)
      invariant |shapes| == i
      invariant forall j :: 0 <= j < i ==> shapes[j] == SectorAt(slices, size, j)
    {
      var s := slices[i];
      var value := Clamp(s.value);
      if value == 0.0 || total == 0.0 {
        shapes := shapes + [None];
      } else {
        var portion := value / total * 360.0;
        var start := angle;
        var end := angle + portion;
        angle := angle + portion;
        var fill := ColorOf(s, i);
        if portion >= FullCircle {
          shapes := shapes + [Some(Sector(start, end, Circle(cx, cy, r, fill)))];
        } else {
          var d := DescribeArc(cx, cy, r, start, end);
          shapes := shapes + [Some(Sector(start, end, Path(d, fill, "#fff")))];
        }
      }
      i := i + 1;
    }
    legend := Legend(slices);
  }

  // ---------------------------------------------------------------------
  // Properties of the allocation

  /** The sum of `end - start` over the drawn sectors. */
  function DrawnSweep(shapes: seq<Option<Sector>>): real {
    if shapes == [] then 0.0
    else
      var last := shapes[|shapes| - 1];
      DrawnSweep(shapes[..|shapes| - 1]) + (if last.Some? then last.value.end - last.value.start else 0.0)
  }

  /** A slice is skipped exactly when its clamped value or the total is 0; a
      drawn slice starts at the cursor, ends where the next slice's cursor
      starts, and spans its share value / total * 360 of the turn. */
  lemma SectorAtCursor(slices: seq<Slice>, size: real, i: nat)
    requires i < |slices|
    ensures var s := SectorAt(slices, size, i); var total := Total(slices);
      && (s.None? <==> Clamp(slices[i].value) == 0.0 || total == 0.0)
      && (s.Some? ==>
           && s.value.start == CursorAt(slices, total, i)
           && s.value.end == CursorAt(slices, total, i + 1)
           && s.value.end - s.value.start == Clamp(slices[i].value) / total * 360.0)
  {
  }

  /** Skipped slices leave the cursor where it was. */
  lemma {:induction false} CursorFlat(slices: seq<Slice>, total: real, a: nat, b: nat)
    requires total >= 0.0 && a <= b <= |slices|
    requires forall k :: a <= k < b ==> Clamp(slices[k].value) == 0.0 || total == 0.0
    ensures CursorAt(slices, total, b) == CursorAt(slices, total, a)
  {
    if a < b {
      CursorFlat(slices, total, a, b - 1);
    }
  }

  /** Consecutive drawn sectors are contiguous: the next drawn slice starts
      exactly where the previous one ended. */
  lemma Contiguous(slices: seq<Slice>, size: real, i: nat, j: nat)
    requires i < j < |slices|
    requires SectorAt(slices, size, i).Some? && SectorAt(slices, size, j).Some?
    requires forall k :: i < k < j ==> SectorAt(slices, size, k).None?
    ensures SectorAt(slices, size, i).value.end == SectorAt(slices, size, j).value.start
  {
    var total := Total(slices);
    forall k | i + 1 <= k < j ensures Clamp(slices[k].value) == 0.0 || total == 0.0 {
      assert SectorAt(slices, size, k).None?;
    }
    CursorFlat(slices, total, i + 1, j);
  }

  /** The first drawn sector starts at 0 degrees (12 o'clock). */
  lemma FirstDrawnStartsAtZero(slices: seq<Slice>, size: real, i: nat)
    requires i < |slices| && SectorAt(slices, size, i).Some?
    requires forall k :: 0 <= k < i ==> SectorAt(slices, size, k).None?
    ensures SectorAt(slices, size, i).value.start == 0.0
  {
    var total := Total(slices);
    forall k | 0 <= k < i ensures Clamp(slices[k].value) == 0.0 || total == 0.0 {
      assert SectorAt(slices, size, k).None?;
    }
    CursorFlat(slices, total, 0, i);
  }

  lemma ShareAdd(p: real, v: real, total: real)
    requires total > 0.0
    ensures p / total * 360.0 + v / total * 360.0 == (p + v) / total * 360.0
  {
  }

  /** The cursor before slice `i` is the clamped total of the slices before it,
      as a share of the whole turn. */
  lemma {:induction false} CursorClosedForm(slices: seq<Slice>, i: nat)
    requires i <= |slices| && Total(slices) > 0.0
    ensures CursorAt(slices, Total(slices), i) == Total(slices[..i]) / Total(slices) * 360.0
  {
    var total := Total(slices);
    if i > 0 {
      CursorClosedForm(slices, i - 1);
      assert slices[..i][..i - 1] == slices[..i - 1];
      assert Total(slices[..i]) == Total(slices[..i - 1]) + Clamp(slices[i - 1].value);
      ShareAdd(Total(slices[..i - 1]), Clamp(slices[i - 1].value), total);
    }
  }

  /** With a positive total the cursor ends at exactly 360 degrees. */
  lemma FullTurn(slices: seq<Slice>)
    requires Total(slices) > 0.0
    ensures CursorAt(slices, Total(slices), |slices|) == 360.0
  {
    CursorClosedForm(slices, |slices|);
    assert slices[..|slices|] == slices;
    WholeShare(Total(slices));
  }

  lemma WholeShare(t: real)
    requires t > 0.0
    ensures t / t * 360.0 == 360.0
  {
  }

  /** The drawn sectors of the first `i` slices together span the cursor. */
  lemma {:induction false} DrawnSweepIsCursor(slices: seq<Slice>, size: real, i: nat)
    requires i <= |slices|
    ensures DrawnSweep(Chart(slices, size)[..i]) == CursorAt(slices, Total(slices), i)
  {
    if i > 0 {
      var shapes := Chart(slices, size);
      DrawnSweepIsCursor(slices, size, i - 1);
      assert shapes[..i][..i - 1] == shapes[..i - 1];
      SectorAtCursor(slices, size, i - 1);
    }
  }

  /** Partition: with a positive total the drawn sectors sum to 360 degrees. */
  lemma DrawnSectorsFillTurn(slices: seq<Slice>, size: real)
    requires Total(slices) > 0.0
    ensures DrawnSweep(Chart(slices, size)) == 360.0
  {
    DrawnSweepIsCursor(slices, size, |slices|);
    assert Chart(slices, size)[..|slices|] == Chart(slices, size);
    FullTurn(slices);
  }

  /** With nothing positive to draw the chart has no shape at all. */
  lemma ZeroTotalDrawsNothing(slices: seq<Slice>, size: real)
    requires Total(slices) == 0.0
    ensures forall i :: 0 <= i < |slices| ==> Chart(slices, size)[i].None?
  {
  }

  /** Clamped totals grow along the input. */
  lemma {:induction false} TotalMonotone(slices: seq<Slice>, i: nat, j: nat)
    requires i <= j <= |slices|
    ensures Total(slices[..i]) <= Total(slices[..j])
  {
    if i < j {
      TotalMonotone(slices, i, j - 1);
      assert slices[..j][..j - 1] == slices[..j - 1];
    }
  }

  /** Every drawn sector lies within [0, 360]. */
  lemma SectorWithinTurn(slices: seq<Slice>, size: real, i: nat)
    requires i < |slices| && SectorAt(slices, size, i).Some?
    ensures 0.0 <= SectorAt(slices, size, i).value.start < SectorAt(slices, size, i).value.end <= 360.0
  {
    SectorBounds(slices, i);
  }

  /** A drawable slice's range, from the cursor to the cursor plus its share
      of the turn, lies within [0, 360]. */
  lemma SectorBounds(slices: seq<Slice>, i: nat)
    requires i < |slices| && Clamp(slices[i].value) > 0.0 && Total(slices) > 0.0
    ensures var total := Total(slices); var start := CursorAt(slices, total, i);
      0.0 <= start < start + Clamp(slices[i].value) / total * 360.0 <= 360.0
  {
    var total := Total(slices);
    CursorClosedForm(slices, i + 1);
    TotalMonotone(slices, i + 1, |slices|);
    assert slices[..|slices|] == slices;
    ShareAtMostTurn(Total(slices[..i + 1]), total);
  }

  lemma ShareAtMostTurn(p: real, total: real)
    requires 0.0 <= p <= total && total > 0.0
    ensures p / total * 360.0 <= 360.0
  {
    assert p / total <= 1.0;
  }

  /** The clamped total of a chart with a single positive slice is that
      slice's value. */
  lemma {:induction false} TotalOfSinglePositive(slices: seq<Slice>, k: nat)
    requires k < |slices|
    requires forall j :: 0 <= j < |slices| && j != k ==> slices[j].value <= 0.0
    ensures Total(slices) == Clamp(slices[k].value)
  {
    if |slices| > 1 {
      var prefix := slices[..|slices| - 1];
      if k < |slices| - 1 {
        TotalOfSinglePositive(prefix, k);
      } else {
        assert forall j :: 0 <= j < |prefix| ==> prefix[j].value <= 0.0;
      }
    }
  }

  /** When exactly one slice has a positive value, it is the only shape and it
      is a circle centred in the drawing with radius size / 2 - 4. */
  lemma SinglePositiveIsCircle(slices: seq<Slice>, size: real, k: nat)
    requires k < |slices| && slices[k].value > 0.0
    requires forall j :: 0 <= j < |slices| && j != k ==> slices[j].value <= 0.0
    ensures SectorAt(slices, size, k).Some?
    ensures SectorAt(slices, size, k).value.shape == Circle(size / 2.0, size / 2.0, size / 2.0 - 4.0, ColorOf(slices[k], k))
    ensures forall j :: 0 <= j < |slices| && j != k ==> SectorAt(slices, size, j).None?
  {
    TotalOfSinglePositive(slices, k);
    WholeShare(slices[k].value);
  }

  /** A drawn sector is a circle exactly when it spans at least 359.999
      degrees; the circle is centred in the drawing with radius size / 2 - 4
      and is filled with the slice's colour. */
  lemma CircleExactlyWhenFull(slices: seq<Slice>, size: real, i: nat)
    requires i < |slices| && SectorAt(slices, size, i).Some?
    ensures var s := SectorAt(slices, size, i).value;
      && (s.shape.Circle? <==> s.end - s.start >= FullCircle)
      && (s.shape.Circle? ==> s.shape == Circle(size / 2.0, size / 2.0, size / 2.0 - 4.0, ColorOf(slices[i], i)))
      && (s.shape.Path? ==> s.shape.fill == ColorOf(slices[i], i) && s.shape.stroke == "#fff")
  {
  }

  /** A sector drawn as a path uses the large arc exactly when it spans more
      than 180 degrees; its line goes to the end point and its arc, with sweep
      flag 1, to the start point, so that unless the sector is a half turn the
      arc travels the other 360 - span degrees and is not on the centred
      circle. */
  lemma PathFlags(slices: seq<Slice>, size: real, i: nat)
    requires i < |slices|
    requires SectorAt(slices, size, i).Some? && SectorAt(slices, size, i).value.shape.Path?
    ensures var s := SectorAt(slices, size, i).value;
      && s.shape.d.sweep == '1'
      && (s.shape.d.largeArc == '1' <==> s.end - s.start > 180.0)
      && s.shape.d.line.angle == s.end && s.shape.d.arcTo.angle == s.start
      && s.end - s.start < FullCircle
      && (s.end - s.start != 180.0 ==>
            Travelled(s.shape.d) == 360.0 - (s.end - s.start) && !OnCentredCircle(s.shape.d))
  {
    SectorWithinTurn(slices, size, i);
    var s := SectorAt(slices, size, i).value;
    var c := size / 2.0;
    if s.end - s.start != 180.0 {
      DescribeArcOffCircle(c, c, Min(c, c) - Margin, s.start, s.end);
    }
  }

  /** The chart as intended: giving a path sector sweep flag 0 instead makes
      it the wedge's arc, on the centred circle and travelling exactly the
      sector's span. */
  lemma CorrectedSweepOnCircle(slices: seq<Slice>, size: real, i: nat)
    requires i < |slices|
    requires SectorAt(slices, size, i).Some? && SectorAt(slices, size, i).value.shape.Path?
    ensures var s := SectorAt(slices, size, i).value;
      var c := size / 2.0;
      && 0.0 <= s.start < s.end <= 360.0
      && s.shape.d.(sweep := '0') == DescribeWedge(c, c, c - Margin, s.start, s.end)
      && OnCentredCircle(s.shape.d.(sweep := '0'))
      && Travelled(s.shape.d.(sweep := '0')) == s.end - s.start
  {
    SectorWithinTurn(slices, size, i);
  }

  /** A drawn shape and its legend row carry the same colour, resolved from
      the slice's position in the input even when earlier slices were skipped. */
  lemma ShapeMatchesLegend(slices: seq<Slice>, size: real, i: nat)
    requires i < |slices| && SectorAt(slices, size, i).Some?
    ensures SectorAt(slices, size, i).value.shape.fill == Legend(slices)[i].color
  {
  }
}
