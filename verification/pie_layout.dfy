/** The pure geometry of the pie renderer: angle spans from percentages, span
    lookup by angle, quadrant classification, leader-line planning, the label
    decimation pass, text truncation and label placement.

    Trigonometry is a parameter: `cosSin(a)` gives the cosine and sine of `a`
    degrees. Text measurement is a parameter too: `advance(c)` is the width of
    one character, and the width of a string is the sum over its characters.
 */
module PieLayout {
  import opened Outcomes
  import opened Sources

  /** Twelve o'clock, where the first span starts. */
  const StartAngle: real := -90.0
  const MaxAngle: real := 360.0
  const MaxAlpha: real := 255.0
  const MaxProgress: real := 100.0

  // ---------------------------------------------------------------------------
  // Spans
  // ---------------------------------------------------------------------------

  /** The sweep of an item: its share of the full circle. */
  function SweepOf(percent: real): real {
    MaxAngle * percent / MaxProgress
  }

  /** Sum of the percentages of `data`. */
  function PercentSum(data: seq<PieViewData>): real {
    if |data| == 0 then 0.0 else PercentSum(data[..|data| - 1]) + data[|data| - 1].percent
  }

  /** What `setData` makes of `data`: one span per item, in input order, with its
      index, its texts and resolved colour; span 0 starts at twelve o'clock, every
      later span starts where the previous one ends, and each sweeps its share
      of 360 degrees. */
  ghost predicate Built(data: seq<PieViewData>, resolveColor: int -> int, arcs: seq<ArcData>) {
    && |arcs| == |data|
    && (forall i :: 0 <= i < |arcs| ==> arcs[i].index == i)
    && (|arcs| > 0 ==> arcs[0].startAngle == StartAngle)
    && (forall i :: 0 < i < |arcs| ==> arcs[i].startAngle == arcs[i - 1].endAngle)
    && (forall i :: 0 <= i < |arcs| ==>
          && arcs[i].swipeAngle == MaxAngle * data[i].percent / MaxProgress
          && arcs[i].endAngle == arcs[i].startAngle + arcs[i].swipeAngle)
    && (forall i :: 0 <= i < |arcs| ==>
          && arcs[i].textAbove == data[i].duration
          && arcs[i].textBelow == data[i].courseName
          && arcs[i].color == resolveColor(data[i].color))
  }

  /** `setData`: the spans of `data`. The spans built before are discarded: the
      result depends on `data` alone. */
  function SetData(data: seq<PieViewData>, resolveColor: int -> int): (arcs: seq<ArcData>)
    ensures Built(data, resolveColor, arcs)
  {
    if |data| == 0 then []
    else
      var prev := SetData(data[..|data| - 1], resolveColor);
      var item := data[|data| - 1];
      var start := if |prev| > 0 then prev[|prev| - 1].endAngle else StartAngle;
      var sweep := SweepOf(item.percent);
      var arcs := prev + [ArcData(|prev|, start, start + sweep, sweep, item.duration, item.courseName, resolveColor(item.color))];
      BuiltSnoc(data, resolveColor, prev, arcs);
      arcs
  }

  /** Appending the span of the last item to the spans of the others gives the
      spans of all items. */
  lemma BuiltSnoc(data: seq<PieViewData>, resolveColor: int -> int, prev: seq<ArcData>, arcs: seq<ArcData>)
    requires |data| > 0 && Built(data[..|data| - 1], resolveColor, prev)
    requires var item := data[|data| - 1];
      var start := if |prev| > 0 then prev[|prev| - 1].endAngle else StartAngle;
      var sweep := SweepOf(item.percent);
      arcs == prev + [ArcData(|prev|, start, start + sweep, sweep, item.duration, item.courseName, resolveColor(item.color))]
    ensures Built(data, resolveColor, arcs)
  {
    var init := data[..|data| - 1];
    forall i | 0 <= i < |prev| ensures arcs[i] == prev[i] && data[i] == init[i] { }
  }

  /** The spans fit together the way `setData` builds them. */
  ghost predicate Contiguous(arcs: seq<ArcData>) {
    && (|arcs| > 0 ==> arcs[0].startAngle == StartAngle)
    && (forall i :: 0 < i < |arcs| ==> arcs[i].startAngle == arcs[i - 1].endAngle)
    && (forall i :: 0 <= i < |arcs| ==> arcs[i].index == i)
    && (forall i :: 0 <= i < |arcs| ==> arcs[i].endAngle == arcs[i].startAngle + arcs[i].swipeAngle)
  }

  /** Span `i` starts where the percentages before it have carried the sweep:
      `-90 + 360 * (p0 + ... + p(i-1)) / 100`. So the whole ring covers
      `360 * (sum of percent) / 100` degrees, whether or not that sum is 100. */
  lemma {:induction false} SpanStartIsPrefixSum(data: seq<PieViewData>, resolveColor: int -> int, i: nat)
    requires i <= |data|
    ensures var arcs := SetData(data, resolveColor);
      (i < |arcs| ==> arcs[i].startAngle == StartAngle + SweepOf(PercentSum(data[..i])))
      && (i > 0 ==> arcs[i - 1].endAngle == StartAngle + SweepOf(PercentSum(data[..i])))
  {
    if i == 0 {
      assert data[..0] == [];
    } else {
      SpanStartIsPrefixSum(data, resolveColor, i - 1);
      PercentSumSnoc(data, i);
      SweepAdds(PercentSum(data[..i - 1]), data[i - 1].percent);
      SetDataAt(data, resolveColor, i - 1);
    }
  }

  /** The sum of the first `i` percentages is that of the first `i - 1` plus the last. */
  lemma PercentSumSnoc(data: seq<PieViewData>, i: nat)
    requires 0 < i <= |data|
    ensures PercentSum(data[..i]) == PercentSum(data[..i - 1]) + data[i - 1].percent
  {
    assert data[..i][..i - 1] == data[..i - 1];
  }

  lemma SweepAdds(a: real, b: real)
    ensures SweepOf(a) + SweepOf(b) == SweepOf(a + b)
  {
  }

  /** Span `k` ends one sweep after it starts, and the next span starts there. */
  lemma SetDataAt(data: seq<PieViewData>, resolveColor: int -> int, k: nat)
    requires k < |data|
    ensures var arcs := SetData(data, resolveColor);
      && arcs[k].endAngle == arcs[k].startAngle + SweepOf(data[k].percent)
      && (k + 1 < |arcs| ==> arcs[k + 1].startAngle == arcs[k].endAngle)
  {
  }

  /** With non-negative percentages the spans are ordered: every later span starts
      at or after the end of every earlier one. */
  lemma {:induction false} SpansOrdered(arcs: seq<ArcData>, i: nat, j: nat)
    requires Contiguous(arcs)
    requires forall k :: 0 <= k < |arcs| ==> arcs[k].swipeAngle >= 0.0
    requires i < j < |arcs|
    ensures arcs[i].endAngle <= arcs[j].startAngle
    decreases j - i
  {
    if i + 1 < j {
      SpansOrdered(arcs, i + 1, j);
    }
  }

  // ---------------------------------------------------------------------------
  // Lookup
  // ---------------------------------------------------------------------------

  predicate Contains(a: ArcData, angle: real) {
    a.startAngle <= angle && a.endAngle > angle
  }

  /** `currentArcData`: the first span whose half-open range `[start, end)` holds
      `angle`, or none. */
  function CurrentArcData(arcs: seq<ArcData>, angle: real): (r: Option<ArcData>)
    ensures r.Some? ==> exists i :: 0 <= i < |arcs| && arcs[i] == r.value && forall j :: 0 <= j < i ==> !Contains(arcs[j], angle)
    ensures r.Some? ==> Contains(r.value, angle)
    ensures r.None? <==> forall i :: 0 <= i < |arcs| ==> !Contains(arcs[i], angle)
  {
    if |arcs| == 0 then None
    else if Contains(arcs[0], angle) then Some(arcs[0])
    else
      var r := CurrentArcData(arcs[1..], angle);
      assert forall i :: 0 < i < |arcs| ==> arcs[i] == arcs[1..][i - 1];
      r
  }

  /** `indexOf`: the position of the first element equal to `d` (data classes
      compare field by field), or -1. */
  function IndexOf(arcs: seq<ArcData>, d: ArcData): (r: int)
    ensures -1 <= r < |arcs|
    ensures r >= 0 ==> arcs[r] == d && forall j :: 0 <= j < r ==> arcs[j] != d
    ensures r == -1 <==> d !in arcs
  {
    if |arcs| == 0 then -1
    else if arcs[0] == d then 0
    else
      var r := IndexOf(arcs[1..], d);
      if r == -1 then -1 else r + 1
  }

  /** The span found for an angle is the one at the position `indexOf` reports,
      and it is the only span holding that angle when the percentages are
      non-negative. */
  lemma FoundSpanIsUnique(arcs: seq<ArcData>, angle: real)
    requires Contiguous(arcs)
    requires forall k :: 0 <= k < |arcs| ==> arcs[k].swipeAngle >= 0.0
    requires CurrentArcData(arcs, angle).Some?
    ensures var i := IndexOf(arcs, CurrentArcData(arcs, angle).value);
      && 0 <= i < |arcs|
      && arcs[i].index == i
      && Contains(arcs[i], angle)
      && forall j :: 0 <= j < |arcs| && j != i ==> !Contains(arcs[j], angle)
  {
    var i := IndexOf(arcs, CurrentArcData(arcs, angle).value);
    forall j | 0 <= j < |arcs| && j != i
      ensures !Contains(arcs[j], angle)
    {
      if j < i {
        SpansOrdered(arcs, j, i);
      } else {
        SpansOrdered(arcs, i, j);
      }
    }
  }

  /** Every angle from twelve o'clock up to the end of the last span lies in some
      span, when the percentages are non-negative. */
  lemma {:induction false} AngleInRingIsFound(arcs: seq<ArcData>, angle: real)
    requires Contiguous(arcs)
    requires forall k :: 0 <= k < |arcs| ==> arcs[k].swipeAngle >= 0.0
    requires |arcs| > 0 && StartAngle <= angle < arcs[|arcs| - 1].endAngle
    ensures CurrentArcData(arcs, angle).Some?
  {
    var n := |arcs|;
    if Contains(arcs[n - 1], angle) {
    } else {
      assert angle < arcs[n - 1].startAngle;
      assert n > 1;
      AngleInRingIsFound(arcs[..n - 1], angle);
      var i :| 0 <= i < n - 1 && Contains(arcs[..n - 1][i], angle);
      assert Contains(arcs[i], angle);
    }
  }

  /** `preArcData`: the span before `index`. Positions outside the list give null;
      index 0 passes the guard and reads position -1, which throws. */
  function PreArcData(arcs: seq<ArcData>, index: int): (r: Result<Option<ArcData>>)
    ensures (index < 0 || index >= |arcs|) <==> r == Ok(None)
    ensures index == 0 && |arcs| > 0 <==> r == Fail(IndexOutOfBounds)
    ensures r.Ok? && r.value.Some? ==> 1 <= index < |arcs| && r.value.value == arcs[index - 1]
    ensures 1 <= index < |arcs| ==> r == Ok(Some(arcs[index - 1]))
  {
    if index < 0 || index > |arcs| - 1 then Ok(None)
    else if index - 1 < 0 then Fail(IndexOutOfBounds)
    else Ok(Some(arcs[index - 1]))
  }

  /** The span before span `i` ends exactly where span `i` starts. */
  lemma PreArcEndsAtStart(arcs: seq<ArcData>, i: int)
    requires Contiguous(arcs)
    requires 1 <= i < |arcs|
    ensures PreArcData(arcs, i) == Ok(Some(arcs[i - 1]))
    ensures PreArcData(arcs, i).value.value.endAngle == arcs[i].startAngle
  {
  }

  /** The demo data set's first two items (20% and 15%) give the spans -90..-18
      and -18..36. */
  lemma DemoSpans(resolveColor: int -> int, rest: seq<PieViewData>)
    ensures var arcs := SetData([PieViewData("3h", "数学", 20.0, 0), PieViewData("12h", "英语", 15.0, 1)] + rest, resolveColor);
      && arcs[0].startAngle == -90.0 && arcs[0].endAngle == -18.0 && arcs[0].swipeAngle == 72.0
      && arcs[1].startAngle == -18.0 && arcs[1].endAngle == 36.0 && arcs[1].swipeAngle == 54.0
  {
    var data := [PieViewData("3h", "数学", 20.0, 0), PieViewData("12h", "英语", 15.0, 1)] + rest;
    var arcs := SetData(data, resolveColor);
    assert data[0].percent == 20.0 && data[1].percent == 15.0;
    assert arcs[0].swipeAngle == 72.0;
  }

  // ---------------------------------------------------------------------------
  // Quadrants and leader lines
  // ---------------------------------------------------------------------------

  /** The four regions the code classifies a point into. */
  datatype Quadrant = Left | Right | MiddleTop | MiddleBottom

  /** `locate`: left or right of the vertical centre line; on that line, above or
      below the centre. */
  function Locate(x: real, y: real, cx: real, cy: real): (q: Quadrant)
    ensures q == Left <==> x < cx
    ensures q == Right <==> x > cx
    ensures q == MiddleTop <==> x == cx && y < cy
    ensures q == MiddleBottom <==> x == cx && y >= cy
  {
    if x < cx then Left
    else if x > cx then Right
    else if y < cy then MiddleTop
    else MiddleBottom
  }

  /** The chart geometry fixed by `onSizeChanged`. */
  datatype Geometry = Geometry(centerX: real, centerY: real, radius: real, centerOvalRadius: real)

  /** The lengths the line planner needs: the gap between the wedge and the start
      of a leader line, the leader length, the screen edge margin and the screen
      width. */
  datatype LinePlan = LinePlan(outerMargin: real, lineLength: real, marginEdge: real, measuredWidth: int)

  /** The end point of a leader line turning at `(tx, ty)`: the left margin for the
      left half and the vertical centre line, the right margin for the right half,
      always at the turning point's height. */
  function EndPoint(tx: real, ty: real, g: Geometry, p: LinePlan): (e: (real, real))
    ensures e.1 == ty
    ensures tx <= g.centerX ==> e.0 == p.marginEdge
    ensures tx > g.centerX ==> e.0 == p.measuredWidth as real - p.marginEdge
  {
    match Locate(tx, ty, g.centerX, g.centerY)
    case MiddleTop | MiddleBottom | Left => (0.0 + p.marginEdge, ty)
    case Right => (p.measuredWidth as real - p.marginEdge, ty)
  }

  /** The leader line of span `index` whose sweep starts at `startAngle`. Its
      `dpToPre` is measured against the entry at position `index - 1` of the
      whole line list built so far. */
  function PlanLine(arc: ArcData, index: nat, startAngle: real, lines: seq<LineData>,
                    g: Geometry, p: LinePlan, cosSin: real -> (real, real)): (l: LineData)
    requires index <= |lines|
    ensures l.alpha == 0 && !l.isFitToRender && l.color == arc.color && l.endY == l.turningY
    ensures l.endX == (if l.turningX <= g.centerX then p.marginEdge else p.measuredWidth as real - p.marginEdge)
    ensures l.dpToPre == (if index == 0 then 0.0 else AbsReal(l.turningY - lines[index - 1].turningY))
  {
    var mid := cosSin(startAngle + arc.swipeAngle / 2.0);
    var fixedRadius := g.radius + p.outerMargin;
    var startX := fixedRadius * mid.0 + g.centerX;
    var startY := fixedRadius * mid.1 + g.centerY;
    var turningX := (p.lineLength + fixedRadius) * mid.0 + g.centerX;
    var turningY := (p.lineLength + fixedRadius) * mid.1 + g.centerY;
    var end := EndPoint(turningX, turningY, g, p);
    var dpToPre := if index == 0 then 0.0 else AbsReal(turningY - lines[index - 1].turningY);
    NewLineData(startX, startY, turningX, turningY, end.0, end.1, arc.color, dpToPre)
  }

  /** The radial divider of a span (`calculateWhiteLines`): from the centre to the
      ring at its start angle. When `cosSin` gives a point of the unit circle, the
      divider ends exactly one radius from the centre. */
  function WhiteLine(angle: real, g: Geometry, cosSin: real -> (real, real)): (w: WhiteLineData)
    ensures var d := cosSin(angle);
      d.0 * d.0 + d.1 * d.1 == 1.0 ==>
        (w.endX - g.centerX) * (w.endX - g.centerX) + (w.endY - g.centerY) * (w.endY - g.centerY) == g.radius * g.radius
  {
    var d := cosSin(angle);
    var w := WhiteLineData(g.radius * d.0 + g.centerX, g.radius * d.1 + g.centerY);
    OnCircle(g.radius, d.0, d.1);
    w
  }

  /** A unit direction scaled by `r` lies `r` from the origin. */
  lemma OnCircle(r: real, c: real, s: real)
    ensures c * c + s * s == 1.0 ==> (r * c) * (r * c) + (r * s) * (r * s) == r * r
  {
  }


  /** The loop of `calculateLines` from span `i` on, appending to the line and
      divider lists it is given; `startAngle` is the running sum of the sweeps. */
  function PlanFrom(arcs: seq<ArcData>, i: nat, startAngle: real, lines: seq<LineData>, whites: seq<WhiteLineData>,
                    g: Geometry, p: LinePlan, cosSin: real -> (real, real)): (r: (seq<LineData>, seq<WhiteLineData>))
    requires i <= |arcs| && i <= |lines|
    ensures |r.0| == |lines| + |arcs| - i && |r.1| == |whites| + |arcs| - i
    ensures r.0[..|lines|] == lines && r.1[..|whites|] == whites
    decreases |arcs| - i
  {
    if i == |arcs| then (lines, whites)
    else
      var line := PlanLine(arcs[i], i, startAngle, lines, g, p, cosSin);
      var white := WhiteLine(startAngle, g, cosSin);
      var r := PlanFrom(arcs, i + 1, startAngle + arcs[i].swipeAngle, lines + [line], whites + [white], g, p, cosSin);
      assert r.0[..|lines|] == (r.0[..|lines| + 1])[..|lines|];
      assert r.1[..|whites|] == (r.1[..|whites| + 1])[..|whites|];
      r
  }

  /** What the planner appends for span `i`, given the list `base` it started from:
      the Kotlin defaults for alpha and (before decimation) the verdict, the span's
      colour, an end point on the screen edge of the turning point's half at the
      turning point's height, and the gap to the entry at position `i - 1`. */
  ghost predicate PlannedLine(arcs: seq<ArcData>, base: seq<LineData>, out: seq<LineData>, i: nat,
                              g: Geometry, p: LinePlan, decimated: bool)
    requires i < |arcs| && |base| + i < |out|
  {
    var l := out[|base| + i];
    && l.alpha == 0
    && (decimated || !l.isFitToRender)
    && l.color == arcs[i].color
    && l.endY == l.turningY
    && l.endX == (if l.turningX <= g.centerX then p.marginEdge else p.measuredWidth as real - p.marginEdge)
    && l.dpToPre == (if i == 0 then 0.0 else AbsReal(l.turningY - out[i - 1].turningY))
  }

  /** Where the planner aims span `j`: its leader line starts on the margin circle
      and turns further out, both on the ray through the middle of the span, and
      its divider lies along the span's start angle. `out`/`wout` are the lists
      after planning, `base`/`wbase` the lists before. */
  ghost predicate AimedLine(arcs: seq<ArcData>, base: seq<LineData>, out: seq<LineData>,
                            wbase: seq<WhiteLineData>, wout: seq<WhiteLineData>, j: nat,
                            g: Geometry, p: LinePlan, cosSin: real -> (real, real))
    requires j < |arcs| && |base| + j < |out| && |wbase| + j < |wout|
  {
    var mid := cosSin(arcs[j].startAngle + arcs[j].swipeAngle / 2.0);
    var l := out[|base| + j];
    && l.startX == (g.radius + p.outerMargin) * mid.0 + g.centerX
    && l.startY == (g.radius + p.outerMargin) * mid.1 + g.centerY
    && l.turningX == (p.lineLength + (g.radius + p.outerMargin)) * mid.0 + g.centerX
    && l.turningY == (p.lineLength + (g.radius + p.outerMargin)) * mid.1 + g.centerY
    && wout[|wbase| + j] == WhiteLine(arcs[j].startAngle, g, cosSin)
  }

  /** For spans laid out the way `setData` builds them, the running angle of the
      planner loop is the start angle of the span it is at, so every line is aimed
      at its own span's middle and every divider at its own span's start. */
  lemma {:induction false} PlanFromAims(arcs: seq<ArcData>, i: nat, startAngle: real, lines: seq<LineData>,
                                        whites: seq<WhiteLineData>, g: Geometry, p: LinePlan, cosSin: real -> (real, real),
                                        base: seq<LineData>, wbase: seq<WhiteLineData>)
    requires Contiguous(arcs)
    requires i <= |arcs| && |base| + i == |lines| && |wbase| + i == |whites|
    requires i < |arcs| ==> startAngle == arcs[i].startAngle
    requires forall j :: 0 <= j < i ==> AimedLine(arcs, base, lines, wbase, whites, j, g, p, cosSin)
    ensures var out := PlanFrom(arcs, i, startAngle, lines, whites, g, p, cosSin);
      forall j :: 0 <= j < |arcs| ==> AimedLine(arcs, base, out.0, wbase, out.1, j, g, p, cosSin)
    decreases |arcs| - i
  {
    if i < |arcs| {
      var line := PlanLine(arcs[i], i, startAngle, lines, g, p, cosSin);
      var white := WhiteLine(startAngle, g, cosSin);
      var next := lines + [line];
      var whites' := whites + [white];
      forall j | 0 <= j < i + 1 ensures AimedLine(arcs, base, next, wbase, whites', j, g, p, cosSin) {
        if j < i {
          assert AimedLine(arcs, base, lines, wbase, whites, j, g, p, cosSin);
          assert next[|base| + j] == lines[|base| + j];
          assert whites'[|wbase| + j] == whites[|wbase| + j];
        } else {
          assert next[|base| + j] == line;
          assert whites'[|wbase| + j] == white;
        }
      }
      var angle' := startAngle + arcs[i].swipeAngle;
      assert i + 1 < |arcs| ==> angle' == arcs[i + 1].startAngle;
      PlanFromAims(arcs, i + 1, angle', next, whites', g, p, cosSin, base, wbase);
      assert PlanFrom(arcs, i, startAngle, lines, whites, g, p, cosSin) == PlanFrom(arcs, i + 1, angle', next, whites', g, p, cosSin);
    } else {
      assert PlanFrom(arcs, i, startAngle, lines, whites, g, p, cosSin) == (lines, whites);
    }
  }

  lemma {:induction false} PlanFromLines(arcs: seq<ArcData>, i: nat, startAngle: real, lines: seq<LineData>,
                                         whites: seq<WhiteLineData>, g: Geometry, p: LinePlan, cosSin: real -> (real, real),
                                         base: seq<LineData>)
    requires i <= |arcs| && |base| + i == |lines|
    requires lines[..|base|] == base
    requires forall j :: 0 <= j < i ==> PlannedLine(arcs, base, lines, j, g, p, false)
    ensures var out := PlanFrom(arcs, i, startAngle, lines, whites, g, p, cosSin).0;
      forall j :: 0 <= j < |arcs| ==> PlannedLine(arcs, base, out, j, g, p, false)
    decreases |arcs| - i
  {
    if i < |arcs| {
      var line := PlanLine(arcs[i], i, startAngle, lines, g, p, cosSin);
      var next := lines + [line];
      assert next[..|base|] == base;
      forall j | 0 <= j < i + 1 ensures PlannedLine(arcs, base, next, j, g, p, false) {
        assert j > 0 ==> next[j - 1] == lines[j - 1];
        if j < i {
          assert PlannedLine(arcs, base, lines, j, g, p, false);
          assert next[|base| + j] == lines[|base| + j];
        } else {
          assert next[|base| + j] == line;
          assert line.alpha == 0;
        }
      }
      var whites' := whites + [WhiteLine(startAngle, g, cosSin)];
      var angle' := startAngle + arcs[i].swipeAngle;
      PlanFromLines(arcs, i + 1, angle', next, whites', g, p, cosSin, base);
      assert var out := PlanFrom(arcs, i + 1, angle', next, whites', g, p, cosSin).0;
        forall j :: 0 <= j < |arcs| ==> PlannedLine(arcs, base, out, j, g, p, false);
      var out := PlanFrom(arcs, i, startAngle, lines, whites, g, p, cosSin).0;
      var out' := PlanFrom(arcs, i + 1, angle', next, whites', g, p, cosSin).0;
      assert forall j :: 0 <= j < |arcs| ==> PlannedLine(arcs, base, out', j, g, p, false);
      assert out == out';
    } else {
      assert PlanFrom(arcs, i, startAngle, lines, whites, g, p, cosSin).0 == lines;
    }
  }

  // ---------------------------------------------------------------------------
  // Label decimation
  // ---------------------------------------------------------------------------

  /** The turning points of two consecutive lines lie on different sides of the
      vertical centre line. */
  predicate CrossesCenter(pre: LineData, cur: LineData, cx: real) {
    (pre.turningX <= cx && cur.turningX > cx) || (pre.turningX >= cx && cur.turningX < cx)
  }

  /** The pass variable `mTempSpace` before line `i` is examined. It never holds
      more than one gap: it is 0 or the gap of the line just before `i`. */
  function TempSpace(lines: seq<LineData>, i: nat, cx: real, minSpace: real): (t: real)
    requires i <= |lines|
    ensures t == 0.0 || (2 <= i && t == lines[i - 1].dpToPre)
  {
    if i <= 1 then 0.0
    else
      var t := TempSpace(lines, i - 1, cx, minSpace);
      var l := lines[i - 1];
      if l.dpToPre + t >= minSpace then 0.0
      else if CrossesCenter(lines[i - 2], l, cx) then 0.0
      else l.dpToPre
  }

  /** The verdict of `isFitToRender` for line `i`. */
  predicate FitAt(lines: seq<LineData>, i: nat, cx: real, minSpace: real)
    requires i < |lines|
  {
    || i == 0
    || lines[i].dpToPre + TempSpace(lines, i, cx, minSpace) >= minSpace
    || CrossesCenter(lines[i - 1], lines[i], cx)
  }

  /** `isFitToRender`: rewrites the verdict of every line of the list in order and
      leaves every other field alone. The first line is kept; a later line is kept
      exactly when it crosses the centre line relative to the previous line, or
      when its gap reaches the minimum once the gap of the previous line is added
      to it, and that addition happens only when the previous line was dropped:
      only ONE dropped gap is ever carried forward. */
  function FitPass(lines: seq<LineData>, cx: real, minSpace: real): (r: seq<LineData>)
    ensures |r| == |lines|
    ensures forall i :: 0 <= i < |r| ==> r[i] == lines[i].(isFitToRender := r[i].isFitToRender)
    ensures |r| > 0 ==> r[0].isFitToRender
    ensures forall i :: 1 <= i < |r| ==>
      (r[i].isFitToRender <==>
        CrossesCenter(lines[i - 1], lines[i], cx)
        || lines[i].dpToPre + (if i >= 2 && !r[i - 1].isFitToRender then lines[i - 1].dpToPre else 0.0) >= minSpace)
  {
    FitAtRecurrence(lines, cx, minSpace);
    seq(|lines|, i requires 0 <= i < |lines| => lines[i].(isFitToRender := FitAt(lines, i, cx, minSpace)))
  }

  /** The verdict of line `i` in terms of the verdict of line `i - 1`. */
  lemma FitAtRecurrence(lines: seq<LineData>, cx: real, minSpace: real)
    ensures forall i :: 1 <= i < |lines| ==>
      (FitAt(lines, i, cx, minSpace) <==>
        CrossesCenter(lines[i - 1], lines[i], cx)
        || lines[i].dpToPre + (if i >= 2 && !FitAt(lines, i - 1, cx, minSpace) then lines[i - 1].dpToPre else 0.0) >= minSpace)
  {
    forall i | 2 <= i < |lines| ensures TempSpace(lines, i, cx, minSpace) ==
      (if FitAt(lines, i - 1, cx, minSpace) then 0.0 else lines[i - 1].dpToPre)
    {
      TempSpaceAfter(lines, cx, minSpace, i - 1);
    }
  }

  /** The decimation rule in full: the first line is always kept; a later line is
      dropped exactly when its gap plus the carried space stays below the minimum
      and its turning point stays on the same side as the previous one. */
  lemma FitRule(lines: seq<LineData>, cx: real, minSpace: real, i: nat)
    requires i < |lines|
    ensures i == 0 ==> FitPass(lines, cx, minSpace)[i].isFitToRender
    ensures i > 0 ==>
      (!FitPass(lines, cx, minSpace)[i].isFitToRender <==>
        lines[i].dpToPre + TempSpace(lines, i, cx, minSpace) < minSpace && !CrossesCenter(lines[i - 1], lines[i], cx))
  {
  }

  /** The carried space is reset by every kept line after the first, and a dropped
      line REPLACES it with its own gap: gaps of successive dropped lines do not add
      up (the Kotlin statement is `mTempSpace = +lineData.dpToPre`). */
  lemma TempSpaceAfter(lines: seq<LineData>, cx: real, minSpace: real, i: nat)
    requires 1 <= i < |lines|
    ensures FitAt(lines, i, cx, minSpace) ==> TempSpace(lines, i + 1, cx, minSpace) == 0.0
    ensures !FitAt(lines, i, cx, minSpace) ==> TempSpace(lines, i + 1, cx, minSpace) == lines[i].dpToPre
  {
  }

  /** Five lines on one side, turning at heights 0, 10, 20, 30 and 40, each with
      its gap of 10 to the previous one, with a minimum of 34: the fifth line is 40
      below the first, the last kept one, and is still dropped, because the
      carried space holds only the previous gap. */
  lemma GapsDoNotAccumulate()
    ensures var l := LineData(0.0, 0.0, 0.0, 0.0, 0.0, 0.0, 0, 0, 10.0, false);
      var lines := [l.(dpToPre := 0.0), l.(turningY := 10.0), l.(turningY := 20.0), l.(turningY := 30.0), l.(turningY := 40.0)];
      && (forall i :: 1 <= i < 5 ==> lines[i].dpToPre == AbsReal(lines[i].turningY - lines[i - 1].turningY))
      && (forall i :: 1 <= i < 5 ==> !FitPass(lines, 1.0, 34.0)[i].isFitToRender)
      && lines[4].turningY - lines[0].turningY >= 34.0
  {
    var l := LineData(0.0, 0.0, 0.0, 0.0, 0.0, 0.0, 0, 0, 10.0, false);
    var lines := [l.(dpToPre := 0.0), l.(turningY := 10.0), l.(turningY := 20.0), l.(turningY := 30.0), l.(turningY := 40.0)];
    assert TempSpace(lines, 2, 1.0, 34.0) == 10.0;
    assert TempSpace(lines, 3, 1.0, 34.0) == 10.0;
    assert TempSpace(lines, 4, 1.0, 34.0) == 10.0;
  }

  /** The carried space counts a dropped line's gap even when the next line comes
      back towards the last kept one: two kept lines with no crossing between them
      can share a turning height, with a minimum of 34. */
  lemma KeptLinesMayCoincide()
    ensures var l := LineData(0.0, 0.0, 0.0, 0.0, 0.0, 0.0, 0, 0, 0.0, false);
      var lines := [l, l.(turningY := 20.0, dpToPre := 20.0), l.(dpToPre := 20.0)];
      var f := FitPass(lines, 1.0, 34.0);
      && f[0].isFitToRender && !f[1].isFitToRender && f[2].isFitToRender
      && !CrossesCenter(lines[0], lines[1], 1.0) && !CrossesCenter(lines[1], lines[2], 1.0)
      && lines[2].turningY == lines[0].turningY
  {
    var l := LineData(0.0, 0.0, 0.0, 0.0, 0.0, 0.0, 0, 0, 0.0, false);
    var lines := [l, l.(turningY := 20.0, dpToPre := 20.0), l.(dpToPre := 20.0)];
    assert TempSpace(lines, 2, 1.0, 34.0) == 20.0;
  }

  /** `calculateLines`: appends one leader line and one radial divider per span to
      the lists it already holds (they are never cleared), then reruns decimation
      over the whole line list. */
  function CalculateLines(arcs: seq<ArcData>, lines: seq<LineData>, whites: seq<WhiteLineData>,
                          g: Geometry, p: LinePlan, cosSin: real -> (real, real), minSpace: real)
    : (r: (seq<LineData>, seq<WhiteLineData>))
    ensures |r.0| == |lines| + |arcs| && |r.1| == |whites| + |arcs|
    ensures r.1[..|whites|] == whites
    ensures forall i :: 0 <= i < |lines| ==> r.0[i] == lines[i].(isFitToRender := r.0[i].isFitToRender)
    ensures forall i :: 0 <= i < |arcs| ==> PlannedLine(arcs, lines, r.0, i, g, p, true)
    ensures forall i :: 0 <= i < |r.0| ==> r.0[i].isFitToRender == FitAt(r.0, i, g.centerX, minSpace)
    ensures Contiguous(arcs) ==> forall j :: 0 <= j < |arcs| ==> AimedLine(arcs, lines, r.0, whites, r.1, j, g, p, cosSin)
  {
    var planned := PlanFrom(arcs, 0, StartAngle, lines, whites, g, p, cosSin);
    PlanFromLines(arcs, 0, StartAngle, lines, whites, g, p, cosSin, lines);
    assert var out := PlanFrom(arcs, 0, StartAngle, lines, whites, g, p, cosSin).0;
      forall j :: 0 <= j < |arcs| ==> PlannedLine(arcs, lines, out, j, g, p, false);
    assert forall j :: 0 <= j < |arcs| ==> PlannedLine(arcs, lines, planned.0, j, g, p, false);
    var fitted := FitPass(planned.0, g.centerX, minSpace);
    FitPassKeepsPlan(arcs, lines, planned.0, fitted, g, p, minSpace);
    AimsSurviveFitting(arcs, lines, whites, planned, fitted, g, p, cosSin, minSpace);
    (fitted, planned.1)
  }

  /** The lines planned for spans laid out by `setData` stay aimed at their spans
      through the decimation pass. */
  lemma AimsSurviveFitting(arcs: seq<ArcData>, lines: seq<LineData>, whites: seq<WhiteLineData>,
                           planned: (seq<LineData>, seq<WhiteLineData>), fitted: seq<LineData>,
                           g: Geometry, p: LinePlan, cosSin: real -> (real, real), minSpace: real)
    requires planned == PlanFrom(arcs, 0, StartAngle, lines, whites, g, p, cosSin)
    requires fitted == FitPass(planned.0, g.centerX, minSpace)
    ensures Contiguous(arcs) ==> forall j :: 0 <= j < |arcs| ==> AimedLine(arcs, lines, fitted, whites, planned.1, j, g, p, cosSin)
  {
    if Contiguous(arcs) {
      PlanFromAims(arcs, 0, StartAngle, lines, whites, g, p, cosSin, lines, whites);
      assert forall j :: 0 <= j < |arcs| ==> AimedLine(arcs, lines, planned.0, whites, planned.1, j, g, p, cosSin);
      forall j | 0 <= j < |arcs| ensures AimedLine(arcs, lines, fitted, whites, planned.1, j, g, p, cosSin) {
        assert AimedLine(arcs, lines, planned.0, whites, planned.1, j, g, p, cosSin);
        assert fitted[|lines| + j] == planned.0[|lines| + j].(isFitToRender := fitted[|lines| + j].isFitToRender);
      }
    }
  }

  lemma FitPassKeepsPlan(arcs: seq<ArcData>, lines: seq<LineData>, planned: seq<LineData>, fitted: seq<LineData>,
                         g: Geometry, p: LinePlan, minSpace: real)
    requires |planned| == |lines| + |arcs| && planned[..|lines|] == lines
    requires forall j :: 0 <= j < |arcs| ==> PlannedLine(arcs, lines, planned, j, g, p, false)
    requires fitted == FitPass(planned, g.centerX, minSpace)
    ensures forall i :: 0 <= i < |lines| ==> fitted[i] == lines[i].(isFitToRender := fitted[i].isFitToRender)
    ensures forall i :: 0 <= i < |arcs| ==> PlannedLine(arcs, lines, fitted, i, g, p, true)
    ensures forall i :: 0 <= i < |fitted| ==> fitted[i].isFitToRender == FitAt(fitted, i, g.centerX, minSpace)
  {
    forall i | 0 <= i < |lines| ensures fitted[i] == lines[i].(isFitToRender := fitted[i].isFitToRender) {
      assert planned[i] == lines[i];
    }
    forall i | 0 <= i < |arcs| ensures PlannedLine(arcs, lines, fitted, i, g, p, true) {
      assert PlannedLine(arcs, lines, planned, i, g, p, false);
      assert i > 0 ==> fitted[i - 1].turningY == planned[i - 1].turningY;
    }
    CalculateLinesFit(planned, g.centerX, minSpace);
  }

  /** Decimation only looks at fields it does not rewrite, so its verdicts are the
      same when computed on its own output. */
  lemma CalculateLinesFit(lines: seq<LineData>, cx: real, minSpace: real)
    ensures forall i :: 0 <= i < |lines| ==> FitAt(FitPass(lines, cx, minSpace), i, cx, minSpace) == FitAt(lines, i, cx, minSpace)
  {
    var r := FitPass(lines, cx, minSpace);
    forall i | 0 <= i <= |lines| ensures TempSpace(r, i, cx, minSpace) == TempSpace(lines, i, cx, minSpace) {
      TempSpaceIgnoresVerdicts(lines, r, cx, minSpace, i);
    }
  }

  lemma {:induction false} TempSpaceIgnoresVerdicts(a: seq<LineData>, b: seq<LineData>, cx: real, minSpace: real, i: nat)
    requires |a| == |b| && i <= |a|
    requires forall k :: 0 <= k < |a| ==> b[k] == a[k].(isFitToRender := b[k].isFitToRender)
    ensures TempSpace(a, i, cx, minSpace) == TempSpace(b, i, cx, minSpace)
  {
    if i > 1 {
      TempSpaceIgnoresVerdicts(a, b, cx, minSpace, i - 1);
    }
  }

  // ---------------------------------------------------------------------------
  // Text
  // ---------------------------------------------------------------------------

  /** Every character has a non-negative advance width. */
  ghost predicate NonNegative(advance: char -> real) {
    forall c :: advance(c) >= 0.0
  }

  /** `measureText`: the sum of the character widths. */
  function Width(advance: char -> real, s: string): real {
    if |s| == 0 then 0.0 else Width(advance, s[..|s| - 1]) + advance(s[|s| - 1])
  }

  lemma {:induction false} WidthPrefixMonotone(advance: char -> real, s: string, i: nat, j: nat)
    requires NonNegative(advance)
    requires i <= j <= |s|
    ensures Width(advance, s[..i]) <= Width(advance, s[..j])
    decreases j - i
  {
    if i < j {
      WidthPrefixMonotone(advance, s, i, j - 1);
      assert s[..j][..j - 1] == s[..j - 1];
    }
  }

  /** The greedy scan of `breakText` from position `k`, with `acc` the width of
      `s[..k]`. */
  function BreakFrom(advance: char -> real, s: string, avail: real, k: nat, acc: real): (n: nat)
    requires k <= |s|
    requires acc == Width(advance, s[..k])
    requires k == 0 || acc <= avail
    ensures k <= n <= |s|
    ensures n > 0 ==> Width(advance, s[..n]) <= avail
    ensures n < |s| ==> Width(advance, s[..n + 1]) > avail
    decreases |s| - k
  {
    assert s[..k + (if k < |s| then 1 else 0)][..k] == s[..k];
    if k == |s| || acc + advance(s[k]) > avail then k
    else BreakFrom(advance, s, avail, k + 1, acc + advance(s[k]))
  }

  /** `breakText(text, 0, length, true, avail, null)`: the number of leading
      characters that fit in `avail`. */
  function BreakText(advance: char -> real, s: string, avail: real): (n: nat)
    ensures n <= |s|
    ensures n > 0 ==> Width(advance, s[..n]) <= avail
    ensures n < |s| ==> Width(advance, s[..n + 1]) > avail
  {
    BreakFrom(advance, s, avail, 0, 0.0)
  }

  /** `adjustText`: a text that fits is returned as it is; otherwise it is cut to
      one character less than `breakText` counts and `"..."` is appended. When not
      even one character fits, `substring(0, -1)` throws. */
  function AdjustText(advance: char -> real, text: string, avail: real): (r: Result<string>)
    requires NonNegative(advance)
    ensures Width(advance, text) <= avail ==> r == Ok(text)
    ensures r.Fail? <==> avail < Width(advance, text) && (|text| == 0 || avail < advance(text[0]))
    ensures avail < Width(advance, text) && r.Ok? ==>
      exists keep: nat :: keep + 2 <= |text| && r.value == text[..keep] + "..."
        && Width(advance, text[..keep + 1]) <= avail
        && Width(advance, text[..keep + 2]) > avail
  {
    if avail < Width(advance, text) then
      var n := BreakText(advance, text, avail);
      assert n == 0 || n < |text| by {
        if n == |text| {
          assert text[..n] == text;
        }
      }
      assert n == 0 <==> |text| == 0 || avail < advance(text[0]) by {
        if |text| > 0 {
          assert text[..1][..0] == [];
        }
        if n > 0 {
          WidthPrefixMonotone(advance, text, 1, n);
        }
      }
      if n == 0 then Fail(IndexOutOfBounds)
      else
        assert Width(advance, text[..(n - 1) + 1]) <= avail;
        Ok(text[..n - 1] + "...")
    else Ok(text)
  }

  /** Every character one unit wide. */
  function UnitAdvance(c: char): real {
    1.0
  }

  /** A truncated label can be wider than the space it was cut for: the three dots
      are not measured. With unit widths, "abcd" in a space of 2 becomes "a...". */
  lemma TruncatedLabelMayOverflow()
    ensures AdjustText(UnitAdvance, "abcd", 2.0) == Ok("a...")
    ensures Width(UnitAdvance, "a...") > 2.0
  {
    var t := "abcd";
    assert t[..0] == "" && t[..1] == "a" && t[..2] == "ab" && t[..3] == "abc" && t[..4] == t;
    assert "ab"[..1] == "a" && "abc"[..2] == "ab" && "a"[..0] == "";
    assert Width(UnitAdvance, "a") == 1.0;
    assert Width(UnitAdvance, "ab") == 2.0;
    assert Width(UnitAdvance, "abc") == 3.0;
    assert Width(UnitAdvance, t) == 4.0;
    assert BreakFrom(UnitAdvance, t, 2.0, 2, 2.0) == 2;
    assert BreakFrom(UnitAdvance, t, 2.0, 1, 1.0) == 2;
    assert BreakText(UnitAdvance, t, 2.0) == 2;
    assert t[..1] + "..." == "a...";
    assert "a..."[..3] == "a.." && "a.."[..2] == "a." && "a."[..1] == "a";
  }

  /** `abs((bounds.top + bounds.bottom) / 2)` with Kotlin integer division. */
  function BaselineOffset(top: int, bottom: int): (b: nat)
    ensures 2 * b <= Abs(top + bottom) < 2 * b + 2
  {
    Abs(TruncDiv(top + bottom, 2))
  }

  /** Label alignment and the baselines of its two lines, from where the label's
      anchor `(x, y)` lies. */
  datatype Placement = Placement(align: Align, y1: real, y2: real)

  function PlaceText(x: real, y: real, cx: real, cy: real, textMinHeight: real, baseline: nat): (p: Placement)
    ensures p.align == AlignLeft <==> x < cx
    ensures p.align == AlignRight <==> x > cx
    ensures p.align == AlignCenter <==> x == cx
    ensures x != cx ==> p.y1 == y - textMinHeight / 2.0 + baseline as real && p.y2 - p.y1 == textMinHeight
    ensures x == cx && y < cy ==> p.y1 == y - textMinHeight / 2.0 + baseline as real && p.y2 == y - textMinHeight
    ensures x == cx && y >= cy ==> p.y1 - y == textMinHeight + baseline as real && p.y2 - p.y1 == baseline as real
  {
    match Locate(x, y, cx, cy)
    case Left => Placement(AlignLeft, y - textMinHeight / 2.0 + baseline as real, y + textMinHeight / 2.0 + baseline as real)
    case Right => Placement(AlignRight, y - textMinHeight / 2.0 + baseline as real, y + textMinHeight / 2.0 + baseline as real)
    case MiddleTop => Placement(AlignCenter, y - textMinHeight / 2.0 + baseline as real, y - textMinHeight)
    case MiddleBottom => Placement(AlignCenter, y + textMinHeight + baseline as real, y + textMinHeight + 2.0 * baseline as real)
  }

  /** Labels sit at the end points of leader lines, and those lie on a screen edge:
      as long as the margin keeps both edges off the centre line, no label is ever
      centred, and a line turning on the centre line is labelled at the left edge. */
  lemma LabelsAreNeverCentered(tx: real, ty: real, g: Geometry, p: LinePlan, textMinHeight: real, baseline: nat)
    requires p.marginEdge < g.centerX < p.measuredWidth as real - p.marginEdge
    ensures var e := EndPoint(tx, ty, g, p);
      PlaceText(e.0, e.1, g.centerX, g.centerY, textMinHeight, baseline).align ==
        (if tx <= g.centerX then AlignLeft else AlignRight)
  {
  }

  /** `(progress * 255 / 100).toInt()`: a progress in [0, 100] gives an alpha in [0, 255]. */
  function AlphaOf(progress: real): (a: int)
    ensures 0.0 <= progress ==> 0 <= a
    ensures progress <= MaxProgress ==> a <= 255
    ensures 0.0 <= progress ==> a as real <= progress * MaxAlpha / MaxProgress < a as real + 1.0
  {
    Trunc(progress * MaxAlpha / MaxProgress)
  }
}
