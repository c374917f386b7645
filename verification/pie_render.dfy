/** The incremental renderer: the state `PieRender` keeps between frames (data
    lists, the three caches, the drawing index and progress) and one frame of
    drawing, described as the list of canvas operations it issues.

    Each `render*` step of the Kotlin class is a function from the old state to a
    new state and the operations drawn; a step that would throw returns `Fail`.
 */
module PieRender {
  import opened Outcomes
  import opened Sources
  import opened LinkedMap
  import opened PieLayout

  /** The sizes the renderer reads from dp constants. */
  datatype Dims = Dims(textMinHeight: real, outerCircleMargin: real, strokeCapOvalRadius: real, minSpaceBetweenTwoLines: real)

  /** The two fixed label colours (`colorDuration`, `colorClassification`). */
  datatype Palette = Palette(duration: int, classification: int)

  /** Text measurement of the label paint: per-character advance and `getTextBounds`
      (top and bottom of a string's bounding box). */
  datatype TextPaint = TextPaint(advance: char -> real, bounds: string -> (int, int))

  /** One canvas call. */
  datatype DrawOp =
    | DrawArc(rect: RectF, startAngle: real, sweepAngle: real, color: int)
    | DrawLinePath(startX: real, startY: real, turningX: real, turningY: real, endX: real, endY: real, color: int, alpha: int)
    | DrawDot(x: real, y: real, radius: real, color: int, alpha: int)
    | DrawText(text: string, x: real, y: real, align: Align, color: int, alpha: int)
    | DrawCenterOval(rect: RectF)
    | DrawDivider(x0: real, y0: real, x1: real, y1: real)

  datatype RenderState = RenderState(
    geometry: Geometry,
    arcs: seq<ArcData>,
    lines: seq<LineData>,
    whites: seq<WhiteLineData>,
    arcCache: seq<ArcCache>,
    lineCache: LinkedMap<LineData>,
    textCache: LinkedMap<TextCache>,
    drawingIndex: int,
    drawingProgress: real,
    switchToNext: bool)
  {
    /** The caches are well-formed insertion-ordered maps. */
    ghost predicate Valid() {
      lineCache.Valid() && textCache.Valid()
    }
  }

  /** A fresh `PieRender`: no data, empty caches, index 0, progress 0. */
  function Init(g: Geometry): (s: RenderState)
    ensures s.Valid()
    ensures |s.arcs| == 0 && |s.lines| == 0 && |s.whites| == 0 && |s.arcCache| == 0
    ensures |s.lineCache.entries| == 0 && |s.textCache.entries| == 0
    ensures s.drawingIndex == 0 && s.drawingProgress == 0.0 && !s.switchToNext
  {
    RenderState(g, [], [], [], [], Empty(), Empty(), 0, 0.0, false)
  }

  // ---------------------------------------------------------------------------
  // Data and setters
  // ---------------------------------------------------------------------------

  /** `setData`: replaces the spans; the lines, dividers and caches stay as they are. */
  function SetSpans(s: RenderState, data: seq<PieViewData>, resolveColor: int -> int): (r: RenderState)
    ensures r.arcs == PieLayout.SetData(data, resolveColor)
    ensures r == s.(arcs := r.arcs)
  {
    s.(arcs := PieLayout.SetData(data, resolveColor))
  }

  /** The `mDrawingIndex` setter raises the switch flag exactly when the index changes. */
  function SetDrawingIndex(s: RenderState, value: int): (r: RenderState)
    ensures r.drawingIndex == value
    ensures r.switchToNext <==> s.drawingIndex != value
    ensures r == s.(drawingIndex := value, switchToNext := r.switchToNext)
  {
    s.(switchToNext := s.drawingIndex != value, drawingIndex := value)
  }

  /** The `mDrawingProgress` setter stores 0 instead of the value while the switch
      flag is up. */
  function SetDrawingProgress(s: RenderState, value: real): (r: RenderState)
    ensures s.switchToNext ==> r.drawingProgress == 0.0
    ensures !s.switchToNext ==> r.drawingProgress == value
    ensures r == s.(drawingProgress := r.drawingProgress)
  {
    s.(drawingProgress := if s.switchToNext then 0.0 else value)
  }

  /** `fixAngle`: stretches the newest arc cache entry so that it ends at `value`;
      no-op on an empty cache. */
  function FixAngle(cache: seq<ArcCache>, value: real): (r: seq<ArcCache>)
    ensures |cache| == 0 ==> r == cache
    ensures |r| == |cache|
    ensures |cache| > 0 ==> r[..|r| - 1] == cache[..|cache| - 1]
    ensures |cache| > 0 ==>
      var last := r[|r| - 1];
      && last.startAngle + last.swipeAngle == value
      && last == cache[|cache| - 1].(swipeAngle := last.swipeAngle)
  {
    if |cache| == 0 then cache
    else
      var it := cache[|cache| - 1];
      cache[|cache| - 1 := it.(swipeAngle := it.swipeAngle + (value - it.swipeAngle - it.startAngle))]
  }

  /** `isReadyToRender`: there is at least one span. */
  predicate IsReadyToRender(s: RenderState) {
    |s.arcs| > 0
  }

  /** `isPrepared`: there is at least one span and at least one leader line. */
  predicate IsPrepared(s: RenderState) {
    |s.arcs| > 0 && |s.lines| > 0
  }

  /** Whatever the renderer held before, it is ready after `setData` exactly when
      the data has an item, and prepared after the following layout pass exactly
      then too. */
  lemma ReadyExactlyWithData(s: RenderState, data: seq<PieViewData>, resolveColor: int -> int,
                             p: LinePlan, dims: Dims, cosSin: real -> (real, real))
    ensures var r := SetSpans(s, data, resolveColor);
      && (IsReadyToRender(r) <==> |data| > 0)
      && (IsPrepared(CalculateLines(r, p, dims, cosSin)) <==> |data| > 0)
  {
  }

  /** `calculateLines` on the renderer's lists. */
  function CalculateLines(s: RenderState, p: LinePlan, dims: Dims, cosSin: real -> (real, real)): (r: RenderState)
    ensures |r.lines| == |s.lines| + |s.arcs| && |r.whites| == |s.whites| + |s.arcs|
    ensures r == s.(lines := r.lines, whites := r.whites)
    ensures Contiguous(s.arcs) ==> forall j :: 0 <= j < |s.arcs| ==>
      AimedLine(s.arcs, s.lines, r.lines, s.whites, r.whites, j, s.geometry,
                LinePlan(dims.outerCircleMargin, p.lineLength, p.marginEdge, p.measuredWidth), cosSin)
  {
    var plan := LinePlan(dims.outerCircleMargin, p.lineLength, p.marginEdge, p.measuredWidth);
    var res := PieLayout.CalculateLines(s.arcs, s.lines, s.whites, s.geometry, plan, cosSin, dims.minSpaceBetweenTwoLines);
    s.(lines := res.0, whites := res.1)
  }

  /** `release`: empties the three caches and touches nothing else. */
  function Release(s: RenderState): (r: RenderState)
    ensures r.Valid()
    ensures |r.arcCache| == 0 && |r.lineCache.order| == 0 && |r.lineCache.entries| == 0
    ensures |r.textCache.order| == 0 && |r.textCache.entries| == 0
    ensures r.arcs == s.arcs && r.lines == s.lines && r.whites == s.whites && r.geometry == s.geometry
    ensures r.drawingIndex == s.drawingIndex && r.drawingProgress == s.drawingProgress && r.switchToNext == s.switchToNext
  {
    s.(arcCache := [], lineCache := Empty(), textCache := Empty())
  }

  // ---------------------------------------------------------------------------
  // Replaying caches
  // ---------------------------------------------------------------------------

  /** `drawArcCache`: one wedge per recorded entry, oldest first. */
  function ReplayArcs(cache: seq<ArcCache>): seq<DrawOp> {
    seq(|cache|, i requires 0 <= i < |cache| => DrawArc(cache[i].rectF, cache[i].startAngle, cache[i].swipeAngle, cache[i].color))
  }

  /** A wedge drawn in one frame is drawn again, unchanged and in the same order,
      in the next: the next frame's replay of the arc cache is exactly this
      frame's wedge operations. */
  lemma ArcFrameReplaysNext(s: RenderState, startAngle: real, drawingAngle: real)
    requires IsPrepared(s) && RenderArc(s, startAngle, drawingAngle).Ok?
    ensures var r := RenderArc(s, startAngle, drawingAngle).value;
      ReplayArcs(r.0.arcCache) == r.1
  {
    var r := RenderArc(s, startAngle, drawingAngle).value;
    assert |ReplayArcs(r.0.arcCache)| == |r.1|;
    forall i | 0 <= i < |r.1| ensures ReplayArcs(r.0.arcCache)[i] == r.1[i] {
      if i < |s.arcCache| {
        assert r.0.arcCache[i] == s.arcCache[i];
      }
    }
  }

  /** `drawLineCache`: per cached line, the three-point path and then the dot at its
      start, both in the line's colour and alpha. */
  function ReplayLines(lines: seq<LineData>, capRadius: real): (ops: seq<DrawOp>)
    ensures |ops| == 2 * |lines|
    ensures forall i :: 0 <= i < |lines| ==>
      && ops[2 * i] == DrawLinePath(lines[i].startX, lines[i].startY, lines[i].turningX, lines[i].turningY,
                                    lines[i].endX, lines[i].endY, lines[i].color, lines[i].alpha)
      && ops[2 * i + 1] == DrawDot(lines[i].startX, lines[i].startY, capRadius, lines[i].color, lines[i].alpha)
  {
    if |lines| == 0 then []
    else
      var rest := ReplayLines(lines[1..], capRadius);
      var l := lines[0];
      [DrawLinePath(l.startX, l.startY, l.turningX, l.turningY, l.endX, l.endY, l.color, l.alpha), DrawDot(l.startX, l.startY, capRadius, l.color, l.alpha)] + rest
  }

  /** `drawTextCache`: per cached label, its two lines with their own colours and
      the one alpha the label recorded. */
  function ReplayTexts(texts: seq<TextCache>): (ops: seq<DrawOp>)
    ensures |ops| == 2 * |texts|
    ensures forall i :: 0 <= i < |texts| ==>
      var t := texts[i];
      && ops[2 * i] == DrawText(t.text1, t.x1, t.y1, t.textAlign, t.color1, t.alpha)
      && ops[2 * i + 1] == DrawText(t.text2, t.x2, t.y2, t.textAlign, t.color2, t.alpha)
  {
    if |texts| == 0 then []
    else
      var rest := ReplayTexts(texts[1..]);
      var t := texts[0];
      [DrawText(t.text1, t.x1, t.y1, t.textAlign, t.color1, t.alpha),
       DrawText(t.text2, t.x2, t.y2, t.textAlign, t.color2, t.alpha)] + rest
  }

  // ---------------------------------------------------------------------------
  // One frame
  // ---------------------------------------------------------------------------

  /** The square the ring is drawn in. */
  function PieRect(g: Geometry): RectF {
    RectF(g.centerX - g.radius, g.centerY - g.radius, g.centerX + g.radius, g.centerY + g.radius)
  }

  /** `renderArc`: replays the recorded wedges, draws the active wedge from
      `startAngle` over `drawingAngle` degrees in the active span's colour, and
      records it. Does nothing unless the renderer is prepared. */
  function RenderArc(s: RenderState, startAngle: real, drawingAngle: real): (r: Result<(RenderState, seq<DrawOp>)>)
    ensures !IsPrepared(s) ==> r == Ok((s, []))
    ensures IsPrepared(s) ==> (r.Fail? <==> !(0 <= s.drawingIndex < |s.arcs|))
    ensures r.Ok? && IsPrepared(s) ==>
      var entry := ArcCache(PieRect(s.geometry), startAngle, drawingAngle, s.arcs[s.drawingIndex].color);
      && r.value.0 == s.(arcCache := s.arcCache + [entry])
      && r.value.1 == ReplayArcs(s.arcCache) + [DrawArc(entry.rectF, startAngle, drawingAngle, entry.color)]
  {
    if !IsPrepared(s) then Ok((s, []))
    else if !(0 <= s.drawingIndex < |s.arcs|) then Fail(IndexOutOfBounds)
    else
      var rect := PieRect(s.geometry);
      var color := s.arcs[s.drawingIndex].color;
      Ok((s.(arcCache := s.arcCache + [ArcCache(rect, startAngle, drawingAngle, color)]),
          ReplayArcs(s.arcCache) + [DrawArc(rect, startAngle, drawingAngle, color)]))
  }

  /** The label of the active span, as `renderText` computes it: the two texts
      cut to the available width, placed by where the anchor `(x, y)` lies, with
      the baseline offset of the first text's bounds. */
  function ActiveLabel(s: RenderState, x: real, y: real, avail: real, paint: TextPaint, dims: Dims, palette: Palette)
    : (r: Result<TextCache>)
    requires NonNegative(paint.advance)
    ensures !(0 <= s.drawingIndex < |s.arcs|) ==> r == Fail(IndexOutOfBounds)
    ensures 0 <= s.drawingIndex < |s.arcs| ==>
      (r.Fail? <==> AdjustText(paint.advance, s.arcs[s.drawingIndex].textAbove, avail).Fail?
                    || AdjustText(paint.advance, s.arcs[s.drawingIndex].textBelow, avail).Fail?)
    ensures r.Ok? ==>
      var b := paint.bounds(r.value.text1);
      var p := PlaceText(x, y, s.geometry.centerX, s.geometry.centerY, dims.textMinHeight, BaselineOffset(b.0, b.1));
      r.value.textAlign == p.align && r.value.y1 == p.y1 && r.value.y2 == p.y2
    ensures r.Ok? ==>
      && r.value.alpha == AlphaOf(s.drawingProgress)
      && r.value.color1 == palette.duration && r.value.color2 == palette.classification
      && r.value.x1 == x && r.value.x2 == x
      && Ok(r.value.text1) == AdjustText(paint.advance, s.arcs[s.drawingIndex].textAbove, avail)
      && Ok(r.value.text2) == AdjustText(paint.advance, s.arcs[s.drawingIndex].textBelow, avail)
  {
    if !(0 <= s.drawingIndex < |s.arcs|) then Fail(IndexOutOfBounds)
    else
      var data := s.arcs[s.drawingIndex];
      var text1 :- AdjustText(paint.advance, data.textAbove, avail);
      var text2 :- AdjustText(paint.advance, data.textBelow, avail);
      var b := paint.bounds(text1);
      var place := PlaceText(x, y, s.geometry.centerX, s.geometry.centerY, dims.textMinHeight, BaselineOffset(b.0, b.1));
      Ok(TextCache(text1, text2, x, place.y1, x, place.y2, place.align, palette.duration, palette.classification,
                   AlphaOf(s.drawingProgress)))
  }

  /** The label `renderLine` has `renderText` compute for the active line: anchored
      at the line's end, with the horizontal extent of the line as the space. */
  function LineLabel(s: RenderState, paint: TextPaint, dims: Dims, palette: Palette): Result<TextCache>
    requires NonNegative(paint.advance)
    requires 0 <= s.drawingIndex < |s.lines|
  {
    var line := s.lines[s.drawingIndex];
    ActiveLabel(s, line.endX, line.endY, AbsReal(line.startX - line.endX), paint, dims, palette)
  }

  /** `renderLine` (with the `renderText` it calls): replays the recorded leader
      lines and labels; if the active line passed decimation, records it with the
      current alpha and records its label, both under the drawing index. The
      active line and label are not drawn in this frame: they appear from the
      caches from the next frame on. Does nothing unless the renderer is prepared. */
  function RenderLine(s: RenderState, paint: TextPaint, dims: Dims, palette: Palette): (r: Result<(RenderState, seq<DrawOp>)>)
    requires s.Valid()
    requires NonNegative(paint.advance)
    ensures !IsPrepared(s) ==> r == Ok((s, []))
    ensures IsPrepared(s) && !(0 <= s.drawingIndex < |s.lines|) ==> r == Fail(IndexOutOfBounds)
    ensures IsPrepared(s) && 0 <= s.drawingIndex < |s.lines| ==> (r.Fail? <==> LineLabel(s, paint, dims, palette).Fail?)
    ensures r.Ok? ==> r.value.0.Valid()
    ensures r.Ok? ==> r.value.0 == s.(lines := r.value.0.lines, lineCache := r.value.0.lineCache, textCache := r.value.0.textCache)
    ensures r.Ok? && IsPrepared(s) ==>
      && r.value.1 == ReplayLines(s.lineCache.Values(), dims.strokeCapOvalRadius) + ReplayTexts(s.textCache.Values())
      && var line := s.lines[s.drawingIndex];
      if line.isFitToRender then
        var cached := line.(alpha := AlphaOf(s.drawingProgress));
        && r.value.0.lineCache == s.lineCache.Put(s.drawingIndex, cached)
        && r.value.0.lines == s.lines[s.drawingIndex := cached]
        && r.value.0.textCache == s.textCache.Put(s.drawingIndex, LineLabel(s, paint, dims, palette).value)
        && s.drawingIndex in r.value.0.textCache.entries
        && r.value.0.textCache.entries[s.drawingIndex].alpha == AlphaOf(s.drawingProgress)
        && (forall k :: k != s.drawingIndex ==> (k in r.value.0.textCache.entries <==> k in s.textCache.entries))
        && (forall k :: k != s.drawingIndex && k in s.textCache.entries ==> r.value.0.textCache.entries[k] == s.textCache.entries[k])
      else
        && r.value.0.lineCache == s.lineCache
        && r.value.0.lines == s.lines
        && r.value.0.textCache == s.textCache
  {
    if !IsPrepared(s) then Ok((s, []))
    else if !(0 <= s.drawingIndex < |s.lines|) then Fail(IndexOutOfBounds)
    else
      var lineOps := ReplayLines(s.lineCache.Values(), dims.strokeCapOvalRadius);
      var line := s.lines[s.drawingIndex];
      var fit := line.isFitToRender;
      var line' := if fit then line.(alpha := AlphaOf(s.drawingProgress)) else line;
      var s1 := if fit then s.(lines := s.lines[s.drawingIndex := line'], lineCache := s.lineCache.Put(s.drawingIndex, line')) else s;
      var textOps := ReplayTexts(s.textCache.Values());
      var block :- LineLabel(s, paint, dims, palette);
      var s2 := if fit then s1.(textCache := s1.textCache.Put(s.drawingIndex, block)) else s1;
      Ok((s2, lineOps + textOps))
  }

  /** `renderStatic`: the inner disc that makes the ring, then every radial divider. */
  function RenderStatic(s: RenderState): seq<DrawOp> {
    var g := s.geometry;
    [DrawCenterOval(RectF(g.centerX - g.centerOvalRadius, g.centerY - g.centerOvalRadius, g.centerX + g.centerOvalRadius, g.centerY + g.centerOvalRadius))]
    + seq(|s.whites|, i requires 0 <= i < |s.whites| => DrawDivider(g.centerX, g.centerY, s.whites[i].endX, s.whites[i].endY))
  }

  /** After a layout pass over spans built by `setData`, the dividers the pass
      appended are drawn, in span order, along each span's start angle. */
  lemma DividersAtSpanStarts(s: RenderState, p: LinePlan, dims: Dims, cosSin: real -> (real, real))
    requires Contiguous(s.arcs)
    ensures var ops := RenderStatic(CalculateLines(s, p, dims, cosSin));
      forall j :: 0 <= j < |s.arcs| ==>
        var w := WhiteLine(s.arcs[j].startAngle, s.geometry, cosSin);
        ops[1 + |s.whites| + j] == DrawDivider(s.geometry.centerX, s.geometry.centerY, w.endX, w.endY)
  {
    var r := CalculateLines(s, p, dims, cosSin);
    var plan := LinePlan(dims.outerCircleMargin, p.lineLength, p.marginEdge, p.measuredWidth);
    forall j | 0 <= j < |s.arcs|
      ensures RenderStatic(r)[1 + |s.whites| + j] ==
        DrawDivider(s.geometry.centerX, s.geometry.centerY, WhiteLine(s.arcs[j].startAngle, s.geometry, cosSin).endX,
                    WhiteLine(s.arcs[j].startAngle, s.geometry, cosSin).endY)
    {
      assert AimedLine(s.arcs, s.lines, r.lines, s.whites, r.whites, j, s.geometry, plan, cosSin);
      DividerOp(r, |s.whites| + j);
    }
  }

  /** The frame draws divider `i` after the disc, at its stored end. */
  lemma DividerOp(s: RenderState, i: nat)
    requires i < |s.whites|
    ensures |RenderStatic(s)| == 1 + |s.whites|
    ensures RenderStatic(s)[1 + i] == DrawDivider(s.geometry.centerX, s.geometry.centerY, s.whites[i].endX, s.whites[i].endY)
  {
  }

  /** `startRendering`: arcs, then lines and labels, then the static decorations. */
  function StartRendering(s: RenderState, startAngle: real, drawingAngle: real, paint: TextPaint, dims: Dims, palette: Palette)
    : (r: Result<(RenderState, seq<DrawOp>)>)
    requires s.Valid()
    requires NonNegative(paint.advance)
    ensures r.Ok? ==> r.value.0.Valid()
    ensures !IsPrepared(s) ==> r == Ok((s, RenderStatic(s)))
    ensures r.Ok? && IsPrepared(s) ==> |r.value.0.arcCache| == |s.arcCache| + 1
  {
    var arc :- RenderArc(s, startAngle, drawingAngle);
    var line :- RenderLine(arc.0, paint, dims, palette);
    assert !IsPrepared(s) ==> arc.1 + line.1 == [] && line.0 == s && arc.1 + line.1 + RenderStatic(line.0) == RenderStatic(s);
    Ok((line.0, arc.1 + line.1 + RenderStatic(line.0)))
  }

  /** A prepared frame right after `release` draws nothing from before the release:
      the only wedge is the active one, and no cached line or label is replayed. */
  lemma FrameAfterReleaseReplaysNoCache(s: RenderState, startAngle: real, drawingAngle: real,
                                              paint: TextPaint, dims: Dims, palette: Palette)
    requires NonNegative(paint.advance)
    requires IsPrepared(s)
    requires StartRendering(Release(s), startAngle, drawingAngle, paint, dims, palette).Ok?
    ensures var ops := StartRendering(Release(s), startAngle, drawingAngle, paint, dims, palette).value.1;
      && |ops| == 2 + |s.whites|
      && ops[0] == DrawArc(PieRect(s.geometry), startAngle, drawingAngle, s.arcs[s.drawingIndex].color)
      && forall i :: 1 <= i < |ops| ==> !ops[i].DrawArc? && !ops[i].DrawLinePath? && !ops[i].DrawText?
  {
    var s0 := Release(s);
    var a := RenderArc(s0, startAngle, drawingAngle);
    var s1 := a.value.0;
    assert a.value.1 == [DrawArc(PieRect(s.geometry), startAngle, drawingAngle, s.arcs[s.drawingIndex].color)];
    var l := RenderLine(s1, paint, dims, palette);
    assert s1.lineCache.Values() == [] && s1.textCache.Values() == [];
    assert l.value.1 == [];
    var ops := StartRendering(s0, startAngle, drawingAngle, paint, dims, palette).value.1;
    assert ops == a.value.1 + l.value.1 + RenderStatic(l.value.0);
    assert l.value.0.whites == s.whites;
  }
}
