/** The host widget `PieView`: the driving-angle setter that maps an animation
    angle to the drawing index, start angle and progress; measurement and size
    change; and the animator guard with its pause/resume bookkeeping.

    The animator is a record of its configuration and its current play time; the
    clock that advances it is outside the model.
 */
module PieView {
  import opened Outcomes
  import opened Sources
  import opened LinkedMap
  import opened PieLayout
  import opened PieRender

  /** The angle the animator ends at: one full turn after the start. */
  const EndAngle: real := StartAngle + 360.0

  /** An `ObjectAnimator` on `mDrawingAngle`. */
  datatype Animator = Animator(from: real, to: real, startDelay: int, duration: int, playTime: int, running: bool)

  datatype ViewState = ViewState(
    render: RenderState,
    drawingAngle: real,
    startAngle: real,
    width: int,
    height: int,
    animator: Option<Animator>,
    tempPlayTime: int)
  {
    /** The spans came from `setData` and the caches are well-formed. */
    ghost predicate Valid() {
      render.Valid() && Contiguous(render.arcs)
    }
  }

  // ---------------------------------------------------------------------------
  // The angle setters
  // ---------------------------------------------------------------------------

  /** The `mStartAngle` setter: a new value first stretches the newest cached wedge
      to it, then is stored; an equal value changes nothing. */
  function SetStartAngle(v: ViewState, value: real): (r: ViewState)
    ensures value == v.startAngle ==> r == v
    ensures r.startAngle == value
    ensures value != v.startAngle ==> r == v.(startAngle := value, render := v.render.(arcCache := FixAngle(v.render.arcCache, value)))
  {
    if value != v.startAngle then
      v.(render := v.render.(arcCache := FixAngle(v.render.arcCache, value)), startAngle := value)
    else v
  }

  /** The `mDrawingAngle` setter. When a span holds the angle: the start angle
      becomes -90 for span 0 and otherwise the end of the span before it, then the
      drawing index is set, then the progress `(angle - start) / sweep * 100`
      (stored as 0 when the index has just changed). In every case the stored
      angle is the angle swept since the start angle. */
  function SetDrawingAngle(v: ViewState, value: real): (r: Result<ViewState>)
    requires Contiguous(v.render.arcs)
    ensures CurrentArcData(v.render.arcs, value).None? ==> r == Ok(v.(drawingAngle := value - v.startAngle))
    ensures r.Ok? ==> r.value.drawingAngle == value - r.value.startAngle
  {
    match CurrentArcData(v.render.arcs, value)
    case None => Ok(v.(drawingAngle := value - v.startAngle))
    case Some(it) =>
      var index := IndexOf(v.render.arcs, it);
      var start :- SpanStart(v.render.arcs, index);
      Ok(EnterSpan(v, value, it, index, start))
  }

  /** The start angle the setter derives for the span at `index`: -90 for the
      first span, otherwise `preArcData(index)?.endAngle ?: 0`. */
  function SpanStart(arcs: seq<ArcData>, index: int): (r: Result<real>)
    ensures Contiguous(arcs) && 0 <= index < |arcs| ==> r == Ok(arcs[index].startAngle)
  {
    if index == 0 then Ok(StartAngle)
    else
      var pre :- PreArcData(arcs, index);
      Ok(if pre.Some? then pre.value.endAngle else 0.0)
  }

  /** The setter's updates once the span `it` at `index` and its start angle are
      known: start angle first, then index, then progress, then the swept angle. */
  function EnterSpan(v: ViewState, value: real, it: ArcData, index: int, start: real): (r: ViewState)
    requires it.swipeAngle != 0.0
    ensures r.startAngle == start && r.drawingAngle == value - start
    ensures r.render.drawingIndex == index
    ensures r.render.switchToNext <==> v.render.drawingIndex != index
    ensures r.render.drawingProgress == (if v.render.drawingIndex != index then 0.0 else (value - start) / it.swipeAngle * MaxProgress)
    ensures r.render == v.render.(arcCache := r.render.arcCache, drawingIndex := index,
                                  switchToNext := r.render.switchToNext, drawingProgress := r.render.drawingProgress)
    ensures r.render.arcCache == (if start != v.startAngle then FixAngle(v.render.arcCache, start) else v.render.arcCache)
    ensures r == v.(render := r.render, startAngle := start, drawingAngle := value - start)
  {
    var v1 := SetStartAngle(v, start);
    var r1 := SetDrawingIndex(v1.render, index);
    var r2 := SetDrawingProgress(r1, (value - v1.startAngle) / it.swipeAngle * MaxProgress);
    v1.(render := r2, drawingAngle := value - v1.startAngle)
  }

  /** The setter on an angle inside span `i` enters span `i` at its start. */
  lemma SetDrawingAngleEnters(v: ViewState, value: real, i: int)
    requires Contiguous(v.render.arcs)
    requires forall k :: 0 <= k < |v.render.arcs| ==> v.render.arcs[k].swipeAngle >= 0.0
    requires 0 <= i < |v.render.arcs| && Contains(v.render.arcs[i], value)
    ensures v.render.arcs[i].swipeAngle > 0.0
    ensures SetDrawingAngle(v, value) == Ok(EnterSpan(v, value, v.render.arcs[i], i, v.render.arcs[i].startAngle))
  {
    var arcs := v.render.arcs;
    var found := CurrentArcData(arcs, value);
    assert found.Some?;
    FoundSpanIsUnique(arcs, value);
    assert IndexOf(arcs, found.value) == i;
    assert found.value == arcs[i];
  }

  /** Driving the view with an angle inside span `i` (percentages non-negative):
      the setter never throws; it selects span `i`, takes the span's start as the
      start angle (-90 for span 0, the end of span `i - 1` otherwise), keeps the
      angle swept since it, and sets the progress to 0 on the first frame of a
      new span and to the fraction of the span swept, in [0, 100), otherwise. */
  lemma DrivingAngleSelectsSpan(v: ViewState, value: real, i: int)
    requires Contiguous(v.render.arcs)
    requires forall k :: 0 <= k < |v.render.arcs| ==> v.render.arcs[k].swipeAngle >= 0.0
    requires 0 <= i < |v.render.arcs| && Contains(v.render.arcs[i], value)
    ensures var r := SetDrawingAngle(v, value);
      && r.Ok?
      && r.value.render.drawingIndex == i
      && r.value.startAngle == (if i == 0 then StartAngle else v.render.arcs[i - 1].endAngle)
      && r.value.drawingAngle == value - v.render.arcs[i].startAngle
      && (v.render.drawingIndex != i ==> r.value.render.drawingProgress == 0.0)
      && r.value.render.switchToNext == (v.render.drawingIndex != i)
  {
    SetDrawingAngleEnters(v, value, i);
    var a := v.render.arcs[i];
    EnteringSpan(v, value, a, i);
    if i > 0 {
      assert a.startAngle == v.render.arcs[i - 1].endAngle;
    }
  }

  /** The percentage of span `a` swept at `value`. */
  function SweptPercent(value: real, a: ArcData): real
    requires a.swipeAngle != 0.0
  {
    (value - a.startAngle) / a.swipeAngle * MaxProgress
  }

  /** Within the same span the progress is the percentage of the span swept,
      which lies in [0, 100). */
  lemma DrivingAngleProgress(v: ViewState, value: real, i: int)
    requires Contiguous(v.render.arcs)
    requires forall k :: 0 <= k < |v.render.arcs| ==> v.render.arcs[k].swipeAngle >= 0.0
    requires 0 <= i < |v.render.arcs| && Contains(v.render.arcs[i], value)
    requires v.render.drawingIndex == i
    ensures v.render.arcs[i].swipeAngle > 0.0
    ensures var r := SetDrawingAngle(v, value);
      && r.Ok?
      && r.value.render.drawingProgress == SweptPercent(value, v.render.arcs[i])
      && 0.0 <= r.value.render.drawingProgress < MaxProgress
  {
    SetDrawingAngleEnters(v, value, i);
    var a := v.render.arcs[i];
    EnteringSpan(v, value, a, i);
  }

  /** Driving the view with an angle inside a span leaves the spans, the leader
      lines and the line and text caches as they were. */
  lemma DrivingAngleKeepsLayout(v: ViewState, value: real, i: int)
    requires Contiguous(v.render.arcs)
    requires forall k :: 0 <= k < |v.render.arcs| ==> v.render.arcs[k].swipeAngle >= 0.0
    requires 0 <= i < |v.render.arcs| && Contains(v.render.arcs[i], value)
    ensures var r := SetDrawingAngle(v, value);
      && r.Ok?
      && r.value.render.arcs == v.render.arcs && r.value.render.lines == v.render.lines
      && r.value.render.lineCache == v.render.lineCache && r.value.render.textCache == v.render.textCache
  {
    SetDrawingAngleEnters(v, value, i);
  }

  /** Entering span `a` at `index` with an angle inside it. */
  lemma EnteringSpan(v: ViewState, value: real, a: ArcData, index: int)
    requires a.swipeAngle > 0.0 && a.startAngle <= value < a.startAngle + a.swipeAngle
    ensures var e := EnterSpan(v, value, a, index, a.startAngle);
      && e.render.drawingIndex == index
      && e.startAngle == a.startAngle
      && e.drawingAngle == value - a.startAngle
      && (v.render.drawingIndex != index ==> e.render.drawingProgress == 0.0)
      && (v.render.drawingIndex == index ==>
            && e.render.drawingProgress == SweptPercent(value, a)
            && 0.0 <= e.render.drawingProgress < MaxProgress)
      && e.render.switchToNext == (v.render.drawingIndex != index)
  {
    var num := value - a.startAngle;
    DivBelowOne(num, a.swipeAngle);
  }

  lemma DivBelowOne(num: real, den: real)
    requires 0.0 <= num < den
    ensures 0.0 <= num / den * MaxProgress < MaxProgress
  {
    assert num / den < 1.0;
  }

  /** On a change of span the newest cached wedge (the last frame of the previous
      span) is stretched to end exactly where the new span starts; the older
      entries are kept. */
  lemma SwitchStretchesLastWedge(v: ViewState, value: real, i: int)
    requires Contiguous(v.render.arcs)
    requires forall k :: 0 <= k < |v.render.arcs| ==> v.render.arcs[k].swipeAngle >= 0.0
    requires 0 <= i < |v.render.arcs| && Contains(v.render.arcs[i], value)
    requires v.startAngle != v.render.arcs[i].startAngle
    requires |v.render.arcCache| > 0
    ensures var r := SetDrawingAngle(v, value).value;
      var n := |v.render.arcCache|;
      && |r.render.arcCache| == n
      && r.render.arcCache[..n - 1] == v.render.arcCache[..n - 1]
      && r.render.arcCache[n - 1].startAngle + r.render.arcCache[n - 1].swipeAngle == v.render.arcs[i].startAngle
  {
    SetDrawingAngleEnters(v, value, i);
  }

  /** An angle outside every span leaves the start angle, the index and the
      progress where they were and only updates the swept angle. */
  lemma AngleOutsideSpansKeepsState(v: ViewState, value: real)
    requires Contiguous(v.render.arcs)
    requires forall k :: 0 <= k < |v.render.arcs| ==> !Contains(v.render.arcs[k], value)
    ensures SetDrawingAngle(v, value) == Ok(v.(drawingAngle := value - v.startAngle))
  {
  }

  // ---------------------------------------------------------------------------
  // Measurement and size
  // ---------------------------------------------------------------------------

  /** `onMeasure`: keeps the width given by the parent and sets the height to
      `width * 89 / 111`, rounded down. */
  function OnMeasure(v: ViewState, measuredWidth: nat): (r: ViewState)
    ensures r.width == measuredWidth
    ensures r.height * 111 <= measuredWidth * 89 < (r.height + 1) * 111
    ensures r == v.(width := r.width, height := r.height)
  {
    v.(width := measuredWidth, height := TruncDiv(measuredWidth * 89, 111))
  }

  /** The ring geometry for the stored size: the centre of the view, a radius of
      `width * 8 / 17 / 2` and a hole of nine sixteenths of the radius. */
  function GeometryFor(width: int, height: int): (g: Geometry)
    ensures g.centerX * 2.0 == width as real && g.centerY * 2.0 == height as real
    ensures g.radius * 34.0 == (width * 8) as real
    ensures g.centerOvalRadius * 16.0 == g.radius * 9.0
    ensures width > 0 ==> 0.0 < g.centerOvalRadius < g.radius
  {
    var radius := (width * 8) as real / 17.0 / 2.0;
    Geometry(width as real / 2.0, height as real / 2.0, radius, radius * 9.0 / 16.0)
  }

  /** `onSizeChanged`: drops every cache and recomputes the ring geometry from the
      size stored by `onMeasure` (not from the arguments of the callback). */
  function OnSizeChanged(v: ViewState): (r: ViewState)
    ensures r.render == Release(v.render).(geometry := GeometryFor(v.width, v.height))
    ensures |r.render.arcCache| == 0 && |r.render.lineCache.entries| == 0 && |r.render.textCache.entries| == 0
    ensures r.render.arcs == v.render.arcs && r.render.lines == v.render.lines
    ensures r == v.(render := r.render)
  {
    v.(render := Release(v.render).(geometry := GeometryFor(v.width, v.height)))
  }

  /** `onLayout`: plans the leader lines for the stored width. */
  function OnLayout(v: ViewState, lineLength: real, marginEdge: real, dims: Dims, cosSin: real -> (real, real)): (r: ViewState)
    ensures |r.render.lines| == |v.render.lines| + |v.render.arcs|
    ensures r.render == PieRender.CalculateLines(v.render, LinePlan(dims.outerCircleMargin, lineLength, marginEdge, v.width), dims, cosSin)
    ensures r == v.(render := r.render)
  {
    v.(render := PieRender.CalculateLines(v.render, LinePlan(dims.outerCircleMargin, lineLength, marginEdge, v.width), dims, cosSin))
  }

  /** `onDraw`: one frame from the current start angle over the stored swept angle. */
  function OnDraw(v: ViewState, paint: TextPaint, dims: Dims, palette: Palette): (r: Result<(ViewState, seq<DrawOp>)>)
    requires v.render.Valid()
    requires NonNegative(paint.advance)
    ensures r.Ok? ==> r.value.0.render.Valid()
    ensures r.Ok? ==> r.value.0 == v.(render := r.value.0.render)
    ensures r.Ok? && IsPrepared(v.render) ==> |r.value.0.render.arcCache| == |v.render.arcCache| + 1
    ensures r.Ok? && IsPrepared(v.render) ==>
      r.value.0.render.arcCache[|v.render.arcCache|].startAngle == v.startAngle
      && r.value.0.render.arcCache[|v.render.arcCache|].swipeAngle == v.drawingAngle
  {
    var frame :- StartRendering(v.render, v.startAngle, v.drawingAngle, paint, dims, palette);
    ArcCacheEntryOfFrame(v.render, v.startAngle, v.drawingAngle, paint, dims, palette);
    Ok((v.(render := frame.0), frame.1))
  }

  lemma ArcCacheEntryOfFrame(s: RenderState, startAngle: real, drawingAngle: real, paint: TextPaint, dims: Dims, palette: Palette)
    requires s.Valid()
    requires NonNegative(paint.advance)
    requires StartRendering(s, startAngle, drawingAngle, paint, dims, palette).Ok?
    ensures var c := StartRendering(s, startAngle, drawingAngle, paint, dims, palette).value.0.arcCache;
      IsPrepared(s) ==> (|c| == |s.arcCache| + 1 && c[..|s.arcCache|] == s.arcCache
                         && c[|s.arcCache|].startAngle == startAngle && c[|s.arcCache|].swipeAngle == drawingAngle)
  {
  }

  // ---------------------------------------------------------------------------
  // Animator
  // ---------------------------------------------------------------------------

  /** `startAnimator`: without spans nothing happens; otherwise a running animator
      drives the angle from -90 to 270 after the given delay and over the given
      duration. */
  function StartAnimator(v: ViewState, startDelay: int, duration: int): (r: ViewState)
    ensures !IsReadyToRender(v.render) ==> r == v
    ensures IsReadyToRender(v.render) ==>
      r == v.(animator := Some(Animator(StartAngle, EndAngle, startDelay, duration, 0, true)))
    ensures r.animator.Some? && r != v ==> r.animator.value.to - r.animator.value.from == 360.0
  {
    if !IsReadyToRender(v.render) then v
    else v.(animator := Some(Animator(StartAngle, EndAngle, startDelay, duration, 0, true)))
  }

  /** `pauseAnimator`: remembers the play time (0 without an animator) and cancels. */
  function PauseAnimator(v: ViewState): (r: ViewState)
    ensures v.animator.None? ==> r == v.(tempPlayTime := 0)
    ensures v.animator.Some? ==>
      && r.tempPlayTime == v.animator.value.playTime
      && r.animator == Some(v.animator.value.(running := false))
    ensures r.render == v.render && r.drawingAngle == v.drawingAngle && r.startAngle == v.startAngle
  {
    match v.animator
    case None => v.(tempPlayTime := 0)
    case Some(a) => v.(tempPlayTime := a.playTime, animator := Some(a.(running := false)))
  }

  /** `resumeAnimator`: nothing happens unless a positive play time was stored;
      otherwise the animator restarts and jumps to that play time. */
  function ResumeAnimator(v: ViewState): (r: ViewState)
    ensures v.tempPlayTime <= 0 ==> r == v
    ensures v.tempPlayTime > 0 && v.animator.Some? ==>
      r.animator == Some(v.animator.value.(running := true, playTime := v.tempPlayTime))
    ensures r.render == v.render && r.drawingAngle == v.drawingAngle && r.startAngle == v.startAngle
  {
    if v.tempPlayTime <= 0 then v
    else
      match v.animator
      case None => v
      case Some(a) => v.(animator := Some(a.(running := true, playTime := v.tempPlayTime)))
  }

  /** Pausing and resuming a running animator that has played for a while puts it
      back exactly where it was, and the chart state is untouched. */
  lemma PauseThenResumeRestoresAnimator(v: ViewState)
    requires v.animator.Some? && v.animator.value.running && v.animator.value.playTime > 0
    ensures ResumeAnimator(PauseAnimator(v)) == v.(tempPlayTime := v.animator.value.playTime)
  {
  }

  /** Pausing before any animator exists makes the next resume a no-op. */
  lemma ResumeWithoutAnimatorDoesNothing(v: ViewState)
    requires v.animator.None?
    ensures ResumeAnimator(PauseAnimator(v)) == PauseAnimator(v)
  {
  }

  // ---------------------------------------------------------------------------
  // Scenarios
  // ---------------------------------------------------------------------------

  /** A newly constructed view: a new renderer and the property initialisers, a
      swept angle of 0, the start angle at twelve o'clock, no size yet, no
      animator and no saved play time. */
  function NewView(g: Geometry): (v: ViewState)
    ensures v.Valid()
    ensures v.render == PieRender.Init(g)
    ensures v.drawingAngle == 0.0 && v.startAngle == StartAngle
    ensures v.animator.None? && v.tempPlayTime == 0
  {
    ViewState(PieRender.Init(g), 0.0, StartAngle, 0, 0, None, 0)
  }

  /** `setData`: hands the items to the renderer, which replaces its spans. The
      drawing index, progress, start angle, swept angle, lines and caches are
      NOT reset: a second `setData` keeps the index and start angle of the
      previous data. */
  function SetData(v: ViewState, data: seq<PieViewData>, resolveColor: int -> int): (r: ViewState)
    ensures r.render.arcs == PieLayout.SetData(data, resolveColor)
    ensures r == v.(render := v.render.(arcs := r.render.arcs))
    ensures v.render.Valid() ==> r.Valid()
  {
    v.(render := SetSpans(v.render, data, resolveColor))
  }

  /** Because `setData` keeps the drawing index, new data with fewer items than
      the index makes the next prepared frame read past the end of the spans and
      throw. */
  lemma SetDataKeepsStaleIndex(v: ViewState, data: seq<PieViewData>, resolveColor: int -> int,
                               startAngle: real, drawingAngle: real)
    requires 0 < |data| <= v.render.drawingIndex && |v.render.lines| > 0
    ensures var r := SetData(v, data, resolveColor);
      && r.render.drawingIndex == v.render.drawingIndex && r.startAngle == v.startAngle
      && RenderArc(r.render, startAngle, drawingAngle) == Fail(IndexOutOfBounds)
  {
  }

  /** A newly constructed view after its first `setData`: the spans of `data`,
      index 0, progress 0 and start angle -90. */
  function Fresh(data: seq<PieViewData>, resolveColor: int -> int, g: Geometry): (v: ViewState)
    ensures v.Valid()
    ensures v.render.arcs == PieLayout.SetData(data, resolveColor)
    ensures v.render.drawingIndex == 0 && v.render.drawingProgress == 0.0 && v.startAngle == StartAngle
  {
    SetData(NewView(g), data, resolveColor)
  }

  /** A view set up from positive percentages is ready to be driven: its spans
      are contiguous with positive sweeps and it starts at span 0. */
  lemma FreshIsReady(data: seq<PieViewData>, resolveColor: int -> int, g: Geometry)
    requires forall k :: 0 <= k < |data| ==> data[k].percent > 0.0
    ensures var v := Fresh(data, resolveColor, g);
      && |v.render.arcs| == |data|
      && Contiguous(v.render.arcs)
      && (forall k :: 0 <= k < |v.render.arcs| ==> v.render.arcs[k].swipeAngle > 0.0)
      && v.render.drawingIndex == 0
  {
    PositiveSpans(data, resolveColor);
  }

  /** The first frame, at -90 exactly, selects span 0 with progress 0; the angle
      where span 0 ends selects span 1 and restarts the progress at 0, with the
      start angle moved to the end of span 0. */
  lemma FirstFrameAndFirstSwitch(v0: ViewState)
    requires Contiguous(v0.render.arcs) && |v0.render.arcs| >= 2
    requires forall k :: 0 <= k < |v0.render.arcs| ==> v0.render.arcs[k].swipeAngle > 0.0
    requires v0.render.drawingIndex == 0
    ensures var v1 := SetDrawingAngle(v0, StartAngle);
      && v1.Ok?
      && v1.value.render.drawingIndex == 0 && v1.value.render.drawingProgress == 0.0
      && var v2 := SetDrawingAngle(v1.value, v0.render.arcs[0].endAngle);
      && v2.Ok?
      && v2.value.render.drawingIndex == 1 && v2.value.render.drawingProgress == 0.0
      && v2.value.startAngle == v0.render.arcs[0].endAngle
  {
    var arcs := v0.render.arcs;
    assert Contains(arcs[0], StartAngle);
    DrivingAngleSelectsSpan(v0, StartAngle, 0);
    DrivingAngleProgress(v0, StartAngle, 0);
    assert SweptPercent(StartAngle, arcs[0]) == 0.0;
    DrivingAngleKeepsLayout(v0, StartAngle, 0);
    var v1 := SetDrawingAngle(v0, StartAngle).value;
    assert v1.render.arcs == arcs && v1.render.drawingIndex == 0;
    assert Contains(arcs[1], arcs[0].endAngle);
    DrivingAngleSelectsSpan(v1, arcs[0].endAngle, 1);
  }

  /** Positive percentages give contiguous spans of positive sweep. */
  lemma PositiveSpans(data: seq<PieViewData>, resolveColor: int -> int)
    requires forall k :: 0 <= k < |data| ==> data[k].percent > 0.0
    ensures var arcs := PieLayout.SetData(data, resolveColor);
      && |arcs| == |data|
      && Contiguous(arcs)
      && (forall k :: 0 <= k < |arcs| ==> arcs[k].swipeAngle > 0.0)
      && (forall k :: 0 < k < |arcs| ==> arcs[k].startAngle == arcs[k - 1].endAngle)
      && (forall k :: 0 <= k < |arcs| ==> arcs[k].endAngle == arcs[k].startAngle + arcs[k].swipeAngle)
      && (|arcs| > 0 ==> arcs[0].startAngle == StartAngle)
  {
    var arcs := PieLayout.SetData(data, resolveColor);
    forall k | 0 <= k < |arcs| ensures arcs[k].swipeAngle > 0.0 {
      assert arcs[k].swipeAngle == MaxAngle * data[k].percent / MaxProgress;
    }
  }
}
