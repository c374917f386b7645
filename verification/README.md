# CustomViews in Dafny

This is a model of three custom Android views from the CustomViews repository, with proofs about it.

- **The animated pie chart** (`pie/`). `PieRender` turns percentages into contiguous angle spans that start at twelve o'clock (-90 degrees). It plans one leader line and one radial divider per span, then runs a decimation pass that hides labels too close to the previous one. Each frame it draws:
  - the wedges recorded in its arc cache, plus the active wedge;
  - the leader lines and labels recorded in its line and text caches, keyed by span index;
  - the inner disc and the dividers.

  `PieView` maps the animator's driving angle to the active span, the start angle and the progress. It also sizes the ring and guards the animator.
- **`TagLayout`**: a view group that flows its children left to right and wraps to a new row when the offered width runs out. It remembers each child's rectangle for `onLayout`.
- **`ScalableImageView`**: a bitmap fitted to the view at a small scale, with a bigger scale 1.5 times past filling the view. A double tap toggles between the two, keeping the tapped point under the finger. While the bitmap is enlarged, drag and fling move an offset that `fixOffsets` clamps.

## Modelling choices

- Kotlin `Float` is `real`. `Float.toInt()` is truncation toward zero (`Outcomes.Trunc`). Kotlin `Int / Int` is truncating division (`Outcomes.TruncDiv`).
- A frame is modelled as the list of canvas operations it issues (`PieRender.DrawOp`). Every Kotlin method that mutates the renderer or a view becomes a function from the old state to the new state.
- A call that throws in the Kotlin code returns `Fail(IndexOutOfBounds)` or `Fail(DivisionByZero)`. Examples:
  - `preArcData(0)` reads position -1;
  - `adjustText` calls `substring(0, -1)` when not even one character fits;
  - `renderArc` or `renderLine` read a drawing index beyond the lists;
  - `onLayout` reads a bounds list that is shorter than the child count;
  - `onSizeChanged` divides by a zero height.
- The insertion-ordered `mutableMapOf()` caches are `LinkedMap`: an iteration order next to a key-value map.
- Trigonometry is the parameter `cosSin`, which gives the cosine and sine of an angle in degrees.
- Text measurement is a per-character advance function. `breakText` is the longest prefix whose width fits.
- `getTextBounds` is a parameter of the text paint.
- `TagLayout`'s child measurement is a function `measure(index, heightUsed)` that returns a child's size.

The model keeps these behaviours of the code as written:

- **Fresh label and leader line are not drawn in their frame.** `renderLine` and `renderText` only store the active line and label in the caches. They appear from the next frame on, when the caches are replayed (`PieRender.RenderLine`).
- **The carried gap is replaced, not accumulated.** In the decimation pass, `mTempSpace = +lineData.dpToPre` assigns the dropped line's own gap. Gaps of successive dropped lines therefore never add up (`PieLayout.TempSpaceAfter`, `PieLayout.GapsDoNotAccumulate`).
- **Kept lines are not kept apart.** Each gap is the absolute height difference to the previous line, kept or dropped, and the carried gap is added to it. A line that goes back towards the last kept line can therefore be kept at that line's height, with no crossing between them (`PieLayout.KeptLinesMayCoincide`). This comes from adding absolute gaps, and would happen even if the carried gaps accumulated. So "consecutive kept lines respect the minimum gap" is not a property of this code.
- **Truncated labels are not guaranteed to fit.** `adjustText` keeps one character fewer than `breakText` counts and then appends `"..."` without measuring it. The result can be wider than the space (`PieLayout.TruncatedLabelMayOverflow`). When no character fits, the call throws instead of returning an empty string.
- **Lines and dividers accumulate.** `calculateLines` appends to its line and divider lists and never clears them. `release` clears only the three caches. On a second layout pass, the gap of span j's new line is measured against entry j-1 of the whole list, which is an old line (`PieLayout.PlanFromLines`). After a size change, `release` empties the caches but every divider planned for the old size is still drawn, from the new centre, and the drawing index still selects the old line at that position.
- **The size comes from `onMeasure`.** `onSizeChanged` reads the width and height stored by `onMeasure`, not the callback's arguments.
- **The vertical clamp uses the horizontal limit.** The lower bound on the vertical offset in `fixOffsets` is `-limitOffsetX`, not `-limitOffsetY` (`ScalableImage.VerticalOffsetCanPassItsLimit`).
- **The landscape test divides integers.** `onSizeChanged` compares the bitmap's aspect ratio to the view's using integer division. A bitmap that is proportionally wider than the view can still be fitted to the height, and then overflows the width (`ScalableImage.IntegerAspectTestOverflowsWidth`).

Paths below are relative to the repository root. All source files are under `app/src/main/java/com/akashi/customviews/`.

## Model

| member | source | states |
|---|---|---|
| PieLayout.SetData | app/src/main/java/com/akashi/customviews/pie/PieRender.kt:137-162 | one span per item, in input order, with `index` equal to the position; span 0 starts at -90 and every later span starts at the previous span's end; sweep is 360·percent/100 and end is start plus sweep; the label texts are the item's duration and course name, and the colour is the resolved item colour |
| PieLayout.SpanStartIsPrefixSum | app/src/main/java/com/akashi/customviews/pie/PieRender.kt:140-147 | span i starts, and span i-1 ends, at -90 + 360·(p0+…+p(i-1))/100, whether or not the percentages sum to 100 |
| PieLayout.SpansOrdered | app/src/main/java/com/akashi/customviews/pie/PieRender.kt:141-147 | with non-negative percentages, every later span starts at or after the end of every earlier span |
| PieLayout.DemoSpans | app/src/main/java/com/akashi/customviews/acivity/PieViewActivity.kt:20-32 | the demo items at 20% and 15% give span 0 = -90..-18 (sweep 72) and span 1 = -18..36 (sweep 54), whatever follows them |
| PieLayout.CurrentArcData | app/src/main/java/com/akashi/customviews/pie/PieRender.kt:109-111 | returns the first span whose half-open range [start, end) holds the angle; returns none exactly when no span holds it |
| PieLayout.IndexOf | app/src/main/java/com/akashi/customviews/pie/PieRender.kt:120 | the first position holding an equal span, or -1 exactly when no span is equal |
| PieLayout.FoundSpanIsUnique | app/src/main/java/com/akashi/customviews/pie/PieRender.kt:109-120 | for spans built by `setData` with non-negative percentages: the position `indexOf` reports for the found span is that span's own index, and no other span holds the angle |
| PieLayout.AngleInRingIsFound | app/src/main/java/com/akashi/customviews/pie/PieRender.kt:109-111 | every angle from -90 up to (not including) the last span's end lies in some span |
| PieLayout.PreArcData | app/src/main/java/com/akashi/customviews/pie/PieRender.kt:113-118 | null exactly for positions outside the list; throws exactly at position 0 of a non-empty list; for 1 ≤ index < n, exactly the span before `index` |
| PieLayout.PreArcEndsAtStart | app/src/main/java/com/akashi/customviews/pie/PieRender.kt:113-118 | for 1 ≤ i < n, the span that `preArcData(i)` returns ends exactly where span i starts |
| PieLayout.Locate | app/src/main/java/com/akashi/customviews/pie/PieRender.kt:524-539 | LEFT exactly when x < cx, RIGHT exactly when x > cx, and on the centre line MIDDLE_TOP exactly when y < cy, otherwise MIDDLE_BOTTOM |
| PieLayout.EndPoint | app/src/main/java/com/akashi/customviews/pie/PieRender.kt:197-210 | a leader line ends at the turning height, at the left margin when the turning point is left of or on the centre line, otherwise at `width - margin` |
| PieLayout.PlanLine | app/src/main/java/com/akashi/customviews/pie/PieRender.kt:183-232 | a new line has alpha 0, is not yet fit, and takes the span's colour; `dpToPre` is 0 for the first line and otherwise the distance between its turning height and the previous list entry's turning height |
| PieLayout.WhiteLine | app/src/main/java/com/akashi/customviews/pie/PieRender.kt:270-280 | a divider ends one radius from the centre whenever the direction given for its angle is a unit vector |
| PieLayout.PlanFrom | app/src/main/java/com/akashi/customviews/pie/PieRender.kt:174-236 | the loop appends exactly one line and one divider per remaining span and leaves the entries already in both lists untouched |
| PieLayout.PlanFromLines | app/src/main/java/com/akashi/customviews/pie/PieRender.kt:174-236 | every line the loop appends for span j has alpha 0, is not yet fit, and takes span j's colour; it ends on the screen edge of its turning point's half, at the turning height; its gap is measured against position j-1 of the whole list, not against the line appended before it |
| PieLayout.PlanFromAims | app/src/main/java/com/akashi/customviews/pie/PieRender.kt:174-236 | for spans laid out by `setData`, the loop's running angle is the start of the span it is at, so line j is aimed at the middle of span j and divider j at its start |
| PieLayout.CalculateLines | app/src/main/java/com/akashi/customviews/pie/PieRender.kt:169-239 | exactly one line and one divider per span are appended, and the old lines keep everything except their verdict; for spans laid out by `setData`, new line j starts and turns on the ray through the middle of span j, and new divider j lies along span j's start angle; every line of the list then carries the decimation verdict for its position |
| PieLayout.FitPass | app/src/main/java/com/akashi/customviews/pie/PieRender.kt:241-268 | only the verdicts change; line 0 is kept; a later line is kept exactly when it crosses the centre line relative to the previous line, or when its gap, plus the previous line's gap if and only if that line was dropped, reaches the minimum |
| PieLayout.FitAtRecurrence | app/src/main/java/com/akashi/customviews/pie/PieRender.kt:244-266 | the `when` verdict of line i ≥ 1: kept exactly when it crosses the centre line relative to line i-1, or when its gap plus (only if line i-1 was dropped) line i-1's gap reaches the minimum |
| PieLayout.FitRule | app/src/main/java/com/akashi/customviews/pie/PieRender.kt:244-266 | line 0 is always kept; a later line is dropped exactly when its gap plus the carried space is below the minimum and its turning point does not cross the centre line relative to the previous line |
| PieLayout.TempSpaceAfter | app/src/main/java/com/akashi/customviews/pie/PieRender.kt:249-264 | after a kept line the carried space is 0; after a dropped line it is that line's own gap, with nothing from before added |
| PieLayout.TempSpace | app/src/main/java/com/akashi/customviews/pie/PieRender.kt:243-264 | the carried space before any line is 0 or the gap of the line just before it, never a sum of gaps |
| PieLayout.GapsDoNotAccumulate | app/src/main/java/com/akashi/customviews/pie/PieRender.kt:263 | five same-side lines turning at heights 0, 10, 20, 30 and 40 with a minimum of 34: all but the first are dropped, although the last is 40 below the first |
| PieLayout.KeptLinesMayCoincide | app/src/main/java/com/akashi/customviews/pie/PieRender.kt:249-264 | a line that goes back to the height of the last kept line is kept, because the gap of the dropped line in between is added to its own |
| PieLayout.CalculateLinesFit | app/src/main/java/com/akashi/customviews/pie/PieRender.kt:238-268 | running the decimation pass again over its own output gives every line the same verdict: the pass is idempotent |
| PieLayout.BreakText | app/src/main/java/com/akashi/customviews/pie/PieRender.kt:410 | the count is the longest prefix that fits: that prefix (when not empty) fits, and one more character does not |
| PieLayout.AdjustText | app/src/main/java/com/akashi/customviews/pie/PieRender.kt:406-415 | a text that fits is returned unchanged; the call throws exactly when the text is too wide and not even its first character fits; otherwise it returns a prefix followed by `"..."`, where the prefix is one character shorter than the longest prefix that fits |
| PieLayout.TruncatedLabelMayOverflow | app/src/main/java/com/akashi/customviews/pie/PieRender.kt:409-411 | with unit-width characters, "abcd" in a space of 2 becomes "a...", which is 4 wide |
| PieLayout.BaselineOffset | app/src/main/java/com/akashi/customviews/pie/PieRender.kt:436 | the offset is the magnitude of (top + bottom) halved, rounded toward zero |
| PieLayout.PlaceText | app/src/main/java/com/akashi/customviews/pie/PieRender.kt:443-474 | alignment is LEFT, RIGHT or CENTER exactly as the anchor lies left of, right of or on the centre line; the two baselines are offset per quadrant |
| PieLayout.LabelsAreNeverCentered | app/src/main/java/com/akashi/customviews/pie/PieRender.kt:445-474 | when the margin keeps both screen edges off the centre line, a label at a leader line's end is aligned left (turning point at or left of the centre) or right, never centred |
| PieLayout.AlphaOf | app/src/main/java/com/akashi/customviews/pie/PieRender.kt:426 | a progress in [0, 100] gives an alpha in [0, 255], the truncation of progress·255/100 |
| PieRender.Init | app/src/main/java/com/akashi/customviews/pie/PieRender.kt:69-104 | a new renderer has no spans, lines or dividers, empty caches, index 0, progress 0 and the switch flag down |
| PieRender.SetSpans | app/src/main/java/com/akashi/customviews/pie/PieRender.kt:137-162 | `setData` replaces the spans and leaves the lines, dividers, caches, index and progress alone |
| PieRender.SetDrawingIndex | app/src/main/java/com/akashi/customviews/pie/PieRender.kt:81-85 | the index takes the new value, and the switch flag is raised exactly when the index changes |
| PieRender.SetDrawingProgress | app/src/main/java/com/akashi/customviews/pie/PieRender.kt:92-99 | the progress stored is 0 while the switch flag is up, otherwise the value given; nothing else changes |
| PieRender.FixAngle | app/src/main/java/com/akashi/customviews/pie/PieRender.kt:125-132 | on an empty cache nothing changes; otherwise only the newest wedge's sweep changes, so that it ends exactly at the new value |
| PieRender.ReadyExactlyWithData | app/src/main/java/com/akashi/customviews/pie/PieRender.kt:137-164 | whatever the renderer held before, after `setData` it is ready exactly when the data has an item, and after the next layout pass it is prepared (`isPrepared`, PieRender.kt:551-553) exactly then |
| PieRender.CalculateLines | app/src/main/java/com/akashi/customviews/pie/PieRender.kt:169-239 | each layout pass grows the line and divider lists by the number of spans and changes nothing else in the renderer |
| PieRender.Release | app/src/main/java/com/akashi/customviews/pie/PieRender.kt:555-559 | the three caches are empty afterwards; spans, lines, dividers, geometry, index, progress and flag are unchanged |
| LinkedMap.Put | app/src/main/java/com/akashi/customviews/pie/PieRender.kt:375-378 | writing a cache key stores the value under it; an existing key keeps its place in the iteration order, a new key goes last; every other key keeps its value |
| PieRender.ArcFrameReplaysNext | app/src/main/java/com/akashi/customviews/pie/PieRender.kt:309-350 | the next frame's replay of the arc cache is exactly the wedges this frame drew, in the same order: the recorded wedges plus the active one |
| PieRender.ReplayLines | app/src/main/java/com/akashi/customviews/pie/PieRender.kt:380-399 | per cached line in insertion order, its path followed by the dot at its start, in the line's colour and alpha |
| PieRender.ReplayTexts | app/src/main/java/com/akashi/customviews/pie/PieRender.kt:505-519 | per cached label in insertion order, its two lines with their own colours and the label's single alpha |
| PieRender.RenderArc | app/src/main/java/com/akashi/customviews/pie/PieRender.kt:309-342 | unless both spans and lines exist, nothing happens; otherwise throws exactly when the drawing index is outside the spans; otherwise replays the cache, draws the active wedge in the active span's colour, and appends exactly that wedge to the cache |
| PieRender.ActiveLabel | app/src/main/java/com/akashi/customviews/pie/PieRender.kt:417-474 | the label of the active span: both texts truncated to the available width, throwing exactly when either truncation throws; the two fixed colours; the alpha of the current progress; alignment and both baselines placed by where the anchor lies, with the baseline offset of the first text's bounds |
| PieRender.RenderLine | app/src/main/java/com/akashi/customviews/pie/PieRender.kt:358-378 | unless prepared, nothing happens; throws exactly when the drawing index is outside the lines or the active label throws, whether or not the line is kept; the frame replays the cached lines and labels only; for a kept line, the line with its alpha set is put into the line cache and the active label into the text cache under the drawing index; for a dropped line, the caches stay as they were |
| PieRender.DividersAtSpanStarts | app/src/main/java/com/akashi/customviews/pie/PieRender.kt:293-306 | after a layout pass over spans built by `setData`, the frame draws the divider appended for span j from the centre along span j's start angle, after the disc and the older dividers |
| PieRender.StartRendering | app/src/main/java/com/akashi/customviews/pie/PieRender.kt:282-290 | an unprepared renderer draws only the static decorations and stays unchanged; a prepared one grows the arc cache by exactly one entry |
| PieRender.FrameAfterReleaseReplaysNoCache | app/src/main/java/com/akashi/customviews/pie/PieRender.kt:555-559 | after `release`, a frame draws exactly one wedge (the active one), then only the disc and dividers: no wedge, leader line or label recorded before the release |
| PieView.SetStartAngle | app/src/main/java/com/akashi/customviews/pie/PieView.kt:75-81 | an equal value changes nothing; a new value stretches the newest cached wedge to it and is stored |
| PieView.SetDrawingAngle | app/src/main/java/com/akashi/customviews/pie/PieView.kt:49-70 | an angle in no span updates only the swept angle; in every successful case the stored angle is the angle minus the (possibly updated) start angle |
| PieView.SpanStart | app/src/main/java/com/akashi/customviews/pie/PieView.kt:55-59 | for spans built by `setData`, the start angle the setter picks for span i is span i's own start |
| PieView.EnterSpan | app/src/main/java/com/akashi/customviews/pie/PieView.kt:55-67 | entering a span sets the start angle (stretching the newest wedge if it moved), the index (raising the flag if it changed) and the progress (0 on a change, otherwise the swept share ·100); nothing else changes |
| PieView.SetDrawingAngleEnters | app/src/main/java/com/akashi/customviews/pie/PieView.kt:52-67 | an angle inside span i enters span i at its own start angle, and that span's sweep is positive |
| PieView.DrivingAngleSelectsSpan | app/src/main/java/com/akashi/customviews/pie/PieView.kt:52-61 | an angle inside span i makes i the drawing index; the start angle becomes -90 for i = 0 and otherwise the end of span i-1; the flag is raised and the progress is 0 exactly when the index changes |
| PieView.DrivingAngleProgress | app/src/main/java/com/akashi/customviews/pie/PieView.kt:61-64 | a later frame in the same span stores progress (angle - start)/sweep·100, which lies in [0, 100) |
| PieView.DrivingAngleKeepsLayout | app/src/main/java/com/akashi/customviews/pie/PieView.kt:49-70 | driving the angle never changes the spans, the lines, or the line and text caches |
| PieView.SwitchStretchesLastWedge | app/src/main/java/com/akashi/customviews/pie/PieView.kt:75-81 | on moving to a span with a different start, the previous segment's newest cached wedge is stretched to end at the new start and older entries are kept |
| PieView.AngleOutsideSpansKeepsState | app/src/main/java/com/akashi/customviews/pie/PieView.kt:52-67 | an angle outside every span leaves start angle, index, progress and caches unchanged |
| PieView.OnMeasure | app/src/main/java/com/akashi/customviews/pie/PieView.kt:100-108 | the width is kept and the height is width·89/111 rounded down |
| PieView.GeometryFor | app/src/main/java/com/akashi/customviews/pie/PieView.kt:122-129 | centre at half the size, radius width·8/17/2, hole radius 9/16 of the radius, so strictly inside the ring for a positive width |
| PieView.OnSizeChanged | app/src/main/java/com/akashi/customviews/pie/PieView.kt:117-130 | the caches are emptied and the geometry is recomputed from the stored size; spans and lines are kept |
| PieView.OnLayout | app/src/main/java/com/akashi/customviews/pie/PieView.kt:110-115 | each layout pass plans lines for the stored width and appends one line per span |
| PieView.OnDraw | app/src/main/java/com/akashi/customviews/pie/PieView.kt:137-142 | a prepared frame records a wedge from the current start angle over the stored swept angle, and nothing of the view but its renderer changes |
| PieView.StartAnimator | app/src/main/java/com/akashi/customviews/pie/PieView.kt:147-156 | without spans nothing happens; otherwise a running animator over -90..270 is created with the given delay and duration |
| PieView.PauseAnimator | app/src/main/java/com/akashi/customviews/pie/PieView.kt:161-164 | the stored play time is the animator's (0 without one), and the animator stops |
| PieView.ResumeAnimator | app/src/main/java/com/akashi/customviews/pie/PieView.kt:169-173 | a stored time ≤ 0 changes nothing; otherwise the animator restarts at the stored time |
| PieView.PauseThenResumeRestoresAnimator | app/src/main/java/com/akashi/customviews/pie/PieView.kt:161-173 | pausing and resuming a running animator that has played for a while puts it back exactly where it was, with the chart untouched |
| PieView.ResumeWithoutAnimatorDoesNothing | app/src/main/java/com/akashi/customviews/pie/PieView.kt:161-173 | pausing before any animator exists makes the next resume a no-op |
| PieView.NewView | app/src/main/java/com/akashi/customviews/pie/PieView.kt:40-75 | a newly constructed view has a new renderer, swept angle 0, start angle -90, no animator and no saved play time |
| PieView.SetData | app/src/main/java/com/akashi/customviews/pie/PieView.kt:95-98 | only the renderer's spans are replaced; the drawing index, progress, start and swept angles, lines and caches are kept |
| PieView.SetDataKeepsStaleIndex | app/src/main/java/com/akashi/customviews/pie/PieView.kt:95-98 | new data with fewer items than the current drawing index keeps that index and start angle, and the next prepared frame throws |
| PieView.Fresh | app/src/main/java/com/akashi/customviews/pie/PieView.kt:95-98 | a newly constructed view after its first `setData` holds the spans of the data, index 0, progress 0 and start angle -90 |
| PieView.PositiveSpans | app/src/main/java/com/akashi/customviews/pie/PieRender.kt:137-162 | spans from positive percentages are one per item, contiguous from -90, and each has a positive sweep |
| PieView.FirstFrameAndFirstSwitch | app/src/main/java/com/akashi/customviews/pie/PieView.kt:49-70 | the angle -90 selects span 0 with progress 0; the end angle of span 0 then selects span 1, restarts the progress at 0, and moves the start angle to the end of span 0 |
| TagLayout.Place | app/src/main/java/com/akashi/customviews/views/TagLayout.kt:26-52 | a wrapping child starts at the left edge one row height lower; otherwise it continues the row; it takes the size measured at its top; with a bounded width it ends within the width or starts its row |
| TagLayout.FlowTotals | app/src/main/java/com/akashi/customviews/views/TagLayout.kt:50-57 | the loop's running widest row is the rightmost child edge, and height used plus row height is the lowest child edge |
| TagLayout.OnMeasure | app/src/main/java/com/akashi/customviews/views/TagLayout.kt:14-59 | the bounds list grows to at least the child count and never shrinks; its first entries are the flow placement and the rest are untouched; the measured width is the rightmost edge and the measured height the lowest edge of the children |
| TagLayout.OnLayout | app/src/main/java/com/akashi/customviews/views/TagLayout.kt:61-66 | each child is laid out at its stored rectangle; throws exactly when fewer rectangles than children are stored |
| TagLayout.MeasureThenLayout | app/src/main/java/com/akashi/customviews/views/TagLayout.kt:14-66 | measuring and then laying out the same children never throws, and places every child where measuring put it |
| TagLayout.RowBreakRule | app/src/main/java/com/akashi/customviews/views/TagLayout.kt:29-50 | child i wraps exactly when the previous child's right edge plus its first measured width exceeds a bounded width; a wrapping child goes to the left edge below all children so far, measured again; otherwise it sits right after child i-1 on the same row |
| TagLayout.ChildrenDoNotOverlap | app/src/main/java/com/akashi/customviews/views/TagLayout.kt:29-52 | no two children's rectangles share an interior point |
| TagLayout.RowsFitWidth | app/src/main/java/com/akashi/customviews/views/TagLayout.kt:29-48 | with a bounded width, every child ends within it unless it starts its row |
| TagLayout.UnspecifiedIsOneRow | app/src/main/java/com/akashi/customviews/views/TagLayout.kt:29 | with an unspecified width nothing wraps: all tops are 0, the first child starts at 0 and each later child starts at the previous right edge |
| TagLayout.MeasuredSizeIsTight | app/src/main/java/com/akashi/customviews/views/TagLayout.kt:50-58 | the measured size encloses every child and is exactly the extreme edges |
| TagLayout.ThreeTagsWrapOnce | app/src/main/java/com/akashi/customviews/views/TagLayout.kt:14-59 | three 40×10 tags under an at-most-100 width go to (0,0), (40,0) and, wrapped, (0,10) |
| ScalableImage.Init | app/src/main/java/com/akashi/customviews/views/ScalableImageView.kt:45-60 | a new view is shown small, with zero offsets, zero scales and fraction 0 |
| ScalableImage.IsWider | app/src/main/java/com/akashi/customviews/views/ScalableImageView.kt:83 | throws exactly for a zero view height; for a positive height, the result is whether the bitmap's integer width/height quotient exceeds the view's |
| ScalableImage.OnSizeChanged | app/src/main/java/com/akashi/customviews/views/ScalableImageView.kt:74-91 | the bitmap is centred; a bitmap judged wider is fitted to the width small and to 1.5× the height big, otherwise the other way round; throws exactly on a zero height |
| ScalableImage.WiderRatioFitsWidth | app/src/main/java/com/akashi/customviews/views/ScalableImageView.kt:83-85 | when the integer test says wider, the small scale fills the width exactly and keeps the height within the view |
| ScalableImage.IntegerAspectTestOverflowsWidth | app/src/main/java/com/akashi/customviews/views/ScalableImageView.kt:83 | a 350×300 bitmap in a 1000×999 view is truly wider but judged not wider, and at the small scale it is wider than the view |
| ScalableImage.OnDraw | app/src/main/java/com/akashi/customviews/views/ScalableImageView.kt:93-101 | fraction 0 draws at the small scale with no translation, fraction 1 at the big scale translated by the offset; in between, the scale lies between the two; the pivot is the view's centre |
| ScalableImage.FixOffsets | app/src/main/java/com/akashi/customviews/views/ScalableImageView.kt:130-139 | the horizontal offset ends in [-limitX, limitX] when that range is not empty, and an offset past either bound is moved to that bound; the vertical offset ends at least -limitX, and at most limitY when -limitX ≤ limitY, again moved to the bound it passed; offsets already in range are kept |
| ScalableImage.FixOffsetsIdempotent | app/src/main/java/com/akashi/customviews/views/ScalableImageView.kt:130-139 | fixing twice is fixing once |
| ScalableImage.VerticalOffsetCanPassItsLimit | app/src/main/java/com/akashi/customviews/views/ScalableImageView.kt:136-138 | with a horizontal limit of 100 and a vertical limit of 10, a vertical offset of -50 is kept, although it lies below -limitY |
| ScalableImage.OnScroll | app/src/main/java/com/akashi/customviews/views/ScalableImageView.kt:115-128 | never consumed; ignored while small; otherwise the offsets move against the distances and are fixed |
| ScalableImage.ScrollStaysWithinLimits | app/src/main/java/com/akashi/customviews/views/ScalableImageView.kt:121-124 | a scroll while enlarged leaves the horizontal offset within its limit and the vertical offset within the as-written bounds |
| ScalableImage.OnFling | app/src/main/java/com/akashi/customviews/views/ScalableImageView.kt:143-168 | never consumed; no fling while small; otherwise a fling from the truncated offsets with the truncated velocities, bounds ± the limits truncated toward zero, and the given overscroll |
| ScalableImage.Run | app/src/main/java/com/akashi/customviews/views/ScalableImageView.kt:170-177 | while the scroller moves, the offsets take its position; otherwise nothing changes |
| ScalableImage.OnDoubleTap | app/src/main/java/com/akashi/customviews/views/ScalableImageView.kt:184-200 | always consumed; toggles small/big; zooming out changes nothing else; zooming in sets each offset to -(tap - centre)·(big/small - 1) and fixes them |
| ScalableImage.DoubleTapKeepsTappedPoint | app/src/main/java/com/akashi/customviews/views/ScalableImageView.kt:190-194 | when fixing clamps nothing, the picture point under the tap at the small scale is under the tap at the big scale |

## Left out

- Trigonometry (`sin`, `cos`, `Math.toRadians`) is the parameter `cosSin`; its values are not constrained.
- `measureText` and `breakText` are modelled as sums of per-character advances, with `breakText` measuring forward. Kerning, shaping and the `measureForwards` flag are not modelled. `getTextBounds` is an opaque parameter.
- Canvas, Paint, Path and RectF drawing are modelled as the list of operations a frame issues. Paint state (stroke or fill style, anti-aliasing, draw filter) is not modelled. `Paint.setAlpha` masking of out-of-range values is not modelled.
- `ObjectAnimator`, `OverScroller`, `GestureDetectorCompat`, `invalidate` and `postOnAnimation` are timing and framework behaviour. The animator is modelled as a record of its range, delay, duration, play time and running flag. The scroller's physics is the `position` argument of `Run`. The scale animator's direction is the `Zoom` result of `OnDoubleTap`.
- `onTouchEvent` and the trivial gesture callbacks (`onDown`, `onShowPress`, `onSingleTapUp`, `onLongPress`, `onSingleTapConfirmed`, `onDoubleTapEvent`) only return constants or forward to the framework.
- Conversions from dp and sp read display metrics. `TEXT_MIN_HEIGHT`, `OUTER_CIRCLE_MARGIN`, `STROKE_CAP_OVAL_RADIUS`, `MIN_SPACE_BETWEEN_TWO_LINES`, `LINE_LENGTH`, `MARGIN_SCREEN_EDGE` and the 40 dp overscroll are parameters.
- Colour resource lookup (`getOriginColor`) is the `resolveColor` parameter. The view's background colour reaching the disc and divider paints is not modelled.
- Bitmap decoding (`getBitmap`) is left out: the bitmap is its width and height.
- `generateLayoutParams` and the child margins of `measureChildWithMargins` are left out. The measured child sizes are the `measure` parameter, and they are non-negative.
- `CircleView`, `SquareImageView`, `Ext.kt`, `ApplicationExt.kt`, `Colors.kt`, `MainActivity` and the wiring of `PieViewActivity` are thin framework wrappers or UI plumbing. Only the demo data of `PieViewActivity` appears, as `PieLayout.DemoSpans`.
- The width and height of `PieView` use `Delegates.notNull`. Reading them before `onMeasure` throws, and the model does not represent that unset state: the view's size starts at 0.
- Strings are sequences of Unicode scalar values, while Kotlin's `length`, `substring` and `breakText` count UTF-16 code units. For a label with a character outside the Basic Multilingual Plane, the model's truncation point differs from the code's, and the code may split a surrogate pair before `"..."`, which the model cannot represent.
- Floating-point rounding, NaN and infinities are not modelled; all arithmetic is exact on reals. 32-bit overflow of `Int` expressions such as `measuredWidth * 89` is not modelled either.
- PieView.SetDrawingAngle: requires that the spans are contiguous as `setData` builds them. `mArcDataList` is written only by `setData`, so this always holds in the class. Under it, a span with zero sweep can never hold an angle, so the Float division by a zero sweep (which yields an infinity or NaN in Kotlin) is never reached.
- ScalableImage.OnDoubleTap: requires a non-zero small scale. In Kotlin, dividing by a zero small scale (before the first `onSizeChanged`, or for a zero-sized view) gives an infinity or NaN rather than an exception, and those values are not modelled.
- ScalableImage.DoubleTapKeepsTappedPoint: holds only when `fixOffsets` clamps neither offset. A clamped offset moves the tapped point by design.
- PieRender.StartRendering: states only the cache growth and the unprepared case. The exact operations of a frame are stated by its parts, `PieRender.RenderArc`, `PieRender.RenderLine` and `PieRender.RenderStatic`, and across frames by `PieRender.ArcFrameReplaysNext`.
