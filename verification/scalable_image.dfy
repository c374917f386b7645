/** `ScalableImageView`: a bitmap centred in the view, fitted to it at the small
    scale and enlarged past it at the big scale; a double tap toggles between
    the two (animated through a scale fraction from 0 to 1), and while enlarged
    the picture can be dragged and flung within limits.

    The animator and the fling physics (`OverScroller`) are outside the model:
    the scale fraction is a field the caller sets, and the scroller's current
    position is a parameter of `Run`.
 */
module ScalableImage {
  import opened Outcomes

  /** The extra enlargement past filling the view, so that the big picture can be dragged. */
  const ExtraScaleFactor: real := 1.5

  /** The view's state. `width`/`height` are the view's size, `bitmapWidth`/
      `bitmapHeight` the decoded bitmap's, `startX`/`startY` where the bitmap is
      drawn, `offsetX`/`offsetY` the drag offset at the big scale. */
  datatype ImageState = ImageState(
    width: int, height: int,
    bitmapWidth: int, bitmapHeight: int,
    startX: real, startY: real,
    offsetX: real, offsetY: real,
    smallScale: real, bigScale: real,
    scaleFraction: real,
    isSmallScaled: bool)

  /** The state after construction: no size yet, zero scales, shown small. */
  function Init(bitmapWidth: int, bitmapHeight: int): (s: ImageState)
    ensures s.isSmallScaled && s.scaleFraction == 0.0
    ensures s.offsetX == 0.0 && s.offsetY == 0.0 && s.smallScale == 0.0 && s.bigScale == 0.0
  {
    ImageState(0, 0, bitmapWidth, bitmapHeight, 0.0, 0.0, 0.0, 0.0, 0.0, 0.0, 0.0, true)
  }

  // ---------------------------------------------------------------------------
  // Size change
  // ---------------------------------------------------------------------------

  /** Whether `onSizeChanged` takes the landscape branch: the bitmap's aspect
      ratio exceeds the view's, both computed with `Int` division. A view of
      height 0 makes the division throw. */
  function IsWider(bitmapWidth: int, bitmapHeight: int, width: int, height: int): (r: Result<bool>)
    requires bitmapWidth > 0 && bitmapHeight > 0
    ensures r.Fail? <==> height == 0
    ensures r.Fail? ==> r.fault == DivisionByZero
    ensures height > 0 && width >= 0 ==> r == Ok(bitmapWidth / bitmapHeight > width / height)
  {
    if height == 0 then Fail(DivisionByZero)
    else Ok(TruncDiv(bitmapWidth, bitmapHeight) > TruncDiv(width, height))
  }

  /** `onSizeChanged`: centres the bitmap, then picks the scales. A bitmap judged
      wider than the view fills the view's width at the small scale and 1.5
      times its height at the big scale; otherwise the roles swap. */
  function OnSizeChanged(s: ImageState, w: nat, h: nat): (r: Result<ImageState>)
    requires s.bitmapWidth > 0 && s.bitmapHeight > 0
    ensures r.Fail? <==> h == 0
    ensures r.Ok? ==> var t := r.value;
      && t.width == w && t.height == h
      && 2.0 * t.startX + s.bitmapWidth as real == w as real
      && 2.0 * t.startY + s.bitmapHeight as real == h as real
      && (IsWider(s.bitmapWidth, s.bitmapHeight, w, h) == Ok(true) ==>
            && t.smallScale * s.bitmapWidth as real == w as real
            && t.bigScale * s.bitmapHeight as real == h as real * ExtraScaleFactor)
      && (IsWider(s.bitmapWidth, s.bitmapHeight, w, h) == Ok(false) ==>
            && t.smallScale * s.bitmapHeight as real == h as real
            && t.bigScale * s.bitmapWidth as real == w as real * ExtraScaleFactor)
      && t == s.(width := w, height := h, startX := t.startX, startY := t.startY,
                 smallScale := t.smallScale, bigScale := t.bigScale)
  {
    var startX := (w - s.bitmapWidth) as real / 2.0;
    var startY := (h - s.bitmapHeight) as real / 2.0;
    var wider :- IsWider(s.bitmapWidth, s.bitmapHeight, w, h);
    var bw := s.bitmapWidth as real;
    var bh := s.bitmapHeight as real;
    DivTimes(w as real, bw);
    DivTimes(h as real, bh);
    if wider then
      Ok(s.(width := w, height := h, startX := startX, startY := startY,
            smallScale := w as real / bw, bigScale := h as real / bh * ExtraScaleFactor))
    else
      Ok(s.(width := w, height := h, startX := startX, startY := startY,
            smallScale := h as real / bh, bigScale := w as real / bw * ExtraScaleFactor))
  }

  lemma DivTimes(x: real, y: real)
    requires y != 0.0
    ensures x / y * y == x
    ensures x / y * ExtraScaleFactor * y == x * ExtraScaleFactor
  {
  }

  /** A bitmap whose aspect ratio truly exceeds the view's is fitted to the
      view's width: at the small scale it spans the view's width and no more
      than its height. */
  lemma WiderRatioFitsWidth(s: ImageState, w: nat, h: nat)
    requires s.bitmapWidth > 0 && s.bitmapHeight > 0 && h > 0
    requires IsWider(s.bitmapWidth, s.bitmapHeight, w, h) == Ok(true)
    ensures var t := OnSizeChanged(s, w, h).value;
      t.smallScale * s.bitmapWidth as real == w as real
      && t.smallScale * s.bitmapHeight as real <= h as real
  {
    var bw := s.bitmapWidth;
    var bh := s.bitmapHeight;
    var t := OnSizeChanged(s, w, h).value;
    IntegerRatioOrder(bw, bh, w, h);
    assert t.smallScale == w as real / bw as real;
    ScaledBelow(w as real, bw as real, bh as real, h as real);
  }

  /** `bw / bh > w / h` in integer division implies `w * bh < bw * h`. */
  lemma IntegerRatioOrder(bw: nat, bh: nat, w: nat, h: nat)
    requires bw > 0 && bh > 0 && h > 0
    requires bw / bh > w / h
    ensures w * bh < bw * h
  {
    var q := bw / bh;
    var m := w / h;
    assert q >= m + 1;
    assert bw >= q * bh;
    assert w < (m + 1) * h;
    assert q * bh >= (m + 1) * bh by {
      MulMono(m + 1, q, bh);
    }
    assert w * bh < (m + 1) * h * bh by {
      MulStrict(w, (m + 1) * h, bh);
    }
    assert (m + 1) * h * bh == (m + 1) * bh * h;
    assert (m + 1) * bh * h <= bw * h by {
      MulMono((m + 1) * bh, bw, h);
    }
  }

  lemma MulMono(a: int, b: int, c: nat)
    requires a <= b
    ensures a * c <= b * c
  {
  }

  lemma MulStrict(a: int, b: int, c: nat)
    requires a < b && c > 0
    ensures a * c < b * c
  {
  }

  /** Dividing by the bitmap's width and scaling by its height keeps below `h`. */
  lemma ScaledBelow(w: real, bw: real, bh: real, h: real)
    requires bw > 0.0 && bh > 0.0 && w * bh <= bw * h
    ensures w / bw * bh <= h
  {
    assert w / bw * bh == (w * bh) / bw;
    assert (w * bh) / bw <= (bw * h) / bw;
    assert (bw * h) / bw == h;
  }

  /** The landscape test divides integers, so a bitmap a little wider than the
      view in proportion can be judged not wider: a 350x300 bitmap in a 1000x999
      view is fitted to the height, and at the small scale it is wider than the
      view. */
  lemma IntegerAspectTestOverflowsWidth()
    ensures var t := OnSizeChanged(Init(350, 300), 1000, 999).value;
      && 350 * 999 > 1000 * 300
      && IsWider(350, 300, 1000, 999) == Ok(false)
      && t.smallScale * 350.0 > 1000.0
  {
    var t := OnSizeChanged(Init(350, 300), 1000, 999).value;
    assert IsWider(350, 300, 1000, 999) == Ok(false);
    assert t.smallScale == 999.0 / 300.0;
  }

  // ---------------------------------------------------------------------------
  // Drawing
  // ---------------------------------------------------------------------------

  /** The canvas transform of one frame: a translation, then a uniform scale about
      the pivot, then the bitmap drawn at its start point. */
  datatype Transform = Transform(translateX: real, translateY: real, scale: real,
                                 pivotX: real, pivotY: real, bitmapX: real, bitmapY: real)

  /** `onDraw`: the translation is the drag offset times the scale fraction; the
      scale runs from the small scale (fraction 0) to the big scale (fraction 1)
      about the view's centre. */
  function OnDraw(s: ImageState): (t: Transform)
    ensures s.scaleFraction == 0.0 ==> t.scale == s.smallScale && t.translateX == 0.0 && t.translateY == 0.0
    ensures s.scaleFraction == 1.0 ==> t.scale == s.bigScale && t.translateX == s.offsetX && t.translateY == s.offsetY
    ensures 0.0 <= s.scaleFraction <= 1.0 ==>
      MinReal(s.smallScale, s.bigScale) <= t.scale <= MaxReal(s.smallScale, s.bigScale)
    ensures 2.0 * t.pivotX == s.width as real && 2.0 * t.pivotY == s.height as real
    ensures t.bitmapX == s.startX && t.bitmapY == s.startY
  {
    var scale := s.smallScale + (s.bigScale - s.smallScale) * s.scaleFraction;
    LerpBetween(s.smallScale, s.bigScale, s.scaleFraction);
    Transform(s.offsetX * s.scaleFraction, s.offsetY * s.scaleFraction, scale,
              s.width as real / 2.0, s.height as real / 2.0, s.startX, s.startY)
  }

  /** A point between `a` and `b` is between them. */
  lemma LerpBetween(a: real, b: real, f: real)
    ensures 0.0 <= f <= 1.0 ==> MinReal(a, b) <= a + (b - a) * f <= MaxReal(a, b)
  {
    if f < 0.0 || f > 1.0 {
    } else if a <= b {
      MulNonNegative(b - a, f);
      MulNonNegative(b - a, 1.0 - f);
      assert (b - a) * f + (b - a) * (1.0 - f) == b - a;
    } else {
      MulNonNegative(a - b, f);
      MulNonNegative(a - b, 1.0 - f);
      assert (a - b) * f + (a - b) * (1.0 - f) == a - b;
      assert (b - a) * f == -((a - b) * f);
    }
  }

  lemma MulNonNegative(x: real, y: real)
    requires x >= 0.0 && y >= 0.0
    ensures x * y >= 0.0
  {
  }

  /** Where a horizontal coordinate `x` of the unscaled picture lands on screen. */
  function ScreenX(t: Transform, x: real): real {
    t.translateX + t.pivotX + t.scale * (x - t.pivotX)
  }

  /** Where a vertical coordinate `y` of the unscaled picture lands on screen. */
  function ScreenY(t: Transform, y: real): real {
    t.translateY + t.pivotY + t.scale * (y - t.pivotY)
  }

  // ---------------------------------------------------------------------------
  // Offsets
  // ---------------------------------------------------------------------------

  /** How far the big picture reaches past the view on each side horizontally. */
  function LimitX(s: ImageState): real {
    (s.bitmapWidth as real * s.bigScale - s.width as real) / 2.0
  }

  /** How far the big picture reaches past the view on each side vertically. */
  function LimitY(s: ImageState): real {
    (s.bitmapHeight as real * s.bigScale - s.height as real) / 2.0
  }

  /** `fixOffsets`: the horizontal offset is clamped to at most `LimitX` and then
      to at least `-LimitX`; the vertical offset to at most `LimitY` and then to
      at least `-LimitX` (the horizontal limit, as the code reads). */
  function FixOffsets(s: ImageState): (r: ImageState)
    ensures r == s.(offsetX := r.offsetX, offsetY := r.offsetY)
    ensures LimitX(s) >= 0.0 ==> -LimitX(s) <= r.offsetX <= LimitX(s)
    ensures LimitX(s) >= 0.0 && -LimitX(s) <= s.offsetX <= LimitX(s) ==> r.offsetX == s.offsetX
    ensures LimitX(s) < 0.0 ==> r.offsetX == -LimitX(s)
    ensures r.offsetY >= -LimitX(s)
    ensures -LimitX(s) <= LimitY(s) ==> r.offsetY <= LimitY(s)
    ensures -LimitX(s) <= s.offsetY <= LimitY(s) ==> r.offsetY == s.offsetY
    ensures LimitX(s) >= 0.0 && s.offsetX > LimitX(s) ==> r.offsetX == LimitX(s)
    ensures s.offsetX < -LimitX(s) ==> r.offsetX == -LimitX(s)
    ensures -LimitX(s) <= LimitY(s) && s.offsetY > LimitY(s) ==> r.offsetY == LimitY(s)
    ensures s.offsetY < -LimitX(s) ==> r.offsetY == -LimitX(s)
  {
    var lx := LimitX(s);
    var ly := LimitY(s);
    var x := MaxReal(MinReal(s.offsetX, lx), -lx);
    var y := MaxReal(MinReal(s.offsetY, ly), -lx);
    s.(offsetX := x, offsetY := y)
  }

  /** Fixing twice is fixing once. */
  lemma FixOffsetsIdempotent(s: ImageState)
    ensures FixOffsets(FixOffsets(s)) == FixOffsets(s)
  {
    var r := FixOffsets(s);
    assert LimitX(r) == LimitX(s) && LimitY(r) == LimitY(s);
  }

  /** Because the vertical lower bound is the horizontal limit, a picture that
      reaches far past the view sideways but little vertically can be dragged
      further up than it reaches: with limits 100 and 10, an offset of -50 is
      kept. */
  lemma VerticalOffsetCanPassItsLimit()
    ensures var s := ImageState(100, 100, 100, 100, 0.0, 0.0, 0.0, -50.0, 1.0, 3.0, 1.0, false);
      && LimitX(s) == 100.0 && LimitY(s) == 100.0
      && FixOffsets(s).offsetY == -50.0
    ensures var s := ImageState(100, 180, 100, 100, 0.0, 0.0, 0.0, -50.0, 1.0, 3.0, 1.0, false);
      && LimitX(s) == 100.0 && LimitY(s) == 60.0
      && FixOffsets(s).offsetY == -50.0
    ensures var s := ImageState(100, 280, 100, 100, 0.0, 0.0, 0.0, -50.0, 1.0, 3.0, 1.0, false);
      && LimitX(s) == 100.0 && LimitY(s) == 10.0
      && FixOffsets(s).offsetY == -50.0 && FixOffsets(s).offsetY < -LimitY(s)
  {
  }

  // ---------------------------------------------------------------------------
  // Gestures
  // ---------------------------------------------------------------------------

  /** `onScroll`: ignored while the picture is small; otherwise the offsets move
      against the scroll distance and are fixed. The event is never consumed. */
  function OnScroll(s: ImageState, distanceX: real, distanceY: real): (r: (ImageState, bool))
    ensures !r.1
    ensures s.isSmallScaled ==> r.0 == s
    ensures !s.isSmallScaled ==> r.0 == FixOffsets(s.(offsetX := s.offsetX - distanceX, offsetY := s.offsetY - distanceY))
  {
    if s.isSmallScaled then (s, false)
    else
      var moved := s.(offsetX := s.offsetX - distanceX, offsetY := s.offsetY - distanceY);
      (FixOffsets(moved), false)
  }

  /** A scroll while enlarged keeps the horizontal offset within its limit. */
  lemma ScrollStaysWithinLimits(s: ImageState, distanceX: real, distanceY: real)
    requires !s.isSmallScaled && LimitX(s) >= 0.0
    ensures var r := OnScroll(s, distanceX, distanceY).0;
      -LimitX(s) <= r.offsetX <= LimitX(s) && r.offsetY >= -LimitX(s)
      && (-LimitX(s) <= LimitY(s) ==> r.offsetY <= LimitY(s))
  {
    var moved := s.(offsetX := s.offsetX - distanceX, offsetY := s.offsetY - distanceY);
    assert LimitX(moved) == LimitX(s) && LimitY(moved) == LimitY(s);
  }

  /** The arguments of `OverScroller.fling`: start position, velocity, the
      bounds and the overscroll distances, all truncated to `Int`. */
  datatype Fling = Fling(startX: int, startY: int, velocityX: int, velocityY: int,
                         minX: int, maxX: int, minY: int, maxY: int, overX: int, overY: int)

  /** `onFling`: ignored while small; otherwise a fling from the current offset
      bounded by the truncated limits on both sides, with `overscroll` (40 dp in
      pixels) of overscroll. The event is never consumed. */
  function OnFling(s: ImageState, velocityX: real, velocityY: real, overscroll: int): (r: (Option<Fling>, bool))
    ensures !r.1
    ensures r.0.None? <==> s.isSmallScaled
    ensures r.0.Some? ==> var f := r.0.value;
      && f.minX == -f.maxX && f.minY == -f.maxY
      && f.maxX == Trunc(LimitX(s)) && f.maxY == Trunc(LimitY(s))
      && (LimitX(s) >= 0.0 ==> f.maxX as real <= LimitX(s) < f.maxX as real + 1.0)
      && (LimitX(s) <= 0.0 ==> f.maxX as real - 1.0 < LimitX(s) <= f.maxX as real)
      && (LimitY(s) >= 0.0 ==> f.maxY as real <= LimitY(s) < f.maxY as real + 1.0)
      && (LimitY(s) <= 0.0 ==> f.maxY as real - 1.0 < LimitY(s) <= f.maxY as real)
      && (LimitX(s) >= 0.0 ==> f.maxX >= 0) && (LimitY(s) >= 0.0 ==> f.maxY >= 0)
      && f.startX == Trunc(s.offsetX) && f.startY == Trunc(s.offsetY)
      && f.velocityX == Trunc(velocityX) && f.velocityY == Trunc(velocityY)
      && f.overX == overscroll && f.overY == overscroll
  {
    if s.isSmallScaled then (None, false)
    else
      var absX := LimitX(s);
      var absY := LimitY(s);
      (Some(Fling(Trunc(s.offsetX), Trunc(s.offsetY), Trunc(velocityX), Trunc(velocityY),
                  -Trunc(absX), Trunc(absX), -Trunc(absY), Trunc(absY), overscroll, overscroll)), false)
  }

  /** `run`: while the scroller is still moving (`position` present), the
      offsets take its current position; otherwise nothing changes. */
  function Run(s: ImageState, position: Option<(int, int)>): (r: ImageState)
    ensures position.None? ==> r == s
    ensures position.Some? ==> r == s.(offsetX := position.value.0 as real, offsetY := position.value.1 as real)
  {
    match position
    case None => s
    case Some(p) => s.(offsetX := p.0 as real, offsetY := p.1 as real)
  }

  /** Which way the scale animator is sent by a double tap. */
  datatype Zoom = ZoomIn | ZoomOut

  /** `onDoubleTap` at (`x`, `y`): toggles between small and big. Zooming out
      reverses the animator and keeps the offsets; zooming in sets the offsets so
      that the tapped point stays put, fixes them, and starts the animator. The
      event is always consumed. The small scale must be non-zero (the code would
      divide by it). */
  function OnDoubleTap(s: ImageState, x: real, y: real): (r: (ImageState, Zoom, bool))
    requires s.smallScale != 0.0
    ensures r.2
    ensures r.0.isSmallScaled == !s.isSmallScaled
    ensures r.1 == ZoomOut <==> r.0.isSmallScaled
    ensures r.1 == ZoomOut ==> r.0 == s.(isSmallScaled := true)
    ensures r.1 == ZoomIn ==> r.0 == FixOffsets(s.(isSmallScaled := false,
      offsetX := TapOffset(x, s.width, s.bigScale / s.smallScale),
      offsetY := TapOffset(y, s.height, s.bigScale / s.smallScale)))
  {
    var toggled := s.(isSmallScaled := !s.isSmallScaled);
    if toggled.isSmallScaled then (toggled, ZoomOut, true)
    else
      var bigTimesSmall := s.bigScale / s.smallScale;
      var moved := toggled.(offsetX := TapOffset(x, s.width, bigTimesSmall),
                            offsetY := TapOffset(y, s.height, bigTimesSmall));
      (FixOffsets(moved), ZoomIn, true)
  }

  /** The offset that pulls the tapped coordinate back under the finger after an
      enlargement by `bigTimesSmall`: the tap's distance from the view's centre,
      times the extra enlargement, negated. */
  function TapOffset(tap: real, extent: int, bigTimesSmall: real): real {
    -(tap - extent as real / 2.0) * (bigTimesSmall - 1.0)
  }

  /** Zooming in about a tap keeps the tapped point of the picture under the
      finger: a picture point shown at the tap at scale fraction 0 is shown at
      the same place at fraction 1, as long as fixing the offsets clamps nothing. */
  lemma DoubleTapKeepsTappedPoint(s: ImageState, x: real, y: real, px: real, py: real)
    requires s.smallScale != 0.0 && s.isSmallScaled && s.scaleFraction == 0.0
    requires ScreenX(OnDraw(s), px) == x && ScreenY(OnDraw(s), py) == y
    requires var r := OnDoubleTap(s, x, y).0;
      r.offsetX == TapOffset(x, s.width, s.bigScale / s.smallScale)
      && r.offsetY == TapOffset(y, s.height, s.bigScale / s.smallScale)
    ensures var r := OnDoubleTap(s, x, y).0;
      ScreenX(OnDraw(r.(scaleFraction := 1.0)), px) == x
      && ScreenY(OnDraw(r.(scaleFraction := 1.0)), py) == y
  {
    var r := OnDoubleTap(s, x, y).0;
    assert r.width == s.width && r.height == s.height;
    assert r.smallScale == s.smallScale && r.bigScale == s.bigScale;
    TapStaysX(s, r, x, px);
    TapStaysY(s, r, y, py);
  }

  /** The horizontal half of the tap-centred zoom. */
  lemma TapStaysX(s: ImageState, r: ImageState, x: real, px: real)
    requires s.smallScale != 0.0 && s.scaleFraction == 0.0
    requires r.width == s.width && r.bigScale == s.bigScale && r.smallScale == s.smallScale
    requires r.offsetX == TapOffset(x, s.width, s.bigScale / s.smallScale)
    requires ScreenX(OnDraw(s), px) == x
    ensures ScreenX(OnDraw(r.(scaleFraction := 1.0)), px) == x
  {
    var t0 := OnDraw(s);
    assert t0.scale == s.smallScale && t0.translateX == 0.0 && t0.pivotX == s.width as real / 2.0;
    var t := OnDraw(r.(scaleFraction := 1.0));
    assert t.scale == s.bigScale && t.translateX == r.offsetX && t.pivotX == s.width as real / 2.0;
    ZoomKeepsPoint(s.smallScale, s.bigScale, s.width, px, x);
  }

  /** The vertical half of the tap-centred zoom. */
  lemma TapStaysY(s: ImageState, r: ImageState, y: real, py: real)
    requires s.smallScale != 0.0 && s.scaleFraction == 0.0
    requires r.height == s.height && r.bigScale == s.bigScale && r.smallScale == s.smallScale
    requires r.offsetY == TapOffset(y, s.height, s.bigScale / s.smallScale)
    requires ScreenY(OnDraw(s), py) == y
    ensures ScreenY(OnDraw(r.(scaleFraction := 1.0)), py) == y
  {
    var t0 := OnDraw(s);
    assert t0.scale == s.smallScale && t0.translateY == 0.0 && t0.pivotY == s.height as real / 2.0;
    var t := OnDraw(r.(scaleFraction := 1.0));
    assert t.scale == s.bigScale && t.translateY == r.offsetY && t.pivotY == s.height as real / 2.0;
    ZoomKeepsPoint(s.smallScale, s.bigScale, s.height, py, y);
  }

  /** The arithmetic behind the tap-centred zoom, on one axis. */
  lemma ZoomKeepsPoint(small: real, big: real, extent: int, p: real, tap: real)
    requires small != 0.0
    requires 0.0 + extent as real / 2.0 + small * (p - extent as real / 2.0) == tap
    ensures TapOffset(tap, extent, big / small) + extent as real / 2.0 + big * (p - extent as real / 2.0) == tap
  {
    var c := extent as real / 2.0;
    var d := p - c;
    assert tap - c == small * d;
    assert (tap - c) * (big / small) == small * d * (big / small);
    assert small * (big / small) == big;
    assert small * d * (big / small) == big * d;
  }
}
