/** `TagLayout`: a view group that flows its children left to right and wraps to a
    new row when the next child would pass the width it was offered.

    Measuring a child is a parameter: `measure(i, heightUsed)` is the size child
    `i` reports when measured with `heightUsed` already taken (the layout may
    measure a child twice, the second time after a wrap, so its size may depend
    on the height used so far). Measured sizes are never negative.
 */
module TagLayout {
  import opened Outcomes

  /** An integer rectangle (Android `Rect`). */
  datatype Rect = Rect(left: int, top: int, right: int, bottom: int)

  /** The mode of a width measure spec. */
  datatype Mode = Unspecified | Exactly | AtMost

  /** The width the parent offers and how binding it is. */
  datatype WidthSpec = WidthSpec(size: nat, mode: Mode)

  /** A child's measured width and height. */
  datatype Size = Size(width: nat, height: nat)

  /** The running totals of the measuring loop: the widest row so far, the height
      of the finished rows, the width taken in the current row and the tallest
      child in it. */
  datatype Cursor = Cursor(widthUsed: nat, heightUsed: nat, lineWidthUsed: nat, lineMaxHeight: nat)

  function MaxNat(a: nat, b: nat): nat {
    if a >= b then a else b
  }

  /** The rightmost edge of `rs`, or 0 when there is none. */
  function MaxRight(rs: seq<Rect>): int {
    if |rs| == 0 then 0 else MaxInt(MaxRight(rs[..|rs| - 1]), rs[|rs| - 1].right)
  }

  /** The lowest edge of `rs`, or 0 when there is none. */
  function MaxBottom(rs: seq<Rect>): int {
    if |rs| == 0 then 0 else MaxInt(MaxBottom(rs[..|rs| - 1]), rs[|rs| - 1].bottom)
  }

  /** Two rectangles share no interior point. */
  predicate Disjoint(a: Rect, b: Rect) {
    a.right <= b.left || b.right <= a.left || a.bottom <= b.top || b.bottom <= a.top
  }

  /** Whether child `index`, measured first at the current height, starts a new
      row: it would pass the offered width, and the width is not unspecified. */
  predicate Wraps(c: Cursor, index: nat, spec: WidthSpec, measure: (nat, int) -> Size) {
    c.lineWidthUsed + measure(index, c.heightUsed).width > spec.size && spec.mode != Unspecified
  }

  /** One pass of the measuring loop for child `index`: measure it at the height
      used so far; wrap if needed (reset the row, add the row's height, measure
      again); place the child at the row's current end; and update the totals. */
  function Place(c: Cursor, index: nat, spec: WidthSpec, measure: (nat, int) -> Size): (r: (Cursor, Rect))
    ensures Wraps(c, index, spec, measure) ==>
      r.1.left == 0 && r.1.top == c.heightUsed + c.lineMaxHeight
    ensures !Wraps(c, index, spec, measure) ==>
      r.1.left == c.lineWidthUsed && r.1.top == c.heightUsed
    ensures var sz := measure(index, r.1.top);
      r.1.right == r.1.left + sz.width && r.1.bottom == r.1.top + sz.height
    ensures spec.mode != Unspecified ==> r.1.right <= spec.size || r.1.left == 0
    ensures r.0.heightUsed == r.1.top && r.0.lineWidthUsed == r.1.right
  {
    var wrap := Wraps(c, index, spec, measure);
    var c1 := if wrap then c.(lineWidthUsed := 0, heightUsed := c.heightUsed + c.lineMaxHeight, lineMaxHeight := 0) else c;
    var sz := measure(index, c1.heightUsed);
    var rect := Rect(c1.lineWidthUsed, c1.heightUsed, c1.lineWidthUsed + sz.width, c1.heightUsed + sz.height);
    var lineWidth := c1.lineWidthUsed + sz.width;
    (Cursor(MaxNat(c1.widthUsed, lineWidth), c1.heightUsed, lineWidth, MaxNat(c1.lineMaxHeight, sz.height)), rect)
  }

  /** What the loop keeps true of the rectangles placed so far: each lies in the
      positive quadrant and within the current totals, finished rows lie above the
      current row, the current row ends where the last child ends, the totals are
      the extreme edges, and no two children overlap. */
  ghost predicate Placed(c: Cursor, rs: seq<Rect>) {
    && (forall i :: 0 <= i < |rs| ==>
          && 0 <= rs[i].left <= rs[i].right && 0 <= rs[i].top <= rs[i].bottom
          && rs[i].bottom <= c.heightUsed + c.lineMaxHeight
          && (rs[i].bottom <= c.heightUsed || rs[i].right <= c.lineWidthUsed))
    && (|rs| > 0 ==> rs[|rs| - 1].right == c.lineWidthUsed && rs[|rs| - 1].top == c.heightUsed)
    && (|rs| == 0 ==> c == Cursor(0, 0, 0, 0))
    && c.widthUsed == MaxRight(rs)
    && c.heightUsed + c.lineMaxHeight == MaxBottom(rs)
    && (forall i, j :: 0 <= i < j < |rs| ==> Disjoint(rs[i], rs[j]))
  }

  /** The totals and rectangles after the loop has run over children `0..n-1`. */
  function Flow(n: nat, spec: WidthSpec, measure: (nat, int) -> Size): (r: (Cursor, seq<Rect>))
    ensures |r.1| == n
  {
    if n == 0 then (Cursor(0, 0, 0, 0), [])
    else
      var prev := Flow(n - 1, spec, measure);
      var next := Place(prev.0, n - 1, spec, measure);
      (next.0, prev.1 + [next.1])
  }

  /** One more child: the loop over `n + 1` children is the loop over `n` followed
      by one pass for child `n`. */
  lemma FlowStep(n: nat, spec: WidthSpec, measure: (nat, int) -> Size)
    ensures var prev := Flow(n, spec, measure);
      var next := Place(prev.0, n, spec, measure);
      Flow(n + 1, spec, measure) == (next.0, prev.1 + [next.1])
  {
  }

  /** The loop keeps `Placed` from the start. */
  lemma {:induction false} FlowPlaced(n: nat, spec: WidthSpec, measure: (nat, int) -> Size)
    ensures Placed(Flow(n, spec, measure).0, Flow(n, spec, measure).1)
  {
    if n > 0 {
      FlowPlaced(n - 1, spec, measure);
      var prev := Flow(n - 1, spec, measure);
      PlaceKeepsPlaced(prev.0, prev.1, n - 1, spec, measure);
    }
  }

  /** The loop's totals are the extreme edges of the children it placed. */
  lemma FlowTotals(n: nat, spec: WidthSpec, measure: (nat, int) -> Size)
    ensures var r := Flow(n, spec, measure);
      r.0.widthUsed == MaxRight(r.1) && r.0.heightUsed + r.0.lineMaxHeight == MaxBottom(r.1)
  {
    FlowPlaced(n, spec, measure);
  }

  /** The current row ends where the last placed child ends; before any child
      the totals are all zero. */
  lemma FlowLast(n: nat, spec: WidthSpec, measure: (nat, int) -> Size)
    ensures var r := Flow(n, spec, measure);
      && (n > 0 ==> r.1[n - 1].right == r.0.lineWidthUsed && r.1[n - 1].top == r.0.heightUsed)
      && (n == 0 ==> r.0 == Cursor(0, 0, 0, 0))
  {
    if n > 0 {
      FlowStep(n - 1, spec, measure);
    }
  }

  /** Placing one more child keeps `Placed`. */
  lemma PlaceKeepsPlaced(c: Cursor, rs: seq<Rect>, index: nat, spec: WidthSpec, measure: (nat, int) -> Size)
    requires Placed(c, rs)
    ensures var next := Place(c, index, spec, measure);
      Placed(next.0, rs + [next.1])
  {
    var next := Place(c, index, spec, measure);
    var wrap := Wraps(c, index, spec, measure);
    var c1 := if wrap then c.(lineWidthUsed := 0, heightUsed := c.heightUsed + c.lineMaxHeight, lineMaxHeight := 0) else c;
    var nr := next.1;
    var rs' := rs + [nr];
    assert nr.top == c1.heightUsed && nr.left == c1.lineWidthUsed;
    assert forall i :: 0 <= i < |rs| ==> rs[i].bottom <= c1.heightUsed || rs[i].right <= c1.lineWidthUsed;
    assert rs'[..|rs|] == rs;
    assert MaxRight(rs') == MaxInt(MaxRight(rs), nr.right);
    assert MaxBottom(rs') == MaxInt(MaxBottom(rs), nr.bottom);
    forall i, j | 0 <= i < j < |rs'| ensures Disjoint(rs'[i], rs'[j]) {
      if j == |rs| {
        assert rs[i].bottom <= nr.top || rs[i].right <= nr.left;
      } else {
        assert rs'[i] == rs[i] && rs'[j] == rs[j];
      }
    }
  }

  /** The children placed by the loop over `n` children begin with those placed by
      the loop over fewer: a child's position depends only on the children before it. */
  lemma {:induction false} FlowPrefix(m: nat, n: nat, spec: WidthSpec, measure: (nat, int) -> Size)
    requires m <= n
    ensures Flow(n, spec, measure).1[..m] == Flow(m, spec, measure).1
    decreases n
  {
    if m < n {
      FlowPrefix(m, n - 1, spec, measure);
      var rs := Flow(n, spec, measure).1;
      assert rs[..n - 1] == Flow(n - 1, spec, measure).1;
      assert rs[..m] == rs[..n - 1][..m];
    } else {
      assert Flow(n, spec, measure).1[..n] == Flow(n, spec, measure).1;
    }
  }

  /** `onMeasure`: runs the loop over the `childCount` children, writes child `i`'s
      rectangle into slot `i` of the bounds list (growing the list by one slot when
      it is too short; slots past the children are left as they were), and reports
      the widest row as the width and the finished rows plus the current row's
      tallest child as the height. */
  method OnMeasure(bounds: seq<Rect>, childCount: nat, spec: WidthSpec, measure: (nat, int) -> Size)
    returns (width: nat, height: nat, newBounds: seq<Rect>)
    ensures |newBounds| == MaxNat(|bounds|, childCount)
    ensures newBounds[..childCount] == Flow(childCount, spec, measure).1
    ensures newBounds[childCount..] == if childCount <= |bounds| then bounds[childCount..] else []
    ensures width == MaxRight(newBounds[..childCount])
    ensures height == MaxBottom(newBounds[..childCount])
  {
    var c := Cursor(0, 0, 0, 0);
    newBounds := bounds;
    var index := 0;
    while index < childCount
      invariant 0 <= index <= childCount
      invariant c == Flow(index, spec, measure).0
      invariant |newBounds| == MaxNat(|bounds|, index)
      invariant newBounds[..index] == Flow(index, spec, measure).1
      invariant index <= |bounds| ==> newBounds[index..] == bounds[index..]
    {
      var next := Place(c, index, spec, measure);
      if |newBounds| <= index {
        newBounds := newBounds + [Rect(0, 0, 0, 0)];
      }
      ghost var before := newBounds;
      newBounds := newBounds[index := next.1];
      UpdateSlot(before, index, next.1);
      c := next.0;
      FlowStep(index, spec, measure);
      index := index + 1;
    }
    assert index == childCount;
    ghost var rs := Flow(childCount, spec, measure).1;
    assert newBounds[..childCount] == rs;
    if childCount > |bounds| {
      assert |newBounds| == childCount;
      assert newBounds[childCount..] == [];
    }
    FlowTotals(childCount, spec, measure);
    width := c.widthUsed;
    height := c.heightUsed + c.lineMaxHeight;
  }

  /** Writing slot `i` leaves the slots before and after it as they were. */
  lemma UpdateSlot(s: seq<Rect>, i: nat, x: Rect)
    requires i < |s|
    ensures s[i := x][..i + 1] == s[..i] + [x]
    ensures s[i := x][i + 1..] == s[i + 1..]
  {
  }

  /** `onLayout`: lays child `i` out at slot `i` of the bounds list; a list shorter
      than the child count throws `IndexOutOfBoundsException`. */
  function OnLayout(bounds: seq<Rect>, childCount: nat): (r: Result<seq<Rect>>)
    ensures r.Fail? <==> childCount > |bounds|
    ensures r.Fail? ==> r.fault == IndexOutOfBounds
    ensures r.Ok? ==> |r.value| == childCount && forall i :: 0 <= i < childCount ==> r.value[i] == bounds[i]
  {
    if childCount <= |bounds| then Ok(bounds[..childCount])
    else Fail(IndexOutOfBounds)
  }

  // ---------------------------------------------------------------------------
  // Properties of a measured layout
  // ---------------------------------------------------------------------------

  /** Measuring and then laying out the same children never throws, and places
      every child where the measuring pass put it. */
  method MeasureThenLayout(bounds: seq<Rect>, childCount: nat, spec: WidthSpec, measure: (nat, int) -> Size)
    returns (placed: seq<Rect>)
    ensures placed == Flow(childCount, spec, measure).1
  {
    var _, _, nb := OnMeasure(bounds, childCount, spec, measure);
    var r := OnLayout(nb, childCount);
    assert r == Ok(nb[..childCount]);
    placed := r.value;
  }

  /** Child `i` after child `i - 1`: when child `i`, measured at the row's height,
      would pass the offered width (and the width is bounded), it starts a new row
      at the left edge below everything placed so far, and is measured again
      there; otherwise it continues the row at the previous child's right edge,
      with the size of its first measurement. */
  lemma RowBreakRule(n: nat, i: nat, spec: WidthSpec, measure: (nat, int) -> Size)
    requires 0 < i < n
    ensures var rs := Flow(n, spec, measure).1;
      var first := measure(i, rs[i - 1].top);
      if rs[i - 1].right + first.width > spec.size && spec.mode != Unspecified then
        && rs[i].left == 0
        && rs[i].top == MaxBottom(rs[..i])
        && rs[i].right == measure(i, rs[i].top).width
        && rs[i].bottom == rs[i].top + measure(i, rs[i].top).height
      else
        rs[i] == Rect(rs[i - 1].right, rs[i - 1].top, rs[i - 1].right + first.width, rs[i - 1].top + first.height)
  {
    FlowPrefix(i + 1, n, spec, measure);
    FlowPrefix(i, n, spec, measure);
    FlowPlaced(i, spec, measure);
    FlowStep(i, spec, measure);
    var rs := Flow(n, spec, measure).1;
    var prev := Flow(i, spec, measure);
    assert rs[i] == Flow(i + 1, spec, measure).1[i];
    assert Flow(i + 1, spec, measure).1[i] == Place(prev.0, i, spec, measure).1;
    assert rs[..i] == prev.1;
    assert rs[i - 1] == prev.1[i - 1];
  }

  /** No two children overlap. */
  lemma ChildrenDoNotOverlap(n: nat, spec: WidthSpec, measure: (nat, int) -> Size)
    ensures var rs := Flow(n, spec, measure).1;
      forall i, j :: 0 <= i < j < n ==> Disjoint(rs[i], rs[j])
  {
    FlowPlaced(n, spec, measure);
  }

  /** With a bounded width, a child passes the offered width only when it is the
      first of its row (a child wider than the parent is still placed). */
  lemma {:induction false} RowsFitWidth(n: nat, spec: WidthSpec, measure: (nat, int) -> Size)
    requires spec.mode != Unspecified
    ensures var rs := Flow(n, spec, measure).1;
      forall i :: 0 <= i < n ==> rs[i].right <= spec.size || rs[i].left == 0
  {
    if n > 0 {
      RowsFitWidth(n - 1, spec, measure);
      var prev := Flow(n - 1, spec, measure);
      assert var rs := Flow(n - 1, spec, measure).1;
        forall i :: 0 <= i < n - 1 ==> rs[i].right <= spec.size || rs[i].left == 0;
      assert forall i :: 0 <= i < n - 1 ==> prev.1[i].right <= spec.size || prev.1[i].left == 0;
      var last := Place(prev.0, n - 1, spec, measure).1;
      var rs := Flow(n, spec, measure).1;
      assert rs == prev.1 + [last];
      assert last.right <= spec.size || last.left == 0;
      forall i | 0 <= i < n ensures rs[i].right <= spec.size || rs[i].left == 0 {
        if i < n - 1 {
          assert rs[i] == prev.1[i];
          assert prev.1[i].right <= spec.size || prev.1[i].left == 0;
        } else {
          assert rs[i] == last;
        }
      }
    }
  }

  /** With an unspecified width nothing wraps: all children sit in one row at the
      top, each starting where the one before ends. */
  lemma {:induction false} UnspecifiedIsOneRow(n: nat, spec: WidthSpec, measure: (nat, int) -> Size)
    requires spec.mode == Unspecified
    ensures var rs := Flow(n, spec, measure).1;
      && (forall i :: 0 <= i < n ==> rs[i].top == 0)
      && (n > 0 ==> rs[0].left == 0)
      && (forall i :: 0 < i < n ==> rs[i].left == rs[i - 1].right)
  {
    if n > 0 {
      UnspecifiedIsOneRow(n - 1, spec, measure);
      var prev := Flow(n - 1, spec, measure);
      assert var rs := Flow(n - 1, spec, measure).1;
        && (forall i :: 0 <= i < n - 1 ==> rs[i].top == 0)
        && (forall i :: 0 < i < n - 1 ==> rs[i].left == rs[i - 1].right);
      FlowLast(n - 1, spec, measure);
      var last := Place(prev.0, n - 1, spec, measure).1;
      var rs := Flow(n, spec, measure).1;
      assert rs == prev.1 + [last];
      assert !Wraps(prev.0, n - 1, spec, measure);
      assert last.left == prev.0.lineWidthUsed && last.top == prev.0.heightUsed;
      assert prev.0.heightUsed == 0 by {
        if n - 1 > 0 {
          assert prev.1[n - 2].top == prev.0.heightUsed;
        }
      }
      forall i | 0 <= i < n - 1 ensures rs[i] == prev.1[i] { }
    }
  }

  /** The measured size encloses every child and is as small as that: the width
      is the rightmost edge and the height the lowest edge of any child. */
  lemma MeasuredSizeIsTight(n: nat, spec: WidthSpec, measure: (nat, int) -> Size)
    ensures var r := Flow(n, spec, measure);
      && r.0.widthUsed == MaxRight(r.1)
      && r.0.heightUsed + r.0.lineMaxHeight == MaxBottom(r.1)
      && forall i :: 0 <= i < n ==> r.1[i].right <= r.0.widthUsed && r.1[i].bottom <= MaxBottom(r.1)
  {
    var r := Flow(n, spec, measure);
    FlowTotals(n, spec, measure);
    MaxEdgesBound(r.1);
  }

  /** `MaxRight` and `MaxBottom` bound every rectangle. */
  lemma {:induction false} MaxEdgesBound(rs: seq<Rect>)
    ensures forall i :: 0 <= i < |rs| ==> rs[i].right <= MaxRight(rs) && rs[i].bottom <= MaxBottom(rs)
  {
    if |rs| > 0 {
      var init := rs[..|rs| - 1];
      MaxEdgesBound(init);
      forall i | 0 <= i < |rs| - 1 ensures rs[i] == init[i] { }
    }
  }

  /** A worked example: a 100-wide parent, three 40x10 tags. Two fit in the first
      row; the third wraps to (0, 10). */
  lemma ThreeTagsWrapOnce()
    ensures var rs := Flow(3, WidthSpec(100, AtMost), (i: nat, h: int) => Size(40, 10)).1;
      rs == [Rect(0, 0, 40, 10), Rect(40, 0, 80, 10), Rect(0, 10, 40, 20)]
  {
    var spec := WidthSpec(100, AtMost);
    var m := (i: nat, h: int) => Size(40, 10);
    var c1 := Cursor(40, 0, 40, 10);
    var c2 := Cursor(80, 0, 80, 10);
    assert Flow(0, spec, m) == (Cursor(0, 0, 0, 0), []);
    assert Place(Cursor(0, 0, 0, 0), 0, spec, m) == (c1, Rect(0, 0, 40, 10));
    FlowStep(0, spec, m);
    assert Flow(1, spec, m).0 == c1;
    assert Flow(1, spec, m).1 == [Rect(0, 0, 40, 10)];
    assert Place(c1, 1, spec, m) == (c2, Rect(40, 0, 80, 10));
    FlowStep(1, spec, m);
    assert Flow(2, spec, m).0 == c2;
    assert Flow(2, spec, m).1 == [Rect(0, 0, 40, 10), Rect(40, 0, 80, 10)];
    FlowStep(2, spec, m);
    assert Wraps(c2, 2, spec, m);
    assert Place(c2, 2, spec, m).1 == Rect(0, 10, 40, 20);
  }
}
