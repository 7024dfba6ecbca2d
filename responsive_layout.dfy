/**
 * Breakpoint table and resize handling (src/useResponsiveLayout.ts).
 *
 * The viewport width selects one of six fixed layouts; a resize only
 * replaces the hook's state when the newly selected layout differs.
 */
module ResponsiveLayout {

  /** Card size in pixels, row spacing in pixels, horizontal band in percent, column count. */
  datatype Layout = Layout(cardWidth: int, cardHeight: int, verticalSpacing: int,
                           xMin: int, xMax: int, columns: int)

  /** `cardWidth * 4 / 3` rounded to the nearest integer (halves up): the 3:4 card shape. */
  function ThreeByFourHeight(cardWidth: nat): (h: nat)
    ensures 3 * h <= 4 * cardWidth + 1 && 4 * cardWidth <= 3 * h + 1
  {
    (8 * cardWidth + 3) / 6
  }

  /** `computeLayout`: the if-chain over the viewport width. */
  function ComputeLayout(width: int): (l: Layout)
    ensures l.columns == if width < 1024 then 1 else 2
    ensures 0 < l.cardWidth && l.cardHeight == ThreeByFourHeight(l.cardWidth)
    ensures 0 < l.verticalSpacing && 0 < l.xMin < l.xMax < 100
    ensures l.columns == 2 ==> l.xMax - l.xMin >= 30
  {
    if width < 480 then
      Layout(180, 240, 360, 25, 75, 1)
    else if width < 640 then
      Layout(200, 267, 397, 22, 78, 1)
    else if width < 768 then
      Layout(220, 293, 423, 20, 80, 1)
    else if width < 1024 then
      Layout(250, 333, 483, 15, 85, 1)
    else if width < 1440 then
      Layout(300, 400, 470, 20, 80, 2)
    else
      Layout(340, 453, 523, 18, 82, 2)
  }

  /** Index of the width band that `width` falls in: [0,480) is 0, …, [1440,∞) is 5. */
  function Band(width: int): (b: nat)
    ensures b <= 5
  {
    if width < 480 then 0
    else if width < 640 then 1
    else if width < 768 then 2
    else if width < 1024 then 3
    else if width < 1440 then 4
    else 5
  }

  /** The layout is piecewise constant: two widths share a layout exactly when they share a band. */
  lemma LayoutConstantOnBands(w: int, w': int)
    ensures ComputeLayout(w) == ComputeLayout(w') <==> Band(w) == Band(w')
  {
  }

  /** Wider viewports never get smaller cards. */
  lemma CardWidthMonotone(w: int, w': int)
    requires w <= w'
    ensures ComputeLayout(w).cardWidth <= ComputeLayout(w').cardWidth
  {
  }

  /** One row of the breakpoint table in the hook's doc comment: below `below` (or with no bound) use `layout`. */
  datatype Breakpoint = Breakpoint(below: int, bounded: bool, layout: Layout)

  /**
   * The documented table, ascending, last entry open-ended. The comment lists
   * sizes, spacings and bands only; the column counts are those of the if-chain.
   */
  const DOCUMENTED_BREAKPOINTS: seq<Breakpoint> := [
    Breakpoint(480, true, Layout(180, 240, 360, 25, 75, 1)),
    Breakpoint(640, true, Layout(200, 267, 397, 22, 78, 1)),
    Breakpoint(768, true, Layout(220, 293, 423, 20, 80, 1)),
    Breakpoint(1024, true, Layout(250, 333, 483, 15, 85, 1)),
    Breakpoint(1440, true, Layout(300, 400, 470, 20, 80, 2)),
    Breakpoint(0, false, Layout(340, 453, 523, 18, 82, 2))
  ]

  /** Table lookup: the first row whose bound exceeds `width`, or the open-ended row. */
  function Lookup(table: seq<Breakpoint>, width: int): (l: Layout)
    requires |table| > 0 && !table[|table| - 1].bounded
    ensures exists k :: 0 <= k < |table| && l == table[k].layout
  {
    if !table[0].bounded || width < table[0].below then table[0].layout
    else
      var l := Lookup(table[1..], width);
      assert forall k :: 0 <= k < |table| - 1 ==> table[1..][k] == table[k + 1];
      l
  }

  /** The if-chain agrees with the documented table at every width. */
  lemma {:induction false} ComputeLayoutMatchesTable(width: int)
    ensures ComputeLayout(width) == Lookup(DOCUMENTED_BREAKPOINTS, width)
  {
    var t0 := DOCUMENTED_BREAKPOINTS;
    var t1 := t0[1..];
    var t2 := t1[1..];
    var t3 := t2[1..];
    var t4 := t3[1..];
    var t5 := t4[1..];
    assert t5 == [Breakpoint(0, false, Layout(340, 453, 523, 18, 82, 2))];
    if width >= 480 {
      assert Lookup(t0, width) == Lookup(t1, width);
      if width >= 640 {
        assert Lookup(t1, width) == Lookup(t2, width);
        if width >= 768 {
          assert Lookup(t2, width) == Lookup(t3, width);
          if width >= 1024 {
            assert Lookup(t3, width) == Lookup(t4, width);
            if width >= 1440 {
              assert Lookup(t4, width) == Lookup(t5, width);
            }
          }
        }
      }
    }
  }

  /** What the `setLayout` updater does with the previous state. */
  datatype LayoutUpdate = Keep | Replace(next: Layout)

  /** The state after React applies an update. */
  function Apply(prev: Layout, u: LayoutUpdate): Layout {
    match u
    case Keep => prev
    case Replace(next) => next
  }

  /**
   * The updater inside `handleResize`: keep the previous object when all six
   * fields equal the freshly computed layout, otherwise replace it.
   */
  function ResizeUpdater(prev: Layout, width: int): (u: LayoutUpdate)
    ensures u.Keep? <==> prev == ComputeLayout(width)
    ensures Apply(prev, u) == ComputeLayout(width)
  {
    var next := ComputeLayout(width);
    if prev.cardWidth == next.cardWidth &&
       prev.cardHeight == next.cardHeight &&
       prev.verticalSpacing == next.verticalSpacing &&
       prev.xMin == next.xMin &&
       prev.xMax == next.xMax &&
       prev.columns == next.columns
    then Keep
    else Replace(next)
  }

  /** Running the updater twice for the same width changes nothing the second time. */
  lemma ResizeIdempotent(prev: Layout, width: int)
    ensures ResizeUpdater(Apply(prev, ResizeUpdater(prev, width)), width) == Keep
  {
  }

  /**
   * The hook's state. `replacements` counts how often the state was replaced
   * by a new object, i.e. how many re-renders resizing caused.
   */
  class LayoutHook {
    var layout: Layout
    var replacements: nat

    /** Initial state: the layout for the width at mount time. */
    constructor (width: int)
      ensures layout == ComputeLayout(width) && replacements == 0
    {
      layout := ComputeLayout(width);
      replacements := 0;
    }

    /** `handleResize`: the state follows the viewport, and only a different layout causes a re-render. */
    method HandleResize(width: int)
      modifies this
      ensures layout == ComputeLayout(width)
      ensures replacements == old(replacements) + if old(layout) == ComputeLayout(width) then 0 else 1
    {
      var u := ResizeUpdater(layout, width);
      match u
      case Keep =>
      case Replace(next) =>
        layout := next;
        replacements := replacements + 1;
    }
  }
}
