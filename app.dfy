/**
 * The top-level view (src/App.tsx): keeps the card positions in step with
 * the responsive layout and sizes the container to hold every card.
 */
module App {
  import opened Types
  import opened Random
  import opened Positions
  import opened ResponsiveLayout

  /** Pixels of empty space below the last card. */
  const BOTTOM_PADDING: real := 200.0

  /** `currentOptions`: the four layout fields positions depend on. */
  function OptionsOf(l: Layout): (o: PositionOptions)
    ensures o.columns == l.columns
    ensures o.xMax - o.xMin == (l.xMax - l.xMin) as real
  {
    PositionOptions(l.verticalSpacing as real, l.xMin as real, l.xMax as real, l.columns)
  }

  /** Every layout of the breakpoint table gives column zones of positive width. */
  lemma {:induction false} LayoutZonesProper(width: int)
    ensures ZonesProper(OptionsOf(ComputeLayout(width)))
  {
    var o := OptionsOf(ComputeLayout(width));
    var zones := ColumnRanges(o.xMin, o.xMax, o.columns);
    assert forall z :: z in zones ==> z == zones[0] || z == zones[|zones| - 1];
  }

  /** Cards differing only in size give the same options. */
  lemma CardSizeIrrelevant(l: Layout, l': Layout)
    requires l.verticalSpacing == l'.verticalSpacing && l.xMin == l'.xMin
    requires l.xMax == l'.xMax && l.columns == l'.columns
    ensures OptionsOf(l) == OptionsOf(l')
  {
  }

  /** The remembered options and the positions state. */
  datatype Gate = Gate(prevOptions: PositionOptions, positions: seq<CardPosition>)

  /**
   * `mappedPositions`: unchanged positions while the four options match the
   * remembered ones; otherwise the remapped positions, which also become the
   * new state together with the current options. `rs` are the draws a
   * regeneration would use.
   */
  function MapPositions(g: Gate, current: PositionOptions, rs: seq<real>): (r: (Gate, seq<CardPosition>))
    requires current.columns <= 2 && |rs| == |g.positions|
    ensures |r.1| == |g.positions| && r.0.positions == r.1
    ensures g.prevOptions == current ==> r == (g, g.positions)
    ensures g.prevOptions != current ==>
              r.0.prevOptions == current && r.1 == RemapPositions(g.positions, g.prevOptions, current, rs)
  {
    var prev := g.prevOptions;
    if prev.verticalSpacing == current.verticalSpacing &&
       prev.xMin == current.xMin &&
       prev.xMax == current.xMax &&
       prev.columns == current.columns
    then (g, g.positions)
    else
      var remapped := RemapPositions(g.positions, prev, current, rs);
      (Gate(current, remapped), remapped)
  }

  /** Evaluating the gate again with the same options changes nothing. */
  lemma {:induction false} MapPositionsStable(g: Gate, current: PositionOptions, rs: seq<real>, rs': seq<real>)
    requires current.columns <= 2 && |rs| == |g.positions| && |rs'| == |g.positions|
    ensures var (g', mapped) := MapPositions(g, current, rs);
            MapPositions(g', current, rs') == (g', mapped)
  {
    var (g', mapped) := MapPositions(g, current, rs);
    assert g'.prevOptions == current;
  }

  /** A change of card size alone never remaps. */
  lemma CardSizeChangeKeepsPositions(g: Gate, l: Layout, l': Layout, rs: seq<real>)
    requires l'.columns <= 2 && |rs| == |g.positions| && g.prevOptions == OptionsOf(l)
    requires l.verticalSpacing == l'.verticalSpacing && l.xMin == l'.xMin
    requires l.xMax == l'.xMax && l.columns == l'.columns
    ensures MapPositions(g, OptionsOf(l'), rs) == (g, g.positions)
  {
    CardSizeIrrelevant(l, l');
  }

  /** The state is in the remembered layout. */
  predicate GateValid(g: Gate) {
    g.prevOptions.columns <= 2 && InLayout(g.positions, g.prevOptions)
  }

  /**
   * Whatever the viewport does, the gate hands out positions in the current
   * layout and keeps its state in the layout it remembers.
   */
  lemma {:induction false} MapPositionsInLayout(g: Gate, width: int, rs: seq<real>)
    requires GateValid(g) && |rs| == |g.positions| && AllUnit(rs)
    ensures var current := OptionsOf(ComputeLayout(width));
            var (g', mapped) := MapPositions(g, current, rs);
            GateValid(g') && g'.prevOptions == current && InLayout(mapped, current)
  {
    var current := OptionsOf(ComputeLayout(width));
    LayoutZonesProper(width);
    if g.prevOptions != current {
      RemapInLayout(g.positions, g.prevOptions, current, rs);
    }
  }

  /** `containerHeight`: the last card's y (0 without cards) plus a card and the bottom padding. */
  function ContainerHeight(mapped: seq<CardPosition>, cardHeight: real): (h: real)
    ensures |mapped| == 0 ==> h == cardHeight + BOTTOM_PADDING
    ensures |mapped| > 0 ==> h - BOTTOM_PADDING - cardHeight == mapped[|mapped| - 1].y
  {
    var lastY := if |mapped| > 0 then mapped[|mapped| - 1].y else 0.0;
    lastY + cardHeight + BOTTOM_PADDING
  }

  /** In a layout with non-negative spacing every card ends at least BOTTOM_PADDING above the container's bottom. */
  lemma {:induction false} ContainerHoldsEveryCard(mapped: seq<CardPosition>, options: PositionOptions, cardHeight: real)
    requires options.columns <= 2 && 0.0 <= options.verticalSpacing && InLayout(mapped, options)
    ensures forall i :: 0 <= i < |mapped| ==>
              mapped[i].y + cardHeight + BOTTOM_PADDING <= ContainerHeight(mapped, cardHeight)
  {
    forall i | 0 <= i < |mapped|
      ensures mapped[i].y + cardHeight + BOTTOM_PADDING <= ContainerHeight(mapped, cardHeight)
    {
      YMonotoneInIndex(i, |mapped| - 1, options);
    }
  }

  /** The component's position state and its `prevOptions` ref. */
  class App {
    var prevOptions: PositionOptions
    var positions: seq<CardPosition>

    ghost function State(): Gate
      reads this
    {
      Gate(prevOptions, positions)
    }

    /** Initial render: positions generated for the initial layout, which is remembered. */
    constructor (cardCount: nat, layout: Layout, rs: seq<real>)
      requires layout.columns <= 2 && |rs| == cardCount
      ensures prevOptions == OptionsOf(layout)
      ensures positions == GeneratePositions(cardCount, OptionsOf(layout), rs)
    {
      prevOptions := OptionsOf(layout);
      positions := GeneratePositions(cardCount, OptionsOf(layout), rs);
    }

    /**
     * A render with the current layout: the remap gate (updating the ref and
     * the positions state when it remaps) and the container height.
     */
    method Render(layout: Layout, rs: seq<real>) returns (mapped: seq<CardPosition>, containerHeight: real)
      requires layout.columns <= 2 && |rs| == |positions|
      modifies this
      ensures (State(), mapped) == MapPositions(old(State()), OptionsOf(layout), rs)
      ensures containerHeight == ContainerHeight(mapped, layout.cardHeight as real)
    {
      var current := OptionsOf(layout);
      if prevOptions.verticalSpacing == current.verticalSpacing &&
         prevOptions.xMin == current.xMin &&
         prevOptions.xMax == current.xMax &&
         prevOptions.columns == current.columns
      {
        mapped := positions;
      } else {
        var remapped := RemapPositions(positions, prevOptions, current, rs);
        prevOptions := current;
        positions := remapped;
        mapped := remapped;
      }
      var lastY := if |mapped| > 0 then mapped[|mapped| - 1].y else 0.0;
      containerHeight := lastY + layout.cardHeight as real + BOTTOM_PADDING;
    }
  }
}
