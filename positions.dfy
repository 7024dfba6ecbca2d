/**
 * Column zones, position generation and position remapping
 * (src/generatePositions.ts).
 *
 * Cards are laid out top to bottom. With one column every card has its own
 * row; with two columns cards are paired into rows (card 2k on the left,
 * card 2k+1 on the right). Each card's x is a random percentage inside its
 * column's zone, its y is fixed by its row.
 */
module Positions {
  import opened Types
  import opened Random

  /** Pixels reserved above the first row for the header. */
  const TOP_OFFSET: real := 140.0

  /** Gap, in percent, kept on each side of the midpoint between the two column zones. */
  const COLUMN_GAP: real := 15.0

  /** The four layout parameters that positions depend on. */
  datatype PositionOptions = PositionOptions(verticalSpacing: real, xMin: real, xMax: real, columns: int)

  /** Options used when the caller gives none. */
  const DEFAULT_OPTIONS: PositionOptions := PositionOptions(450.0, 15.0, 85.0, 1)

  /** A horizontal percentage range that the cards of one column are placed in. */
  datatype Zone = Zone(min: real, max: real) {
    function Width(): real { max - min }
    predicate Contains(x: real) { min <= x <= max }
  }

  function MinReal(a: real, b: real): real { if a <= b then a else b }
  function MaxReal(a: real, b: real): real { if a >= b then a else b }

  /**
   * `getColumnRanges`: the whole band for one column; otherwise two zones of
   * equal width, one either side of the midpoint, with COLUMN_GAP removed on
   * each side of it.
   */
  function ColumnRanges(xMin: real, xMax: real, columns: int): (zones: seq<Zone>)
    ensures |zones| == if columns == 1 then 1 else 2
    ensures zones[0].min == xMin && zones[|zones| - 1].max == xMax
    ensures columns != 1 ==> zones[1].min - zones[0].max == 2.0 * COLUMN_GAP
    ensures columns != 1 ==> zones[0].Width() == zones[1].Width() == (xMax - xMin) / 2.0 - COLUMN_GAP
  {
    if columns == 1 then
      [Zone(xMin, xMax)]
    else
      var mid := (xMin + xMax) / 2.0;
      [Zone(xMin, mid - COLUMN_GAP), Zone(mid + COLUMN_GAP, xMax)]
  }

  /** Every zone is non-empty exactly when the band is wide enough for the column count. */
  lemma ZonesNonEmpty(xMin: real, xMax: real, columns: int)
    ensures (forall z :: z in ColumnRanges(xMin, xMax, columns) ==> z.min <= z.max)
        <==> (if columns == 1 then xMin <= xMax else xMax - xMin >= 2.0 * COLUMN_GAP)
  {
    var zones := ColumnRanges(xMin, xMax, columns);
    if columns != 1 {
      assert zones[0] in zones && zones[1] in zones;
    } else {
      assert zones[0] in zones;
    }
  }

  /** Column of card `i`: `i % columns` when there are several columns, else 0. */
  function ColumnOf(i: nat, columns: int): (col: nat)
    ensures columns > 1 ==> col < columns
    ensures columns <= 1 ==> col == 0
  {
    if columns > 1 then i % columns else 0
  }

  /** Row of card `i`: `floor(i / columns)` when there are several columns, else `i`. */
  function RowOf(i: nat, columns: int): (row: nat)
    ensures row * (if columns > 1 then columns else 1) + ColumnOf(i, columns) == i
  {
    if columns > 1 then i / columns else i
  }

  /** Vertical position of a row. */
  function RowY(row: nat, verticalSpacing: real): real {
    row as real * verticalSpacing + TOP_OFFSET
  }

  /** The zone that card `i` is placed in under `options`. */
  function ZoneOf(i: nat, options: PositionOptions): (z: Zone)
    requires options.columns <= 2
    ensures z in ColumnRanges(options.xMin, options.xMax, options.columns)
  {
    ColumnRanges(options.xMin, options.xMax, options.columns)[ColumnOf(i, options.columns)]
  }

  /** Every zone of `options` is non-empty (min <= max). */
  predicate ZonesOrdered(options: PositionOptions) {
    options.columns <= 2 &&
    forall z :: z in ColumnRanges(options.xMin, options.xMax, options.columns) ==> z.min <= z.max
  }

  /** Every zone of `options` has positive width (min < max). */
  predicate ZonesProper(options: PositionOptions) {
    options.columns <= 2 &&
    forall z :: z in ColumnRanges(options.xMin, options.xMax, options.columns) ==> z.min < z.max
  }

  /** Each card sits in its column's zone, at its row's height. */
  predicate InLayout(ps: seq<CardPosition>, options: PositionOptions)
    requires options.columns <= 2
  {
    forall i :: 0 <= i < |ps| ==>
      ZoneOf(i, options).Contains(ps[i].x) && ps[i].y == RowY(RowOf(i, options.columns), options.verticalSpacing)
  }

  /**
   * `generatePositions`: one position per card; `rs[i]` is the random number
   * drawn for card `i`.
   */
  function GeneratePositions(count: nat, options: PositionOptions, rs: seq<real>): (ps: seq<CardPosition>)
    requires options.columns <= 2
    requires |rs| == count
    ensures |ps| == count
    ensures forall i :: 0 <= i < count ==> ps[i].y == RowY(RowOf(i, options.columns), options.verticalSpacing)
    ensures AllUnit(rs) ==> forall i :: 0 <= i < count && ZoneOf(i, options).min <= ZoneOf(i, options).max ==>
              ZoneOf(i, options).Contains(ps[i].x)
    ensures AllUnit(rs) ==> forall i :: 0 <= i < count && ZoneOf(i, options).min < ZoneOf(i, options).max ==>
              ps[i].x < ZoneOf(i, options).max
  {
    var zones := ColumnRanges(options.xMin, options.xMax, options.columns);
    seq(count, i requires 0 <= i < count =>
      var zone := zones[ColumnOf(i, options.columns)];
      CardPosition(Rand(zone.min, zone.max, rs[i]), RowY(RowOf(i, options.columns), options.verticalSpacing)))
  }

  /** With well-formed options and genuine random draws, generated positions are in the layout. */
  lemma GenerateInLayout(count: nat, options: PositionOptions, rs: seq<real>)
    requires ZonesOrdered(options) && |rs| == count && AllUnit(rs)
    ensures InLayout(GeneratePositions(count, options, rs), options)
  {
  }

  /** Two-column mode: cards 2k and 2k+1 share a row and hence a y. */
  lemma {:induction false} PairsShareRow(count: nat, options: PositionOptions, rs: seq<real>, k: nat)
    requires options.columns == 2 && |rs| == count && 2 * k + 1 < count
    ensures GeneratePositions(count, options, rs)[2 * k].y == GeneratePositions(count, options, rs)[2 * k + 1].y
  {
    assert RowOf(2 * k, 2) == k && RowOf(2 * k + 1, 2) == k;
  }

  /** Rows are monotone in the card index. */
  lemma RowMonotone(i: nat, j: nat, columns: int)
    requires columns <= 2 && i <= j
    ensures RowOf(i, columns) <= RowOf(j, columns)
  {
  }

  /** With positive spacing, y strictly increases with the row. */
  lemma {:induction false} YIncreasesWithRow(row: nat, row': nat, verticalSpacing: real)
    requires 0.0 < verticalSpacing && row < row'
    ensures RowY(row, verticalSpacing) < RowY(row', verticalSpacing)
  {
    assert RowY(row', verticalSpacing) - RowY(row, verticalSpacing) == (row' - row) as real * verticalSpacing;
  }

  /** With non-negative spacing, y never decreases along the card order. */
  lemma {:induction false} YMonotoneInIndex(i: nat, j: nat, options: PositionOptions)
    requires options.columns <= 2 && 0.0 <= options.verticalSpacing && i <= j
    ensures RowY(RowOf(i, options.columns), options.verticalSpacing)
         <= RowY(RowOf(j, options.columns), options.verticalSpacing)
  {
    var r, r' := RowOf(i, options.columns), RowOf(j, options.columns);
    RowMonotone(i, j, options.columns);
    assert RowY(r', options.verticalSpacing) - RowY(r, options.verticalSpacing) == (r' - r) as real * options.verticalSpacing;
  }

  /**
   * Where `x` lies in `from`, as a fraction clamped to [0,1]; a zero-width zone
   * is measured with span 1 (the `|| 1` fallback), so nothing is divided by zero.
   */
  function Normalize(x: real, from: Zone): (t: real)
    ensures 0.0 <= t <= 1.0
    ensures from.Contains(x) && from.min < from.max ==> t * from.Width() + from.min == x
    ensures from.Contains(x) && from.min == from.max ==> t == 0.0
  {
    var span := if from.max - from.min == 0.0 then 1.0 else from.max - from.min;
    MinReal(1.0, MaxReal(0.0, (x - from.min) / span))
  }

  /** Places the fraction `t` in `zone`. */
  function Denormalize(t: real, zone: Zone): (x: real)
    ensures 0.0 <= t <= 1.0 && zone.min <= zone.max ==> zone.Contains(x)
    ensures zone.min < zone.max ==> Normalize(x, zone) == MinReal(1.0, MaxReal(0.0, t))
  {
    DenormalizeFacts(t, zone);
    t * (zone.max - zone.min) + zone.min
  }

  lemma DenormalizeFacts(t: real, zone: Zone)
    ensures 0.0 <= t <= 1.0 && zone.min <= zone.max ==> zone.Contains(t * (zone.max - zone.min) + zone.min)
    ensures zone.min < zone.max ==>
              Normalize(t * (zone.max - zone.min) + zone.min, zone) == MinReal(1.0, MaxReal(0.0, t))
  {
    var w := zone.max - zone.min;
    var x := t * w + zone.min;
    if 0.0 <= t <= 1.0 && 0.0 <= w {
      ScaleWithin(t, w);
      assert zone.Contains(x);
    }
    if 0.0 < w {
      Unscale(t, w);
      assert x - zone.min == t * w;
      assert (x - zone.min) / w == t;
      assert Normalize(x, zone) == MinReal(1.0, MaxReal(0.0, (x - zone.min) / w));
    }
  }

  /**
   * `remapPositions`: regenerate everything when the column count changes;
   * otherwise keep each card's relative place inside its zone and recompute y.
   * `rs` are the draws the regeneration uses, one per card.
   */
  function RemapPositions(existing: seq<CardPosition>, oldOptions: PositionOptions,
                          newOptions: PositionOptions, rs: seq<real>): (ps: seq<CardPosition>)
    requires newOptions.columns <= 2
    requires |rs| == |existing|
    ensures |ps| == |existing|
    ensures oldOptions.columns != newOptions.columns ==> ps == GeneratePositions(|existing|, newOptions, rs)
    ensures forall i :: 0 <= i < |ps| ==>
              ps[i].y == RowY(RowOf(i, newOptions.columns), newOptions.verticalSpacing)
    ensures oldOptions.columns == newOptions.columns ==>
              forall i :: 0 <= i < |ps| && ZoneOf(i, newOptions).min <= ZoneOf(i, newOptions).max ==>
                ZoneOf(i, newOptions).Contains(ps[i].x)
    ensures oldOptions.columns == newOptions.columns ==>
              forall i :: 0 <= i < |ps| && ZoneOf(i, newOptions).min < ZoneOf(i, newOptions).max ==>
                Normalize(ps[i].x, ZoneOf(i, newOptions)) == Normalize(existing[i].x, ZoneOf(i, oldOptions))
  {
    if oldOptions.columns != newOptions.columns then
      GeneratePositions(|existing|, newOptions, rs)
    else
      var columns := newOptions.columns;
      var oldRanges := ColumnRanges(oldOptions.xMin, oldOptions.xMax, columns);
      var newRanges := ColumnRanges(newOptions.xMin, newOptions.xMax, columns);
      seq(|existing|, i requires 0 <= i < |existing| =>
        var col := ColumnOf(i, columns);
        var t := Normalize(existing[i].x, oldRanges[col]);
        CardPosition(Denormalize(t, newRanges[col]), RowY(RowOf(i, columns), newOptions.verticalSpacing)))
  }

  /** Remapping into well-formed options yields a list in that layout, whichever branch is taken. */
  lemma RemapInLayout(existing: seq<CardPosition>, oldOptions: PositionOptions,
                      newOptions: PositionOptions, rs: seq<real>)
    requires ZonesOrdered(newOptions) && |rs| == |existing| && AllUnit(rs)
    ensures InLayout(RemapPositions(existing, oldOptions, newOptions, rs), newOptions)
  {
    if oldOptions.columns != newOptions.columns {
      GenerateInLayout(|existing|, newOptions, rs);
    }
  }

  /**
   * Remapping to the same options leaves every in-zone x where it is and puts
   * every y at its row's height; a list already in the layout is returned as is.
   */
  lemma RemapSameOptions(existing: seq<CardPosition>, options: PositionOptions, rs: seq<real>)
    requires options.columns <= 2 && |rs| == |existing|
    ensures forall i :: 0 <= i < |existing| && ZoneOf(i, options).Contains(existing[i].x) ==>
              RemapPositions(existing, options, options, rs)[i].x == existing[i].x
    ensures InLayout(existing, options) ==> RemapPositions(existing, options, options, rs) == existing
  {
    var ps := RemapPositions(existing, options, options, rs);
    forall i | 0 <= i < |existing| && ZoneOf(i, options).Contains(existing[i].x)
      ensures ps[i].x == existing[i].x
    {
      var z := ZoneOf(i, options);
      var t := Normalize(existing[i].x, z);
      if z.min == z.max {
        assert t == 0.0;
      }
    }
  }

  /** One card's x survives a trip from zone `za` to zone `zb` and back. */
  lemma {:induction false} ZoneRoundTrip(x: real, za: Zone, zb: Zone)
    requires za.min < za.max && zb.min < zb.max && za.Contains(x)
    ensures Denormalize(Normalize(Denormalize(Normalize(x, za), zb), zb), za) == x
  {
    var t := Normalize(x, za);
    var y := Denormalize(t, zb);
    assert Normalize(y, zb) == t;
  }

  /**
   * Resizing away and back restores every card: remapping from `a` to `b`
   * and then from `b` to `a` gives back any list that was in `a`'s layout,
   * as long as both layouts have the same column count and proper zones.
   */
  lemma {:induction false} RemapRoundTrip(existing: seq<CardPosition>, a: PositionOptions, b: PositionOptions, rs: seq<real>)
    requires a.columns == b.columns && ZonesProper(a) && ZonesProper(b)
    requires |rs| == |existing| && InLayout(existing, a)
    ensures RemapPositions(RemapPositions(existing, a, b, rs), b, a, rs) == existing
  {
    var there := RemapPositions(existing, a, b, rs);
    var back := RemapPositions(there, b, a, rs);
    forall i | 0 <= i < |existing| ensures back[i] == existing[i] {
      ZoneRoundTrip(existing[i].x, ZoneOf(i, a), ZoneOf(i, b));
    }
  }
}
