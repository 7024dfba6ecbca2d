/**
 * The decorative path through the card centres (src/components/CardPath.tsx).
 *
 * The path is kept as a list of drawing commands over exact reals; turning
 * it into an SVG string is presentation.
 */
module CardPath {
  import opened Types

  /** A point: `x` in percent of the container width, `y` in pixels. */
  datatype Point = Point(x: real, y: real)

  /** One command of the path: `M x y` or `C c1 c2 to`. */
  datatype Segment = MoveTo(to: Point) | CubicTo(c1: Point, c2: Point, to: Point)

  /**
   * The cubic from `prev` to `curr`: both control points sit at the vertical
   * midpoint, the first above/below `prev`, the second above/below `curr`, so
   * the line leaves and arrives vertically.
   */
  function Curve(prev: Point, curr: Point): (s: Segment)
    ensures s.CubicTo? && s.to == curr
    ensures s.c1.x == prev.x && s.c2.x == curr.x
    ensures s.c1.y == s.c2.y && s.c1.y - prev.y == curr.y - s.c1.y
  {
    var midY := (prev.y + curr.y) / 2.0;
    CubicTo(Point(prev.x, midY), Point(curr.x, midY), curr)
  }

  /** `p` lies in the axis-aligned box spanned by `a` and `b`. */
  predicate InBox(p: Point, a: Point, b: Point) {
    (a.x <= p.x <= b.x || b.x <= p.x <= a.x) && (a.y <= p.y <= b.y || b.y <= p.y <= a.y)
  }

  /**
   * Both control points of a segment lie in the box spanned by its end
   * points, so (by the convex-hull property of Bézier curves) the drawn
   * curve never leaves that box.
   */
  lemma CurveStaysInBox(prev: Point, curr: Point)
    ensures InBox(Curve(prev, curr).c1, prev, curr) && InBox(Curve(prev, curr).c2, prev, curr)
  {
  }

  /** The points the path passes through, in order: the end point of every command. */
  function Visited(parts: seq<Segment>): (ps: seq<Point>)
    ensures |ps| == |parts|
    ensures forall i :: 0 <= i < |parts| ==> ps[i] == parts[i].to
  {
    seq(|parts|, i requires 0 <= i < |parts| => parts[i].to)
  }

  /**
   * `buildPath`: nothing for no centres, a single move-to for one centre,
   * otherwise a move-to at the first centre followed by one cubic per
   * consecutive pair. The path passes through exactly the given centres.
   */
  method BuildPath(centers: seq<Point>) returns (parts: seq<Segment>)
    ensures |parts| == |centers| && Visited(parts) == centers
    ensures |centers| > 0 ==> parts[0] == MoveTo(centers[0])
    ensures forall i :: 1 <= i < |parts| ==> parts[i] == Curve(centers[i - 1], centers[i])
  {
    if |centers| == 0 {
      return [];
    }
    if |centers| == 1 {
      return [MoveTo(centers[0])];
    }
    parts := [MoveTo(centers[0])];
    for i := 1 to |centers|
      invariant |parts| == i && parts[0] == MoveTo(centers[0])
      invariant forall k :: 1 <= k < i ==> parts[k] == Curve(centers[k - 1], centers[k])
    {
      var prev, curr := centers[i - 1], centers[i];
      var midY := (prev.y + curr.y) / 2.0;
      parts := parts + [CubicTo(Point(prev.x, midY), Point(curr.x, midY), curr)];
    }
    forall k | 1 <= k < |parts| ensures parts[k].to == centers[k] {
      assert parts[k] == Curve(centers[k - 1], centers[k]);
    }
    assert forall k :: 0 <= k < |parts| ==> Visited(parts)[k] == centers[k];
  }

  /** Card centres: same x, y moved down by half the card height. */
  function Centers(positions: seq<CardPosition>, cardHeight: real): (cs: seq<Point>)
    ensures |cs| == |positions|
    ensures forall i :: 0 <= i < |cs| ==>
              cs[i].x == positions[i].x && cs[i].y - positions[i].y == cardHeight / 2.0
  {
    seq(|positions|, i requires 0 <= i < |positions| => Point(positions[i].x, positions[i].y + cardHeight / 2.0))
  }

  /**
   * The `CardPath` component: nothing is drawn for fewer than two cards;
   * otherwise the path runs through every card's centre in card order.
   */
  method CardPath(positions: seq<CardPosition>, cardHeight: real) returns (drawn: Option<seq<Segment>>)
    ensures drawn.None? <==> |positions| < 2
    ensures drawn.Some? ==> Visited(drawn.value) == Centers(positions, cardHeight)
    ensures drawn.Some? ==> drawn.value[0] == MoveTo(Point(positions[0].x, positions[0].y + cardHeight / 2.0))
    ensures drawn.Some? ==> forall i :: 1 <= i < |drawn.value| ==>
              drawn.value[i] == Curve(Centers(positions, cardHeight)[i - 1], Centers(positions, cardHeight)[i])
  {
    if |positions| < 2 {
      return None;
    }
    var centers := Centers(positions, cardHeight);
    var d := BuildPath(centers);
    drawn := Some(d);
  }
}
