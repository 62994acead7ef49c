/**
 * Layout geometry of the road map: the grid-to-layout transform, the
 * hit-box polygons of intersections and roads, and the canvas size.
 *
 * A grid step is three layout cells of CELL_SIZE pixels (an intersection
 * cell and two road cells), and the layout has a one-cell border.
 */
module Geometry {
  import opened RoadMap

  /** Side of one layout cell, in pixels. */
  const CELL_SIZE: int := 50
  /** Distance in pixels between two neighbouring grid positions. */
  const STEP: int := CELL_SIZE * 3

  const JAVA_INT_MIN: int := -0x8000_0000
  const JAVA_INT_MAX: int := 0x7fff_ffff
  /** Largest grid coordinate magnitude for which every layout value fits a Java int. */
  const MAX_GRID: int := 14_000_000

  predicate IsJavaInt(v: int) {
    JAVA_INT_MIN <= v <= JAVA_INT_MAX
  }

  /** Grid coordinates whose layout arithmetic cannot overflow a Java int. */
  predicate InGrid(v: int) {
    -MAX_GRID <= v <= MAX_GRID
  }

  // ---------------------------------------------------------------------------
  // Grid to layout transform

  /** Layout position (in pixels) of grid position `v` along one axis. */
  function ToLayout(v: int): int {
    CELL_SIZE + CELL_SIZE * 3 * v
  }

  /** The grid position a layout value on the lattice came from. */
  function FromLayout(l: int): int {
    (l - CELL_SIZE) / STEP
  }

  /** The converted coordinates of a grid point: a point of the layout lattice that maps back to `p`. */
  function ConvertPoint(p: Point): (q: Point)
    ensures q.x % STEP == CELL_SIZE && q.y % STEP == CELL_SIZE
    ensures FromLayout(q.x) == p.x && FromLayout(q.y) == p.y
  {
    LayoutOnLattice(p.x);
    LayoutOnLattice(p.y);
    Point(ToLayout(p.x), ToLayout(p.y))
  }

  lemma LayoutOnLattice(v: int)
    ensures ToLayout(v) % STEP == CELL_SIZE
    ensures FromLayout(ToLayout(v)) == v
  {
    var l := ToLayout(v);
    assert l == STEP * v + CELL_SIZE;
    assert (l - CELL_SIZE) / STEP == v by {
      assert l - CELL_SIZE == STEP * v;
    }
  }

  /** The "not placed" sentinel (-1, -1) maps to (-100, -100). */
  lemma SentinelLayout()
    ensures ConvertPoint(Point(-1, -1)) == Point(-100, -100)
  {
  }

  /** The transform is strictly increasing, so distinct grid points map to distinct layout points. */
  lemma ToLayoutStrictlyIncreasing(a: int, b: int)
    ensures a < b <==> ToLayout(a) < ToLayout(b)
    ensures a == b <==> ToLayout(a) == ToLayout(b)
  {
  }

  lemma ConvertPointInjective(p: Point, q: Point)
    ensures ConvertPoint(p) == ConvertPoint(q) <==> p == q
  {
    ToLayoutStrictlyIncreasing(p.x, q.x);
    ToLayoutStrictlyIncreasing(p.y, q.y);
  }

  /** Within the grid bounds, every value the hit-box arithmetic forms fits a Java int. */
  lemma LayoutFitsJavaInt(v: int)
    requires InGrid(v)
    ensures IsJavaInt(ToLayout(v)) && IsJavaInt(ToLayout(v) + CELL_SIZE)
  {
  }

  // ---------------------------------------------------------------------------
  // Hit boxes

  /** Square hit box of an intersection whose converted coordinates are `coord`. */
  function IntersectionHitBox(coord: Point): (q: Polygon)
    ensures IsBox(q)
  {
    Polygon([coord.x, coord.x, coord.x + CELL_SIZE, coord.x + CELL_SIZE],
            [coord.y, coord.y + CELL_SIZE, coord.y + CELL_SIZE, coord.y])
  }

  /**
   * Hit box of a single-lane horizontal road; `coord` and `source` are the
   * converted coordinates of its finish and start intersections.
   */
  function HorizontalSingleRoadHitBox(orientation: Orientation, coord: Point, source: Point): (q: Polygon)
    ensures IsBox(q)
  {
    if orientation == LEFT then
      Polygon([source.x + CELL_SIZE, source.x + CELL_SIZE, coord.x, coord.x],
              [coord.y, coord.y + CELL_SIZE, coord.y + CELL_SIZE, coord.y])
    else
      Polygon([coord.x + CELL_SIZE, coord.x + CELL_SIZE, source.x, source.x],
              [coord.y, coord.y + CELL_SIZE, coord.y + CELL_SIZE, coord.y])
  }

  /** Hit box of one lane of a two-way horizontal road. */
  function HorizontalDoubleRoadHitBox(orientation: Orientation, coord: Point, source: Point): (q: Polygon)
    ensures IsBox(q)
  {
    if orientation == LEFT then
      Polygon([source.x + CELL_SIZE, source.x + CELL_SIZE, coord.x, coord.x],
              [coord.y + CELL_SIZE / 2, coord.y + CELL_SIZE, coord.y + CELL_SIZE, coord.y + CELL_SIZE / 2])
    else
      Polygon([coord.x + CELL_SIZE, coord.x + CELL_SIZE, source.x, source.x],
              [coord.y, coord.y + CELL_SIZE / 2, coord.y + CELL_SIZE / 2, coord.y])
  }

  /** Hit box of a single-lane vertical road. */
  function VerticalSingleRoadHitBox(orientation: Orientation, coord: Point, source: Point): (q: Polygon)
    ensures IsBox(q)
  {
    if orientation == UP then
      Polygon([coord.x, coord.x, coord.x + CELL_SIZE, coord.x + CELL_SIZE],
              [source.y + CELL_SIZE, coord.y, coord.y, source.y + CELL_SIZE])
    else
      Polygon([coord.x, coord.x, coord.x + CELL_SIZE, coord.x + CELL_SIZE],
              [coord.y + CELL_SIZE, source.y, source.y, coord.y + CELL_SIZE])
  }

  /** Hit box of one lane of a two-way vertical road. */
  function VerticalDoubleRoadHitBox(orientation: Orientation, coord: Point, source: Point): (q: Polygon)
    ensures IsBox(q)
  {
    if orientation == UP then
      Polygon([coord.x, coord.x, coord.x + CELL_SIZE / 2, coord.x + CELL_SIZE / 2],
              [source.y + CELL_SIZE, coord.y, coord.y, source.y + CELL_SIZE])
    else
      Polygon([coord.x + CELL_SIZE / 2, coord.x + CELL_SIZE / 2, coord.x + CELL_SIZE, coord.x + CELL_SIZE],
              [coord.y + CELL_SIZE, source.y, source.y, coord.y + CELL_SIZE])
  }

  /** The hit box a road gets, chosen by its orientation and lane count. */
  function RoadHitBox(orientation: Orientation, singleDirection: bool, coord: Point, source: Point): (q: Polygon)
    ensures IsBox(q)
  {
    if orientation == LEFT || orientation == RIGHT then
      if singleDirection then HorizontalSingleRoadHitBox(orientation, coord, source)
      else HorizontalDoubleRoadHitBox(orientation, coord, source)
    else
      if singleDirection then VerticalSingleRoadHitBox(orientation, coord, source)
      else VerticalDoubleRoadHitBox(orientation, coord, source)
  }

  /**
   * The polygon is an axis-aligned box traced (x0, y0), (x0, y1), (x1, y1), (x1, y0),
   * the corner order every hit box uses.
   */
  predicate IsBox(q: Polygon) {
    && |q.xPoints| == 4 && |q.yPoints| == 4
    && q.xPoints[0] == q.xPoints[1] && q.xPoints[2] == q.xPoints[3]
    && q.yPoints[0] == q.yPoints[3] && q.yPoints[1] == q.yPoints[2]
  }

  /** The box's two vertical edges (x0, x1). */
  function XEdges(q: Polygon): (int, int)
    requires IsBox(q)
  {
    (q.xPoints[0], q.xPoints[2])
  }

  /** The box's two horizontal edges (y0, y1). */
  function YEdges(q: Polygon): (int, int)
    requires IsBox(q)
  {
    (q.yPoints[0], q.yPoints[1])
  }

  predicate Within(inner: (int, int), outer: (int, int)) {
    outer.0 <= inner.0 <= inner.1 <= outer.1
  }

  predicate IsHorizontal(o: Orientation) {
    o == LEFT || o == RIGHT
  }

  /** An intersection's hit box is the CELL_SIZE square whose first corner is its converted coordinate. */
  lemma IntersectionHitBoxIsCell(coord: Point)
    ensures IsBox(IntersectionHitBox(coord))
    ensures XEdges(IntersectionHitBox(coord)) == (coord.x, coord.x + CELL_SIZE)
    ensures YEdges(IntersectionHitBox(coord)) == (coord.y, coord.y + CELL_SIZE)
  {
  }

  /**
   * A road's hit box runs, along its travel axis, from an edge of its start
   * intersection's box to an edge of its finish intersection's box, and
   * across that axis it stays inside the finish intersection's band.
   */
  lemma RoadHitBoxMeetsEndpoints(o: Orientation, singleDirection: bool, coord: Point, source: Point)
    ensures IsBox(RoadHitBox(o, singleDirection, coord, source))
    ensures var b, c, s := RoadHitBox(o, singleDirection, coord, source), IntersectionHitBox(coord), IntersectionHitBox(source);
      && (o == LEFT ==> XEdges(b) == (XEdges(s).1, XEdges(c).0))
      && (o == RIGHT ==> XEdges(b) == (XEdges(c).1, XEdges(s).0))
      && (o == UP ==> YEdges(b) == (YEdges(s).1, YEdges(c).0))
      && (o == DOWN ==> YEdges(b) == (YEdges(c).1, YEdges(s).0))
      && (IsHorizontal(o) ==> Within(YEdges(b), YEdges(c)))
      && (!IsHorizontal(o) ==> Within(XEdges(b), XEdges(c)))
  {
  }

  /**
   * A two-way road's lane keeps the single-lane extent along the travel axis
   * and takes half of the cell across it: LEFT the lower half, RIGHT the upper
   * half, UP the left half and DOWN the right half.
   */
  lemma DoubleLaneBands(o: Orientation, coord: Point, source: Point)
    ensures var single, lane := RoadHitBox(o, true, coord, source), RoadHitBox(o, false, coord, source);
      && IsBox(single) && IsBox(lane)
      && (IsHorizontal(o) ==>
            && XEdges(lane) == XEdges(single)
            && YEdges(single) == (coord.y, coord.y + CELL_SIZE)
            && YEdges(lane) == (if o == LEFT then (coord.y + CELL_SIZE / 2, coord.y + CELL_SIZE)
                                else (coord.y, coord.y + CELL_SIZE / 2)))
      && (!IsHorizontal(o) ==>
            && YEdges(lane) == YEdges(single)
            && XEdges(single) == (coord.x, coord.x + CELL_SIZE)
            && XEdges(lane) == (if o == UP then (coord.x, coord.x + CELL_SIZE / 2)
                                else (coord.x + CELL_SIZE / 2, coord.x + CELL_SIZE)))
  {
  }

  /**
   * The LEFT lane from `a` to `b` and the RIGHT lane from `b` to `a` of a
   * two-way horizontal road cover the same stretch and split the single-lane
   * band into two halves that meet only on its middle line.
   */
  lemma OppositeHorizontalLanesSplitBand(a: Point, b: Point)
    requires a.y == b.y
    ensures var left, right, single := RoadHitBox(LEFT, false, b, a), RoadHitBox(RIGHT, false, a, b), RoadHitBox(LEFT, true, b, a);
      && IsBox(left) && IsBox(right) && IsBox(single)
      && XEdges(left) == XEdges(right) == XEdges(single)
      && YEdges(right).0 == YEdges(single).0
      && YEdges(right).1 == YEdges(left).0
      && YEdges(left).1 == YEdges(single).1
  {
  }

  /** The vertical counterpart: UP from `a` to `b` and DOWN from `b` to `a`. */
  lemma OppositeVerticalLanesSplitBand(a: Point, b: Point)
    requires a.x == b.x
    ensures var up, down, single := RoadHitBox(UP, false, b, a), RoadHitBox(DOWN, false, a, b), RoadHitBox(UP, true, b, a);
      && IsBox(up) && IsBox(down) && IsBox(single)
      && YEdges(up) == YEdges(down) == YEdges(single)
      && XEdges(up).0 == XEdges(single).0
      && XEdges(up).1 == XEdges(down).0
      && XEdges(down).1 == XEdges(single).1
  {
  }

  // ---------------------------------------------------------------------------
  // Canvas

  /** Canvas extent, in pixels, for a map `cells` grid positions wide (or high). */
  function CanvasExtent(cells: int): int {
    CELL_SIZE * (3 + 3 * (cells - 1))
  }

  /** The canvas is one grid step per grid position. */
  lemma CanvasIsScaledMap(cells: int)
    ensures CanvasExtent(cells) == STEP * cells
    ensures CanvasExtent(cells) > 0 <==> cells > 0
  {
  }

  /**
   * The image library stores one Java int per pixel and refuses a canvas
   * without pixels or with `Integer.MAX_VALUE` pixels or more.
   */
  predicate CanvasFits(width: int, height: int) {
    && CanvasExtent(width) > 0 && CanvasExtent(height) > 0
    && CanvasExtent(width) * CanvasExtent(height) < JAVA_INT_MAX
  }

  /** Largest number of grid positions a map may have for its canvas to be allocated. */
  const MAX_MAP_CELLS: int := 95_443

  /** A canvas fits exactly when the map has positive sides and at most MAX_MAP_CELLS grid positions. */
  lemma CanvasFitsIff(width: int, height: int)
    ensures CanvasFits(width, height) <==> 0 < width && 0 < height && width * height <= MAX_MAP_CELLS
  {
    CanvasIsScaledMap(width);
    CanvasIsScaledMap(height);
    var cells := width * height;
    assert CanvasExtent(width) * CanvasExtent(height) == STEP * STEP * cells by {
      assert CanvasExtent(width) * CanvasExtent(height) == (STEP * width) * (STEP * height);
    }
    if 0 < width && 0 < height && cells <= MAX_MAP_CELLS {
      assert STEP * STEP * cells <= STEP * STEP * MAX_MAP_CELLS;
    }
  }

  /** A 308 by 308 map still gets its canvas; a 309 by 309 map is refused. */
  lemma LargestSquareCanvas()
    ensures CanvasFits(308, 308) && !CanvasFits(309, 309)
  {
    CanvasFitsIff(308, 308);
    CanvasFitsIff(309, 309);
  }

  /** Every intersection cell of the grid lies inside the canvas's one-cell border. */
  lemma CellInsideCanvasBorder(v: int, cells: int)
    requires 0 <= v < cells
    ensures CELL_SIZE <= ToLayout(v)
    ensures ToLayout(v) + CELL_SIZE <= CanvasExtent(cells) - CELL_SIZE
  {
  }
}
