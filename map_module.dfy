/** The route projector: fits the trail and the current position into a
    300 x 300 drawing surface and produces the grid, the route polyline and
    the position marker as geometry. */
module MapModule {
  import opened Types

  const CanvasWidth: real := 300.0
  const CanvasHeight: real := 300.0
  const Padding: real := 20.0

  /** Widening of every side of the bounding box, in degrees. */
  const Epsilon: real := 0.001

  /** Where the grid lines sit along either axis: the padded side cut into
      four equal parts. */
  const GridPositions: seq<real> := [20.0, 85.0, 150.0, 215.0, 280.0]

  datatype Bounds = Bounds(minLat: real, maxLat: real, minLng: real, maxLng: real)

  /** A point of the drawing surface; `y` grows downwards. */
  datatype Point = Point(x: real, y: real)

  datatype Line = Line(from: Point, to: Point)

  /** The path commands of the route polyline. */
  datatype PathOp = MoveTo(p: Point) | LineTo(p: Point)

  /** Everything one redraw produces, in drawing order. */
  datatype Frame = Frame(grid: seq<Line>, route: seq<PathOp>, marker: Point)

  function Min(a: real, b: real): real {
    if a <= b then a else b
  }

  function Max(a: real, b: real): real {
    if a >= b then a else b
  }

  /** `b` is the smallest axis-aligned box holding all of `pts`: it holds
      them, and each of its sides touches one of them. */
  ghost predicate TightBox(b: Bounds, pts: seq<Position>) {
    && (forall i :: 0 <= i < |pts| ==>
          b.minLat <= pts[i].lat <= b.maxLat && b.minLng <= pts[i].lng <= b.maxLng)
    && (exists i :: 0 <= i < |pts| && pts[i].lat == b.minLat)
    && (exists i :: 0 <= i < |pts| && pts[i].lat == b.maxLat)
    && (exists i :: 0 <= i < |pts| && pts[i].lng == b.minLng)
    && (exists i :: 0 <= i < |pts| && pts[i].lng == b.maxLng)
  }

  /** The box before the epsilon widening. */
  function Contracted(b: Bounds): Bounds {
    Bounds(b.minLat + Epsilon, b.maxLat - Epsilon, b.minLng + Epsilon, b.maxLng - Epsilon)
  }

  predicate StrictlyInside(b: Bounds, p: Position) {
    b.minLat < p.lat < b.maxLat && b.minLng < p.lng < b.maxLng
  }

  /** Both spans are positive, so the projection never divides by zero. */
  predicate NonDegenerate(b: Bounds) {
    b.minLat < b.maxLat && b.minLng < b.maxLng
  }

  /** The open square inside the padding. */
  predicate InsidePadding(p: Point) {
    Padding < p.x < CanvasWidth - Padding && Padding < p.y < CanvasHeight - Padding
  }

  /** The bounds of the trail and the current position, each side widened
      by `Epsilon`. */
  method ComputeBounds(coordinates: seq<Position>, currentPosition: Position) returns (b: Bounds)
    ensures TightBox(Contracted(b), [currentPosition] + coordinates)
    ensures StrictlyInside(b, currentPosition)
    ensures forall i :: 0 <= i < |coordinates| ==> StrictlyInside(b, coordinates[i])
    ensures b.maxLat - b.minLat >= 2.0 * Epsilon && b.maxLng - b.minLng >= 2.0 * Epsilon
  {
    ghost var pts := [currentPosition] + coordinates;
    var minLat, maxLat := currentPosition.lat, currentPosition.lat;
    var minLng, maxLng := currentPosition.lng, currentPosition.lng;
    // indices in pts of the points that touch each side
    ghost var iMinLat, iMaxLat, iMinLng, iMaxLng := 0, 0, 0, 0;

    if |coordinates| > 0 {
      for i := 0 to |coordinates|
        invariant forall j :: 0 <= j <= i ==>
          minLat <= pts[j].lat <= maxLat && minLng <= pts[j].lng <= maxLng
        invariant iMinLat <= i && pts[iMinLat].lat == minLat
        invariant iMaxLat <= i && pts[iMaxLat].lat == maxLat
        invariant iMinLng <= i && pts[iMinLng].lng == minLng
        invariant iMaxLng <= i && pts[iMaxLng].lng == maxLng
      {
        var coord := coordinates[i];
        assert coord == pts[i + 1];
        if coord.lat < minLat { iMinLat := i + 1; }
        if coord.lat > maxLat { iMaxLat := i + 1; }
        if coord.lng < minLng { iMinLng := i + 1; }
        if coord.lng > maxLng { iMaxLng := i + 1; }
        minLat := Min(minLat, coord.lat);
        maxLat := Max(maxLat, coord.lat);
        minLng := Min(minLng, coord.lng);
        maxLng := Max(maxLng, coord.lng);
      }
    }

    minLat := minLat - Epsilon;
    maxLat := maxLat + Epsilon;
    minLng := minLng - Epsilon;
    maxLng := maxLng + Epsilon;
    b := Bounds(minLat, maxLat, minLng, maxLng);

    assert pts[0] == currentPosition;
    forall i | 0 <= i < |coordinates| ensures StrictlyInside(b, coordinates[i]) {
      assert coordinates[i] == pts[i + 1];
    }
    assert pts[iMinLat].lat == Contracted(b).minLat;
    assert pts[iMaxLat].lat == Contracted(b).maxLat;
    assert pts[iMinLng].lng == Contracted(b).minLng;
    assert pts[iMaxLng].lng == Contracted(b).maxLng;
  }

  /** The map from a coordinate to the drawing surface: longitude to `x`
      left to right, latitude to `y` bottom to top, both scaled to the
      padded square. The box's sides land on the padding's edges. */
  function LatLngToXY(b: Bounds, lat: real, lng: real): (p: Point)
    requires NonDegenerate(b)
    ensures lng == b.minLng ==> p.x == Padding
    ensures lng == b.maxLng ==> p.x == CanvasWidth - Padding
    ensures lat == b.minLat ==> p.y == CanvasHeight - Padding
    ensures lat == b.maxLat ==> p.y == Padding
  {
    var x := ((lng - b.minLng) / (b.maxLng - b.minLng)) * (CanvasWidth - 2.0 * Padding) + Padding;
    var y := CanvasHeight - (((lat - b.minLat) / (b.maxLat - b.minLat)) * (CanvasHeight - 2.0 * Padding) + Padding);
    Point(x, y)
  }

  function Project(b: Bounds, p: Position): Point
    requires NonDegenerate(b)
  {
    LatLngToXY(b, p.lat, p.lng)
  }

  lemma FractionBetweenZeroAndOne(a: real, d: real)
    requires 0.0 < a < d
    ensures 0.0 < a / d < 1.0
  {
    DivisionMonotone(0.0, a, d);
    DivisionMonotone(a, d, d);
    assert d / d == 1.0;
  }

  lemma DivisionMonotone(a: real, c: real, d: real)
    requires d > 0.0
    ensures a < c <==> a / d < c / d
  {
    assert a / d * d == a;
    assert c / d * d == c;
    if a / d < c / d {
      assert (c / d - a / d) * d > 0.0;
    }
  }

  /** A coordinate strictly inside the bounds lands strictly inside the
      padded square. */
  lemma ProjectionInsidePadding(b: Bounds, p: Position)
    requires NonDegenerate(b) && StrictlyInside(b, p)
    ensures InsidePadding(Project(b, p))
  {
    FractionBetweenZeroAndOne(p.lng - b.minLng, b.maxLng - b.minLng);
    FractionBetweenZeroAndOne(p.lat - b.minLat, b.maxLat - b.minLat);
  }

  /** The projection is strictly monotone: more east is more right, more
      north is higher up (smaller `y`). */
  lemma ProjectionMonotone(b: Bounds, p: Position, q: Position)
    requires NonDegenerate(b)
    ensures p.lng < q.lng <==> Project(b, p).x < Project(b, q).x
    ensures p.lat < q.lat <==> Project(b, p).y > Project(b, q).y
  {
    DivisionMonotone(p.lng - b.minLng, q.lng - b.minLng, b.maxLng - b.minLng);
    DivisionMonotone(p.lat - b.minLat, q.lat - b.minLat, b.maxLat - b.minLat);
  }

  /** The widened box is fixed by the points it is computed from: two boxes
      whose contractions are tight around the same points are equal. */
  lemma TightBoxUnique(b: Bounds, c: Bounds, pts: seq<Position>)
    requires TightBox(Contracted(b), pts) && TightBox(Contracted(c), pts)
    ensures b == c
  {
  }

  /** With an empty trail the current position is drawn at the centre. */
  lemma EmptyTrailCentred(b: Bounds, currentPosition: Position)
    requires TightBox(Contracted(b), [currentPosition])
    ensures NonDegenerate(b)
    ensures Project(b, currentPosition) == Point(150.0, 150.0)
  {
  }

  /** The `k`-th grid line in drawing order: for each of the five positions
      a vertical line, then a horizontal one, across the padded square. */
  function GridLine(k: nat): Line
    requires k < 2 * |GridPositions|
  {
    var g := GridPositions[k / 2];
    if k % 2 == 0 then Line(Point(g, Padding), Point(g, CanvasHeight - Padding))
    else Line(Point(Padding, g), Point(CanvasWidth - Padding, g))
  }

  /** The background grid: five vertical and five horizontal lines at 20,
      85, 150, 215 and 280. */
  method GridLines() returns (grid: seq<Line>)
    ensures |grid| == 10
    ensures forall k :: 0 <= k < |grid| ==> grid[k] == GridLine(k)
  {
    grid := [];
    for i := 0 to 5
      invariant |grid| == 2 * i
      invariant forall k :: 0 <= k < |grid| ==> grid[k] == GridLine(k)
    {
      var x := Padding + (i as real / 4.0) * (CanvasWidth - 2.0 * Padding);
      assert x == GridPositions[i];
      grid := grid + [Line(Point(x, Padding), Point(x, CanvasHeight - Padding))];
      var y := Padding + (i as real / 4.0) * (CanvasHeight - 2.0 * Padding);
      grid := grid + [Line(Point(Padding, y), Point(CanvasWidth - Padding, y))];
    }
  }

  /** The route polyline: nothing for fewer than two points, otherwise a
      move to the first point and a line to every later point in order. */
  method RoutePath(b: Bounds, coordinates: seq<Position>) returns (path: seq<PathOp>)
    requires NonDegenerate(b)
    ensures |coordinates| <= 1 ==> path == []
    ensures |coordinates| > 1 ==> |path| == |coordinates|
    ensures |coordinates| > 1 ==> path[0] == MoveTo(Project(b, coordinates[0]))
    ensures forall i :: 1 <= i < |path| ==> path[i] == LineTo(Project(b, coordinates[i]))
  {
    path := [];
    if |coordinates| > 1 {
      path := [MoveTo(LatLngToXY(b, coordinates[0].lat, coordinates[0].lng))];
      for i := 1 to |coordinates|
        invariant |path| == i
        invariant path[0] == MoveTo(Project(b, coordinates[0]))
        invariant forall j :: 1 <= j < i ==> path[j] == LineTo(Project(b, coordinates[j]))
      {
        path := path + [LineTo(LatLngToXY(b, coordinates[i].lat, coordinates[i].lng))];
      }
    }
  }

  /** One redraw: bounds, grid, route and the marker at the current
      position. The whole trail and the marker are always visible. */
  method Render(coordinates: seq<Position>, currentPosition: Position) returns (frame: Frame)
    ensures |frame.grid| == 10
    ensures forall k :: 0 <= k < |frame.grid| ==> frame.grid[k] == GridLine(k)
    ensures |coordinates| <= 1 ==> frame.route == []
    ensures |coordinates| > 1 ==> |frame.route| == |coordinates| && frame.route[0].MoveTo?
    ensures forall i :: 1 <= i < |frame.route| ==> frame.route[i].LineTo?
    ensures forall i :: 0 <= i < |frame.route| ==> InsidePadding(frame.route[i].p)
    ensures InsidePadding(frame.marker)
    ensures coordinates == [] ==> frame.marker == Point(150.0, 150.0)
    ensures exists b :: && NonDegenerate(b)
                        && TightBox(Contracted(b), [currentPosition] + coordinates)
                        && frame.marker == Project(b, currentPosition)
                        && (forall i :: 0 <= i < |frame.route| ==> frame.route[i].p == Project(b, coordinates[i]))
  {
    var b := ComputeBounds(coordinates, currentPosition);
    var grid := GridLines();
    var route := RoutePath(b, coordinates);
    var marker := LatLngToXY(b, currentPosition.lat, currentPosition.lng);
    frame := Frame(grid, route, marker);

    forall i | 0 <= i < |route| ensures InsidePadding(route[i].p) {
      ProjectionInsidePadding(b, coordinates[i]);
    }
    ProjectionInsidePadding(b, currentPosition);
    if coordinates == [] {
      assert [currentPosition] + coordinates == [currentPosition];
      EmptyTrailCentred(b, currentPosition);
    }
  }
}
