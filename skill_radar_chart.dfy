/** The skill radar chart of the report page (src/components/reports/SkillRadarChart.tsx):
    where each score lands, the background web of rings, spokes and labels, the
    score polygon with its markers, and the side faces of the 3D view.
    Coordinates are reals and `Math.cos`/`Math.sin` are parameters of the chart,
    so what is proved is the linear and combinatorial structure of the drawing. */
module SkillRadarChart {
  import opened Options

  datatype SkillCategory = SkillCategory(name: string, score: real, color: string)

  /** The chart's props; `cos` and `sin` stand for `Math.cos` and `Math.sin`. */
  datatype Chart = Chart(skills: seq<SkillCategory>, size: real, rotation: real, cos: real -> real, sin: real -> real)

  /** `Math.PI` as a decimal. */
  const Pi: real := 3.141592653589793

  datatype Point = Point(x: real, y: real)

  /** `centerX` and `centerY`, which are equal. */
  function Center(c: Chart): real { c.size / 2.0 }

  /** `radius`: the outer ring. */
  function Radius(c: Chart): real { c.size * 0.4 }

  /** The angle of axis `i`: `angleStep * i` plus the rotation turned into radians.
      With no skills `angleStep` is not finite, so an axis needs at least one skill. */
  function Angle(c: Chart, i: int): real
    requires |c.skills| >= 1
  {
    (Pi * 2.0 / |c.skills| as real) * i as real + (Pi / 180.0) * c.rotation
  }

  /** The point at distance `r` from the centre along axis `i`. */
  function Polar(c: Chart, i: int, r: real): Point
    requires |c.skills| >= 1
  {
    Point(Center(c) + r * c.cos(Angle(c, i)), Center(c) + r * c.sin(Angle(c, i)))
  }

  /** `calculatePoint(index, value)`: the value is a percentage of the radius. */
  function CalculatePoint(c: Chart, index: int, value: real): Point
    requires |c.skills| >= 1
  {
    Polar(c, index, Radius(c) * value / 100.0)
  }

  /** A score of 0 is drawn at the centre, a score of 100 on the outer ring,
      and in between the offset from the centre grows in proportion to the score. */
  lemma CalculatePointScale(c: Chart, index: int, value: real)
    requires |c.skills| >= 1
    ensures value == 0.0 ==> CalculatePoint(c, index, value) == Point(Center(c), Center(c))
    ensures value == 100.0 ==> CalculatePoint(c, index, value) == Polar(c, index, Radius(c))
    ensures CalculatePoint(c, index, value).x - Center(c) == value / 100.0 * (Polar(c, index, Radius(c)).x - Center(c))
    ensures CalculatePoint(c, index, value).y - Center(c) == value / 100.0 * (Polar(c, index, Radius(c)).y - Center(c))
  {
    var cs := c.cos(Angle(c, index));
    var sn := c.sin(Angle(c, index));
    assert Radius(c) * value / 100.0 * cs == value / 100.0 * (Radius(c) * cs);
    assert Radius(c) * value / 100.0 * sn == value / 100.0 * (Radius(c) * sn);
  }

  /** A path command; the source writes them as "M x y", "L x y" and "Z". */
  datatype Command = M(p: Point) | L(p: Point) | Z

  /** The path through `points` in order: a move to the first, lines to the others. */
  function MoveThenLines(points: seq<Point>): (r: seq<Command>)
    ensures |r| == |points|
    ensures forall j :: 0 <= j < |r| ==> !r[j].Z? && r[j].p == points[j]
    ensures forall j :: 0 <= j < |r| ==> (r[j].M? <==> j == 0)
  {
    seq(|points|, j requires 0 <= j < |points| => if j == 0 then M(points[j]) else L(points[j]))
  }

  /** One element of the background web. */
  datatype GridElement =
    | Ring(level: nat, d: seq<Command>)
    | Spoke(axis: nat, from: Point, to: Point)
    | Label(axis: nat, at: Point, text: string)

  /** The number of rings. */
  const Levels: nat := 5

  /** Ring `level` visits axes 0..sides at `radius * level / levels`. */
  function RingPoints(c: Chart, level: nat): seq<Point>
    requires |c.skills| >= 1
  {
    seq(|c.skills| + 1, i => Polar(c, i, Radius(c) * level as real / Levels as real))
  }

  /** The first `n` rings. */
  function Rings(c: Chart, n: nat): seq<GridElement>
    requires |c.skills| >= 1
  {
    seq(n, k requires 0 <= k < n => Ring(k + 1, MoveThenLines(RingPoints(c, k + 1))))
  }

  /** The spoke and the label of each of the first `n` axes, in that order. */
  function Axes(c: Chart, n: nat): seq<GridElement>
    requires 1 <= |c.skills| && n <= |c.skills|
  {
    seq(2 * n, j requires 0 <= j < 2 * n =>
      if j % 2 == 0 then Spoke(j / 2, Point(Center(c), Center(c)), Polar(c, j / 2, Radius(c)))
      else Label(j / 2, Polar(c, j / 2, Radius(c) * 1.1), c.skills[j / 2].name))
  }

  /** What `generateGrid` returns: the rings, then spoke and label per axis. */
  function Grid(c: Chart): seq<GridElement>
    requires |c.skills| >= 1
  {
    Rings(c, Levels) + Axes(c, |c.skills|)
  }

  /** One pass of the ring loop: the path of ring `level`. */
  method RingPath(c: Chart, level: nat) returns (pathData: seq<Command>)
    requires |c.skills| >= 1
    ensures pathData == MoveThenLines(RingPoints(c, level))
  {
    var sides := |c.skills|;
    pathData := [];
    var levelRadius := Radius(c) * level as real / Levels as real;
    var i := 0;
    while i <= sides
      invariant 0 <= i <= sides + 1
      invariant pathData == MoveThenLines(RingPoints(c, level))[..i]
    {
      var angle := Angle(c, i);
      var x := Center(c) + levelRadius * c.cos(angle);
      var y := Center(c) + levelRadius * c.sin(angle);
      ghost var path := MoveThenLines(RingPoints(c, level));
      assert RingPoints(c, level)[i] == Point(x, y);
      assert path[..i + 1] == path[..i] + [path[i]];
      if i == 0 {
        pathData := pathData + [M(Point(x, y))];
      } else {
        pathData := pathData + [L(Point(x, y))];
      }
      i := i + 1;
    }
  }

  lemma RingsSnoc(c: Chart, n: nat)
    requires |c.skills| >= 1
    ensures Rings(c, n + 1) == Rings(c, n) + [Ring(n + 1, MoveThenLines(RingPoints(c, n + 1)))]
  {
  }

  lemma AxesSnoc(c: Chart, n: nat)
    requires 1 <= |c.skills| && n < |c.skills|
    ensures Axes(c, n + 1) == Axes(c, n) + [Spoke(n, Point(Center(c), Center(c)), Polar(c, n, Radius(c))),
                                            Label(n, Polar(c, n, Radius(c) * 1.1), c.skills[n].name)]
  {
    assert Axes(c, n + 1)[2 * n] == Spoke(n, Point(Center(c), Center(c)), Polar(c, n, Radius(c)));
    assert Axes(c, n + 1)[2 * n + 1] == Label(n, Polar(c, n, Radius(c) * 1.1), c.skills[n].name);
  }

  /** `generateGrid`. */
  method GenerateGrid(c: Chart) returns (gridLines: seq<GridElement>)
    requires |c.skills| >= 1
    ensures gridLines == Grid(c)
  {
    var sides := |c.skills|;
    gridLines := [];
    var level := 1;
    while level <= Levels
      invariant 1 <= level <= Levels + 1
      invariant gridLines == Rings(c, level - 1)
    {
      var pathData := RingPath(c, level);
      RingsSnoc(c, level - 1);
      gridLines := gridLines + [Ring(level, pathData)];
      level := level + 1;
    }
    var i := 0;
    while i < sides
      invariant 0 <= i <= sides
      invariant gridLines == Rings(c, Levels) + Axes(c, i)
    {
      var angle := Angle(c, i);
      var x := Center(c) + Radius(c) * c.cos(angle);
      var y := Center(c) + Radius(c) * c.sin(angle);
      var labelRadius := Radius(c) * 1.1;
      var labelX := Center(c) + labelRadius * c.cos(angle);
      var labelY := Center(c) + labelRadius * c.sin(angle);
      AxesSnoc(c, i);
      assert Point(x, y) == Polar(c, i, Radius(c));
      assert Point(labelX, labelY) == Polar(c, i, Radius(c) * 1.1);
      gridLines := gridLines + [Spoke(i, Point(Center(c), Center(c)), Point(x, y)),
                                Label(i, Point(labelX, labelY), c.skills[i].name)];
      i := i + 1;
    }
  }

  /** Ring `k` of the web (counting from 1) visits every axis and back to the
      first at `radius * k / 5`, starting with a move and going on with lines. */
  predicate IsRing(c: Chart, e: GridElement, k: nat)
    requires |c.skills| >= 1
  {
    e.Ring? && e.level == k && |e.d| == |c.skills| + 1 && e.d[0].M?
    && (forall j :: 1 <= j <= |c.skills| ==> e.d[j].L?)
    && (forall j :: 0 <= j <= |c.skills| ==> e.d[j].p == Polar(c, j, Radius(c) * k as real / 5.0))
  }

  /** The first `n` rings are rings 1..n, in order. */
  lemma RingsShape(c: Chart, n: nat)
    requires |c.skills| >= 1
    ensures |Rings(c, n)| == n
    ensures forall k :: 0 <= k < n ==> IsRing(c, Rings(c, n)[k], k + 1)
  {
    forall k | 0 <= k < n
      ensures IsRing(c, Rings(c, n)[k], k + 1)
    {
      assert Rings(c, n)[k] == Ring(k + 1, MoveThenLines(RingPoints(c, k + 1)));
      RingShape(c, k + 1);
    }
  }

  /** The path of ring `k` is a ring at `radius * k / 5`. */
  lemma RingShape(c: Chart, k: nat)
    requires |c.skills| >= 1
    ensures IsRing(c, Ring(k, MoveThenLines(RingPoints(c, k))), k)
  {
    var pts := RingPoints(c, k);
    var d := MoveThenLines(pts);
    assert |d| == |c.skills| + 1;
    forall j | 0 <= j <= |c.skills|
      ensures d[j].p == Polar(c, j, Radius(c) * k as real / 5.0)
    {
      assert d[j].p == pts[j];
    }
  }

  /** Axis `i` contributes its spoke then its label. */
  lemma AxesShape(c: Chart, n: nat)
    requires 1 <= |c.skills| && n <= |c.skills|
    ensures |Axes(c, n)| == 2 * n
    ensures forall i :: 0 <= i < n ==>
      Axes(c, n)[2 * i] == Spoke(i, Point(Center(c), Center(c)), Polar(c, i, Radius(c)))
      && Axes(c, n)[2 * i + 1] == Label(i, Polar(c, i, Radius(c) * 1.1), c.skills[i].name)
  {
    forall i | 0 <= i < n
      ensures Axes(c, n)[2 * i] == Spoke(i, Point(Center(c), Center(c)), Polar(c, i, Radius(c)))
      ensures Axes(c, n)[2 * i + 1] == Label(i, Polar(c, i, Radius(c) * 1.1), c.skills[i].name)
    {
      assert (2 * i) / 2 == i && (2 * i + 1) / 2 == i && (2 * i) % 2 == 0 && (2 * i + 1) % 2 == 1;
    }
  }

  /** The web has five rings then a spoke and a label per axis. Ring `k` is at
      `radius * k / 5`, so the fifth ring is the outer radius; spokes run from
      the centre to the outer ring and labels sit at 1.1 times the radius. */
  lemma GridShape(c: Chart)
    requires |c.skills| >= 1
    ensures |Grid(c)| == 5 + 2 * |c.skills|
    ensures forall k :: 0 <= k < 5 ==> IsRing(c, Grid(c)[k], k + 1)
    ensures forall j :: 0 <= j <= |c.skills| ==> Grid(c)[4].d[j].p == Polar(c, j, Radius(c))
    ensures forall i :: 0 <= i < |c.skills| ==>
      Grid(c)[5 + 2 * i] == Spoke(i, Point(Center(c), Center(c)), Polar(c, i, Radius(c)))
    ensures forall i :: 0 <= i < |c.skills| ==>
      Grid(c)[6 + 2 * i] == Label(i, Polar(c, i, Radius(c) * 1.1), c.skills[i].name)
  {
    var rings := Rings(c, Levels);
    var axes := Axes(c, |c.skills|);
    RingsShape(c, Levels);
    AxesShape(c, |c.skills|);
    assert Grid(c) == rings + axes;
    assert IsRing(c, rings[4], 5);
    assert Radius(c) * 5 as real / 5.0 == Radius(c);
  }

  /** The vertex of each skill: its score along its axis. */
  function Vertices(c: Chart): seq<Point>
    requires |c.skills| >= 1
  {
    seq(|c.skills|, i requires 0 <= i < |c.skills| => CalculatePoint(c, i, c.skills[i].score))
  }

  /** A dot drawn on a vertex, filled with the skill's colour. */
  datatype Marker = Marker(center: Point, fill: string)

  /** The closed score polygon. */
  function PolygonPath(c: Chart): seq<Command>
    requires |c.skills| >= 1
  {
    MoveThenLines(Vertices(c)) + [Z]
  }

  function Markers(c: Chart): seq<Marker>
    requires |c.skills| >= 1
  {
    seq(|c.skills|, i requires 0 <= i < |c.skills| => Marker(Vertices(c)[i], c.skills[i].color))
  }

  /** `generateSkillPolygon`: the path and the vertex markers. */
  method GenerateSkillPolygon(c: Chart) returns (pathData: seq<Command>, pointsData: seq<Marker>)
    requires |c.skills| >= 1
    ensures pathData == PolygonPath(c)
    ensures pointsData == Markers(c)
  {
    var sides := |c.skills|;
    pathData := [];
    pointsData := [];
    var i := 0;
    while i < sides
      invariant 0 <= i <= sides
      invariant pathData == MoveThenLines(Vertices(c))[..i]
      invariant pointsData == Markers(c)[..i]
    {
      var point := CalculatePoint(c, i, c.skills[i].score);
      if i == 0 {
        pathData := pathData + [M(point)];
      } else {
        pathData := pathData + [L(point)];
      }
      pointsData := pointsData + [Marker(point, c.skills[i].color)];
      i := i + 1;
    }
    pathData := pathData + [Z];
  }

  /** The polygon has one command per skill and closes with its only "Z";
      there is one marker per skill, sitting on that skill's vertex. */
  lemma PolygonShape(c: Chart)
    requires |c.skills| >= 1
    ensures |PolygonPath(c)| == |c.skills| + 1 && |Markers(c)| == |c.skills|
    ensures forall j :: 0 <= j < |PolygonPath(c)| ==> (PolygonPath(c)[j].Z? <==> j == |c.skills|)
    ensures PolygonPath(c)[0].M?
    ensures forall i :: 0 <= i < |c.skills| ==>
      Markers(c)[i].center == PolygonPath(c)[i].p == CalculatePoint(c, i, c.skills[i].score)
  {
  }

  /** A score bubble: a disc with the skill's raw score written in it. */
  datatype Indicator = Indicator(at: Point, score: real)

  /** `generateScoreIndicators`: one bubble per skill, sitting on the marker
      of that skill's vertex and showing its score. */
  function ScoreIndicators(c: Chart): (r: seq<Indicator>)
    requires |c.skills| >= 1
    ensures |r| == |Markers(c)|
    ensures forall i :: 0 <= i < |r| ==> r[i].at == Markers(c)[i].center && r[i].score == c.skills[i].score
  {
    seq(|c.skills|, i requires 0 <= i < |c.skills| => Indicator(CalculatePoint(c, i, c.skills[i].score), c.skills[i].score))
  }

  datatype ViewMode = TwoD | ThreeD

  /** A side face of the 3D view, filled with its skill's colour. */
  datatype Face = Face(d: seq<Command>, fill: string)

  /** `heightOffset`: a bottom point is its top point moved 20 down. */
  function Lowered(p: Point): Point {
    Point(p.x, p.y + 20.0)
  }

  /** Face `i` over the top points: it joins vertex `i` to the next one,
      wrapping round after the last, and their copies 20 below. */
  function FaceAt(top: seq<Point>, i: nat, fill: string): Face
    requires i < |top|
  {
    var next := (i + 1) % |top|;
    Face([M(top[i]), L(top[next]), L(Lowered(top[next])), L(Lowered(top[i])), Z], fill)
  }

  /** One face per top point, each filled with its own colour. */
  function Faces(top: seq<Point>, fills: seq<string>): seq<Face>
    requires |fills| == |top|
  {
    seq(|top|, i requires 0 <= i < |top| => FaceAt(top, i, fills[i]))
  }

  /** The skills' colours in order. */
  function Colors(c: Chart): seq<string> {
    seq(|c.skills|, i requires 0 <= i < |c.skills| => c.skills[i].color)
  }

  /** The side faces of the chart: over the score polygon's vertices. */
  function SideFaces(c: Chart): seq<Face>
    requires |c.skills| >= 1
  {
    Faces(Vertices(c), Colors(c))
  }

  /** `generate3DEffect`: nothing outside the 3D view, the side faces in it. */
  method Generate3DEffect(c: Chart, viewMode: ViewMode) returns (sideElements: Option<seq<Face>>)
    requires |c.skills| >= 1
    ensures sideElements.None? <==> viewMode != ThreeD
    ensures sideElements.Some? ==> sideElements.value == SideFaces(c)
  {
    if viewMode != ThreeD {
      return None;
    }
    var sides := |c.skills|;
    var topPoints: seq<Point> := [];
    var i := 0;
    while i < sides
      invariant 0 <= i <= sides
      invariant topPoints == Vertices(c)[..i]
    {
      topPoints := topPoints + [CalculatePoint(c, i, c.skills[i].score)];
      i := i + 1;
    }
    var bottomPoints: seq<Point> := [];
    i := 0;
    while i < sides
      invariant 0 <= i <= sides
      invariant |bottomPoints| == i
      invariant forall k :: 0 <= k < i ==> bottomPoints[k] == Lowered(Vertices(c)[k])
    {
      var point := CalculatePoint(c, i, c.skills[i].score);
      bottomPoints := bottomPoints + [Point(point.x, point.y + 20.0)];
      i := i + 1;
    }
    assert topPoints == Vertices(c);
    var faces: seq<Face> := [];
    i := 0;
    while i < sides
      invariant 0 <= i <= sides
      invariant faces == SideFaces(c)[..i]
    {
      var nextI := (i + 1) % sides;
      var sidePathData := [M(topPoints[i]), L(topPoints[nextI]), L(bottomPoints[nextI]), L(bottomPoints[i]), Z];
      faces := faces + [Face(sidePathData, c.skills[i].color)];
      i := i + 1;
    }
    assert faces == SideFaces(c);
    return Some(faces);
  }

  /** A face over the top edge from `a` to `b`: along the edge, down to the
      copy of `b` 20 below, back to the copy of `a`, and closed. */
  predicate JoinsEdge(f: Face, a: Point, b: Point) {
    f.d == [M(a), L(b), L(Lowered(b)), L(Lowered(a)), Z]
  }

  /** There is one face per skill. Face `i` runs along the top edge from
      vertex `i` to vertex `i + 1` (the last face back to vertex 0), down to the
      bottom copies of the same two vertices, and closes; so every top edge of
      the polygon has its face. */
  lemma SideFacesShape(top: seq<Point>, fills: seq<string>)
    requires |top| >= 1 && |fills| == |top|
    ensures |Faces(top, fills)| == |top|
    ensures forall i :: 0 <= i < |top| - 1 ==>
      JoinsEdge(Faces(top, fills)[i], top[i], top[i + 1]) && Faces(top, fills)[i].fill == fills[i]
    ensures JoinsEdge(Faces(top, fills)[|top| - 1], top[|top| - 1], top[0])
    ensures Faces(top, fills)[|top| - 1].fill == fills[|top| - 1]
  {
    var n := |top|;
    var faces := Faces(top, fills);
    forall i | 0 <= i < n - 1
      ensures JoinsEdge(faces[i], top[i], top[i + 1]) && faces[i].fill == fills[i]
    {
      NextIndex(i, n);
      assert faces[i] == FaceAt(top, i, fills[i]);
    }
    NextIndex(n - 1, n);
    assert faces[n - 1] == FaceAt(top, n - 1, fills[n - 1]);
  }

  /** The index after `i`, wrapping round at `n`. */
  lemma NextIndex(i: nat, n: nat)
    requires i < n
    ensures (i + 1) % n == if i + 1 < n then i + 1 else 0
  {
  }

  /** The component: its only state is the view tab, which starts in 3D. */
  class RadarChartView {
    var viewMode: ViewMode

    constructor()
      ensures viewMode == ThreeD
    {
      viewMode := ThreeD;
    }

    /** The 2D / 3D tabs. */
    method SetViewMode(mode: ViewMode)
      modifies this
      ensures viewMode == mode
    {
      viewMode := mode;
    }

    /** The drawing order of the SVG: web, side faces in 3D only, polygon and
        markers, score bubbles. */
    method Draw(c: Chart) returns (grid: seq<GridElement>, faces: seq<Face>, polygon: seq<Command>,
                                   markers: seq<Marker>, indicators: seq<Indicator>)
      requires |c.skills| >= 1
      ensures grid == Grid(c) && polygon == PolygonPath(c) && markers == Markers(c)
      ensures faces == if viewMode == ThreeD then SideFaces(c) else []
      ensures indicators == ScoreIndicators(c)
    {
      grid := GenerateGrid(c);
      faces := [];
      if viewMode == ThreeD {
        var effect := Generate3DEffect(c, viewMode);
        faces := effect.value;
      }
      polygon, markers := GenerateSkillPolygon(c);
      indicators := ScoreIndicators(c);
    }
  }

  /** The default props: six skills on a 500-unit canvas. */
  function DefaultChart(cos: real -> real, sin: real -> real): Chart {
    Chart([ SkillCategory("Code Quality", 85.0, "#4338ca"),
            SkillCategory("Problem Solving", 78.0, "#0ea5e9"),
            SkillCategory("Algorithm Efficiency", 65.0, "#10b981"),
            SkillCategory("Code Structure", 72.0, "#f59e0b"),
            SkillCategory("Documentation", 60.0, "#ef4444"),
            SkillCategory("Testing", 55.0, "#8b5cf6") ],
          500.0, 0.0, cos, sin)
  }

  /** With the defaults the centre is at 250, the radius is 200, the web has
      17 elements and the 3D view 6 faces. */
  lemma DefaultChartShape(cos: real -> real, sin: real -> real)
    ensures Center(DefaultChart(cos, sin)) == 250.0 && Radius(DefaultChart(cos, sin)) == 200.0
    ensures |Grid(DefaultChart(cos, sin))| == 17
    ensures |SideFaces(DefaultChart(cos, sin))| == 6
  {
    GridShape(DefaultChart(cos, sin));
  }
}
