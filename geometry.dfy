/**
 * The geometry of one serie: outer vertices taken from the parameters,
 * the serie's vertices placed on the spokes by their percentage values,
 * and polygon paths through a list of points.
 */
module RadarGeometry {
  import opened RadarTypes

  /**
   * The outer vertices of the parameters that have one, in parameter order;
   * parameters without an outer vertex are dropped.
   */
  function OuterVertices(params: seq<Parameter>): (vs: seq<Point>)
    ensures |vs| <= |params|
    ensures (forall i :: 0 <= i < |params| ==> params[i].outerVertex.Some?) ==>
              |vs| == |params| && forall i :: 0 <= i < |params| ==> vs[i] == params[i].outerVertex.value
    ensures (forall i :: 0 <= i < |params| ==> params[i].outerVertex.None?) ==> vs == []
  {
    if params == [] then []
    else
      var rest := OuterVertices(params[1..]);
      match params[0].outerVertex
      case Some(p) => [p] + rest
      case None => rest
  }

  /** The outer vertices are exactly the outer vertices that the parameters have. */
  lemma {:induction false} OuterVerticesArePresent(params: seq<Parameter>)
    ensures forall p :: p in OuterVertices(params) <==> exists i :: 0 <= i < |params| && params[i].outerVertex == Some(p)
  {
    if params != [] {
      OuterVerticesArePresent(params[1..]);
      forall p | (exists i :: 0 <= i < |params[1..]| && params[1..][i].outerVertex == Some(p))
        ensures exists i :: 0 <= i < |params| && params[i].outerVertex == Some(p)
      {
        var i :| 0 <= i < |params[1..]| && params[1..][i].outerVertex == Some(p);
        assert params[i + 1].outerVertex == Some(p);
      }
      forall p | (exists i :: 0 <= i < |params| && params[i].outerVertex == Some(p))
        ensures p in OuterVertices(params)
      {
        var i :| 0 <= i < |params| && params[i].outerVertex == Some(p);
        if i > 0 {
          assert params[1..][i - 1].outerVertex == Some(p);
        }
      }
    }
  }

  /**
   * Outer vertices keep parameter order: those of a concatenation are those
   * of the first part followed by those of the second.
   */
  lemma {:induction false} OuterVerticesAppend(a: seq<Parameter>, b: seq<Parameter>)
    ensures OuterVertices(a + b) == OuterVertices(a) + OuterVertices(b)
  {
    if a == [] {
      assert a + b == b;
    } else {
      assert (a + b)[1..] == a[1..] + b;
      OuterVerticesAppend(a[1..], b);
    }
  }

  /** The percentage value of parameter `i`: the serie's entry if it has one, else 0. */
  function ValueAt(values: seq<real>, i: nat): real {
    if i < |values| then values[i] else 0.0
  }

  /** The point at fraction `value` of the way from `center` to `outer`. */
  function ScaledVertex(center: Point, outer: Point, value: real): Point {
    Point(center.x + (outer.x - center.x) * value, center.y + (outer.y - center.y) * value)
  }

  /** The vertices of a serie: one per outer vertex, scaled by the matching value. */
  function SerieVertices(outer: seq<Point>, center: Point, values: seq<real>): seq<Point> {
    seq(|outer|, i requires 0 <= i < |outer| => ScaledVertex(center, outer[i], ValueAt(values, i)))
  }

  /** Squared Euclidean distance. */
  function Dist2(p: Point, q: Point): real {
    (p.x - q.x) * (p.x - q.x) + (p.y - q.y) * (p.y - q.y)
  }

  /** A missing value or a value of 0 puts the vertex at the centre. */
  lemma MissingOrZeroValueGivesCenter(outer: seq<Point>, center: Point, values: seq<real>, i: nat)
    requires i < |outer|
    requires i >= |values| || values[i] == 0.0
    ensures |SerieVertices(outer, center, values)| == |outer|
    ensures SerieVertices(outer, center, values)[i] == center
  {
  }

  /** A value of 1 puts the vertex on the outer vertex. */
  lemma FullValueGivesOuterVertex(outer: seq<Point>, center: Point, values: seq<real>, i: nat)
    requires i < |outer| && i < |values| && values[i] == 1.0
    ensures SerieVertices(outer, center, values)[i] == outer[i]
  {
  }

  /**
   * Vertex `i` lies on the spoke through outer vertex `i`: it is collinear
   * with the centre and the outer vertex, its distance from the centre is
   * |v| times the spoke's length, and for v in [0, 1] it is no farther out
   * than the outer vertex.
   */
  lemma VertexOnSpoke(outer: seq<Point>, center: Point, values: seq<real>, i: nat)
    requires i < |outer|
    ensures var p, o, v := SerieVertices(outer, center, values)[i], outer[i], ValueAt(values, i);
      && (p.x - center.x) * (o.y - center.y) == (p.y - center.y) * (o.x - center.x)
      && Dist2(p, center) == v * v * Dist2(o, center)
      && (0.0 <= v <= 1.0 ==> Dist2(p, center) <= Dist2(o, center))
  {
    var p, o, v := SerieVertices(outer, center, values)[i], outer[i], ValueAt(values, i);
    var dx, dy := o.x - center.x, o.y - center.y;
    assert p.x - center.x == dx * v && p.y - center.y == dy * v;
    ScaledSquare(dx, dy, v);
  }

  lemma ScaledSquare(dx: real, dy: real, v: real)
    ensures (dx * v) * (dx * v) + (dy * v) * (dy * v) == v * v * (dx * dx + dy * dy)
    ensures 0.0 <= v <= 1.0 ==> v * v * (dx * dx + dy * dy) <= dx * dx + dy * dy
  {
    var d := dx * dx + dy * dy;
    assert d >= 0.0;
    if 0.0 <= v <= 1.0 {
      assert v * v <= 1.0 by {
        assert v * v <= v * 1.0;
      }
      assert (1.0 - v * v) * d >= 0.0;
    }
  }

  // Paths

  /** One command given to a path builder. */
  datatype PathElement = MoveTo(point: Point) | LineTo(point: Point) | Close

  type Path = seq<PathElement>

  /** The command issued for the point at `offset` while tracing through points: move to the first, line to the others. */
  function TraceElement(p: Point, offset: nat): PathElement {
    if offset == 0 then MoveTo(p) else LineTo(p)
  }

  /** The commands that trace through `pts` in order, before the path is closed. */
  function OpenPath(pts: seq<Point>): Path {
    seq(|pts|, i requires 0 <= i < |pts| => TraceElement(pts[i], i))
  }

  /** The closed polygon through `pts`: move, lines, close. */
  function PolygonPath(pts: seq<Point>): Path {
    OpenPath(pts) + [Close]
  }

  /** The points a path visits, in order. */
  function Visited(path: Path): seq<Point> {
    if path == [] then []
    else (if path[0].Close? then [] else [path[0].point]) + Visited(path[1..])
  }

  /** A path made of one move, then lines, then a close. */
  predicate IsClosedPolygon(path: Path) {
    && |path| >= 1
    && path[|path| - 1] == Close
    && (|path| > 1 ==> path[0].MoveTo?)
    && forall i :: 1 <= i < |path| - 1 ==> path[i].LineTo?
  }

  lemma {:induction false} VisitedAppend(a: Path, b: Path)
    ensures Visited(a + b) == Visited(a) + Visited(b)
  {
    if a == [] {
      assert a + b == b;
    } else {
      assert (a + b)[1..] == a[1..] + b;
      VisitedAppend(a[1..], b);
    }
  }

  lemma {:induction false} OpenPathVisits(pts: seq<Point>)
    ensures Visited(OpenPath(pts)) == pts
  {
    if pts != [] {
      var n := |pts|;
      var init := pts[..n - 1];
      assert OpenPath(pts) == OpenPath(init) + [TraceElement(pts[n - 1], n - 1)];
      VisitedAppend(OpenPath(init), [TraceElement(pts[n - 1], n - 1)]);
      OpenPathVisits(init);
      assert pts == init + [pts[n - 1]];
    }
  }

  /**
   * The polygon through `pts` is closed, has one command per point plus the
   * close, starts at the first point and visits exactly `pts` in order.
   */
  lemma PolygonPathTraces(pts: seq<Point>)
    ensures IsClosedPolygon(PolygonPath(pts))
    ensures |PolygonPath(pts)| == |pts| + 1
    ensures pts != [] ==> PolygonPath(pts)[0] == MoveTo(pts[0])
    ensures Visited(PolygonPath(pts)) == pts
  {
    OpenPathVisits(pts);
    VisitedAppend(OpenPath(pts), [Close]);
    assert Visited([Close]) == [];
  }

  // Animation key frames

  /** `n` copies of the centre: the collapsed polygon a scale animation starts from. */
  function CenterPoints(n: nat, center: Point): seq<Point> {
    seq(n, _ => center)
  }

  /** The vertices with index below `k`, and the centre in place of the others. */
  function RevealPoints(vertices: seq<Point>, center: Point, k: int): seq<Point> {
    seq(|vertices|, i requires 0 <= i < |vertices| => if i < k then vertices[i] else center)
  }

  /**
   * Revealing no vertex gives the collapsed polygon and revealing all of them
   * gives the vertices; two successive cursors differ at most at index `k`,
   * where the centre is replaced by vertex `k`.
   */
  lemma RevealPointsSteps(vertices: seq<Point>, center: Point, k: int)
    ensures k <= 0 ==> RevealPoints(vertices, center, k) == CenterPoints(|vertices|, center)
    ensures k >= |vertices| ==> RevealPoints(vertices, center, k) == vertices
    ensures forall i :: 0 <= i < |vertices| && i != k ==>
              RevealPoints(vertices, center, k)[i] == RevealPoints(vertices, center, k + 1)[i]
    ensures 0 <= k < |vertices| ==>
              RevealPoints(vertices, center, k)[k] == center && RevealPoints(vertices, center, k + 1)[k] == vertices[k]
  {
  }
}
