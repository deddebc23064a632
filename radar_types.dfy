/**
 * Value types shared by the radar chart layer and the demo model: points,
 * colours, the fill and decoration variants of a serie, the serie itself,
 * chart parameters and the animation variants.
 *
 * GKRadarGraphView.swift, which declares these types, is not part of this
 * model; their shape is taken from how the layer and the demo model use them.
 */
module RadarTypes {

  datatype Option<+T> = None | Some(value: T)

  /** No element occurs twice. */
  ghost predicate Distinct<T>(s: seq<T>) {
    forall a, b :: 0 <= a < b < |s| ==> s[a] != s[b]
  }

  /** A point of the layer's coordinate space (CGFloat idealised as real). */
  datatype Point = Point(x: real, y: real)

  const Origin := Point(0.0, 0.0)

  /**
   * A colour. `Named(i)` is entry `i` of the demo's ten-colour palette
   * (red, black, blue, purple, cyan, yellow, orange, green, magenta, brown);
   * `Rgba` is a colour built from components; `WithAlpha` is a colour whose
   * alpha component was replaced.
   */
  datatype Color =
    | Named(index: nat)
    | Rgba(red: real, green: real, blue: real, alpha: real)
    | WithAlpha(base: Color, alpha: real)

  datatype FillMode = NoFill | Solid(color: Color)

  datatype DecorationType = Square(size: real) | Circle(size: real) | Diamond(size: real)

  /**
   * One data serie. `vertices` is the cache that the layer fills in when it
   * generates its path.
   */
  datatype Serie = Serie(
    name: string,
    percentageValues: seq<real>,
    strokeColor: Option<Color>,
    strokeWidth: Option<real>,
    fillMode: FillMode,
    decoration: Option<DecorationType>,
    vertices: seq<Point>)

  /** A serie as `Serie()` creates it, before any field is assigned. */
  const EmptySerie := Serie("", [], None, None, NoFill, None, [])

  /** One axis of the chart; its outer vertex is known once the chart is laid out. */
  datatype Parameter = Parameter(name: string, outerVertex: Option<Point>)

  /** How the series of a chart are animated; the payload is a step duration. */
  datatype SeriesAnimation =
    | NoAnimation
    | ScaleAll(duration: real)
    | ScaleOneByOne(duration: real)
    | ParameterByParameter(duration: real)

  /** What a layer reads from its parameter data source. */
  datatype ParameterSource = ParameterSource(parameters: seq<Parameter>, circleCenter: Point, circleRadius: real)
}
