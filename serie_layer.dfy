/**
 * The layer that draws one serie of a radar chart: assigning its serie,
 * generating its polygon, building its two kinds of path animation, and
 * reacting when an animation stops, which drives the chain of layers.
 *
 * The layer is a class whose fields are the layer's state. `State()` is the
 * value of those fields; each method is specified by a function from the old
 * value to the new one, and the lemmas below say what those functions mean.
 * The chain of layers is a sequence of distinct layers in which the next
 * layer of `chain[j]` is `chain[j + 1]`.
 */
module SerieLayers {
  import opened RadarTypes
  import opened RadarGeometry

  /** The decoration sublayer, reduced to its visibility and its serie. */
  datatype DecorationState = DecorationState(isHidden: bool, serie: Option<Serie>)

  /** A path animation added to the layer: the two key-frame paths and the duration. */
  datatype PathAnimation = PathAnimation(fromPath: Path, toPath: Path, duration: real)

  /** The value of every field of a layer. */
  datatype LayerState = LayerState(
    parameterSource: Option<ParameterSource>,
    serie: Option<Serie>,
    fillColor: Option<Color>,
    strokeColor: Option<Color>,
    lineWidth: real,
    path: Option<Path>,
    decoration: DecorationState,
    lastAnimatedVertexIndex: int,
    animationType: SeriesAnimation,
    isHidden: bool,
    animation: Option<PathAnimation>)

  /** Opaque black, the fill colour of a shape layer nobody has set one on. */
  const DefaultFillColor := Rgba(0.0, 0.0, 0.0, 1.0)

  /** A freshly initialised layer. */
  const InitialState := LayerState(None, None, Some(DefaultFillColor), None, 1.0, None,
                                   DecorationState(false, None), 0, NoAnimation, false, None)

  // What the layer reads from its data source

  function ParametersOf(source: Option<ParameterSource>): seq<Parameter> {
    match source
    case Some(s) => s.parameters
    case None => []
  }

  function CenterOf(source: Option<ParameterSource>): Point {
    match source
    case Some(s) => s.circleCenter
    case None => Origin
  }

  /** The vertices cached on the layer's serie; none when there is no serie. */
  function CachedVertices(st: LayerState): seq<Point> {
    match st.serie
    case Some(s) => s.vertices
    case None => []
  }

  // Assigning the serie

  function FillColorOf(serie: Option<Serie>): Option<Color> {
    match serie
    case Some(s) => (match s.fillMode case Solid(c) => Some(c) case NoFill => None)
    case None => None
  }

  function StrokeColorOf(serie: Option<Serie>): Option<Color> {
    match serie
    case Some(s) => s.strokeColor
    case None => None
  }

  function LineWidthOf(serie: Option<Serie>): real {
    match serie
    case Some(Serie(_, _, _, Some(w), _, _, _)) => w
    case _ => 1.0
  }

  /** The state after `serie` is assigned: the setter derives the style fields and the decoration's serie. */
  function WithSerie(st: LayerState, serie: Option<Serie>): LayerState {
    st.(serie := serie,
        fillColor := FillColorOf(serie),
        strokeColor := StrokeColorOf(serie),
        lineWidth := LineWidthOf(serie),
        decoration := st.decoration.(serie := serie))
  }

  /** The style fields and the decoration agree with the serie. */
  predicate StyleInSync(st: LayerState) {
    && st.fillColor == FillColorOf(st.serie)
    && st.strokeColor == StrokeColorOf(st.serie)
    && st.lineWidth == LineWidthOf(st.serie)
    && st.decoration.serie == st.serie
  }

  /**
   * Assigning a serie sets the fill colour to the solid colour or to none,
   * the stroke colour to the serie's, the line width to the serie's stroke
   * width or 1, and the decoration's serie to the serie; nothing else moves.
   */
  lemma SerieAssignment(st: LayerState, serie: Option<Serie>)
    ensures var r := WithSerie(st, serie);
      && StyleInSync(r)
      && r.serie == serie
      && (serie.None? || serie.value.fillMode.NoFill? ==> r.fillColor.None?)
      && (serie.Some? && serie.value.fillMode.Solid? ==> r.fillColor == Some(serie.value.fillMode.color))
      && (serie.Some? && serie.value.strokeWidth.Some? ==> r.lineWidth == serie.value.strokeWidth.value)
      && (serie.None? || serie.value.strokeWidth.None? ==> r.lineWidth == 1.0)
      && (serie.Some? ==> r.strokeColor == serie.value.strokeColor)
      && (serie.None? ==> r.strokeColor.None?)
      && r == st.(serie := r.serie, fillColor := r.fillColor, strokeColor := r.strokeColor,
                  lineWidth := r.lineWidth, decoration := r.decoration)
      && r.decoration.isHidden == st.decoration.isHidden
  {
  }

  // Generating the path

  /**
   * The state after the path is generated: nothing changes without a serie
   * or without outer vertices; otherwise the serie's vertex cache is
   * replaced (which re-runs the serie setter) and the path becomes the
   * closed polygon through the new vertices.
   */
  function AfterGeneratePath(st: LayerState): LayerState {
    var outer := OuterVertices(ParametersOf(st.parameterSource));
    if st.serie.None? || outer == [] then st
    else
      var vertices := SerieVertices(outer, CenterOf(st.parameterSource), st.serie.value.percentageValues);
      WithSerie(st, Some(st.serie.value.(vertices := vertices))).(path := Some(PolygonPath(vertices)))
  }

  lemma GeneratePathNoOp(st: LayerState)
    requires st.serie.None? || OuterVertices(ParametersOf(st.parameterSource)) == []
    ensures AfterGeneratePath(st) == st
  {
  }

  /**
   * With a serie and at least one outer vertex, the serie caches one vertex
   * per outer vertex, vertex `i` at fraction v_i (the value, or 0 when
   * missing) from the centre to outer vertex `i`; the path is the closed
   * polygon visiting exactly those vertices in order from vertex 0; the
   * serie keeps its values and the style stays in sync.
   */
  lemma GeneratePathGeometry(st: LayerState)
    requires st.serie.Some? && OuterVertices(ParametersOf(st.parameterSource)) != []
    ensures var r, outer, center := AfterGeneratePath(st), OuterVertices(ParametersOf(st.parameterSource)), CenterOf(st.parameterSource);
      && r.serie.Some?
      && r.serie.value == st.serie.value.(vertices := r.serie.value.vertices)
      && |r.serie.value.vertices| == |outer|
      && (forall i :: 0 <= i < |outer| ==>
            r.serie.value.vertices[i] == ScaledVertex(center, outer[i], ValueAt(st.serie.value.percentageValues, i)))
      && r.path.Some?
      && IsClosedPolygon(r.path.value)
      && Visited(r.path.value) == r.serie.value.vertices
      && r.path.value[0] == MoveTo(r.serie.value.vertices[0])
      && StyleInSync(r)
      && r == st.(serie := r.serie, fillColor := r.fillColor, strokeColor := r.strokeColor, lineWidth := r.lineWidth,
                  path := r.path, decoration := st.decoration.(serie := r.serie))
  {
    var r := AfterGeneratePath(st);
    PolygonPathTraces(r.serie.value.vertices);
  }

  /** Generating the path twice gives the state of generating it once. */
  lemma GeneratePathIdempotent(st: LayerState)
    ensures AfterGeneratePath(AfterGeneratePath(st)) == AfterGeneratePath(st)
  {
  }

  // Animations

  /** From every point at the centre to the cached vertices. */
  function ScaleAnimation(vertices: seq<Point>, center: Point, duration: real): PathAnimation {
    PathAnimation(PolygonPath(CenterPoints(|vertices|, center)), PolygonPath(vertices), duration)
  }

  /** From the first `k` vertices revealed to the first `k + 1`. */
  function ParameterAnimation(vertices: seq<Point>, center: Point, k: int, duration: real): PathAnimation {
    PathAnimation(PolygonPath(RevealPoints(vertices, center, k)), PolygonPath(RevealPoints(vertices, center, k + 1)), duration)
  }

  function WithScaleAnimation(st: LayerState, duration: real): LayerState {
    st.(animation := Some(ScaleAnimation(CachedVertices(st), CenterOf(st.parameterSource), duration)))
  }

  function WithParameterAnimation(st: LayerState, duration: real): LayerState {
    if st.serie.None? then st
    else st.(animation := Some(ParameterAnimation(st.serie.value.vertices, CenterOf(st.parameterSource),
                                                  st.lastAnimatedVertexIndex, duration)))
  }

  /**
   * The scale animation goes from a closed polygon with one point per cached
   * vertex, all at the centre, to the closed polygon through the cached
   * vertices; the two paths have the same length; nothing else changes.
   */
  lemma ScaleAnimationPaths(st: LayerState, duration: real)
    ensures var r, vs, c := WithScaleAnimation(st, duration), CachedVertices(st), CenterOf(st.parameterSource);
      && r.animation.Some?
      && r.animation.value.duration == duration
      && IsClosedPolygon(r.animation.value.fromPath) && IsClosedPolygon(r.animation.value.toPath)
      && |Visited(r.animation.value.fromPath)| == |vs|
      && (forall p :: p in Visited(r.animation.value.fromPath) ==> p == c)
      && Visited(r.animation.value.toPath) == vs
      && |r.animation.value.fromPath| == |r.animation.value.toPath|
      && r == st.(animation := r.animation)
  {
    var vs, c := CachedVertices(st), CenterOf(st.parameterSource);
    PolygonPathTraces(CenterPoints(|vs|, c));
    PolygonPathTraces(vs);
  }

  /**
   * Without a serie no animation is added. Otherwise, with cursor k, the
   * from path visits vertex i when i < k and the centre otherwise, the to
   * path vertex i when i < k + 1 and the centre otherwise, so the two
   * differ at most at index k.
   */
  lemma ParameterAnimationPaths(st: LayerState, duration: real)
    ensures st.serie.None? ==> WithParameterAnimation(st, duration) == st
    ensures st.serie.Some? ==>
      var r, vs, c, k := WithParameterAnimation(st, duration), st.serie.value.vertices,
                         CenterOf(st.parameterSource), st.lastAnimatedVertexIndex;
      && r.animation.Some?
      && r == st.(animation := r.animation)
      && IsClosedPolygon(r.animation.value.fromPath) && IsClosedPolygon(r.animation.value.toPath)
      && |Visited(r.animation.value.fromPath)| == |vs| == |Visited(r.animation.value.toPath)|
      && (forall i :: 0 <= i < |vs| ==>
            && Visited(r.animation.value.fromPath)[i] == (if i < k then vs[i] else c)
            && Visited(r.animation.value.toPath)[i] == (if i < k + 1 then vs[i] else c))
      && (forall i :: 0 <= i < |vs| && i != k ==>
            Visited(r.animation.value.fromPath)[i] == Visited(r.animation.value.toPath)[i])
  {
    if st.serie.Some? {
      var vs, c, k := st.serie.value.vertices, CenterOf(st.parameterSource), st.lastAnimatedVertexIndex;
      PolygonPathTraces(RevealPoints(vs, c, k));
      PolygonPathTraces(RevealPoints(vs, c, k + 1));
    }
  }

  // Reacting to a stopped animation

  /** Visible, decoration visible, all animations removed. */
  function Interrupted(st: LayerState): LayerState {
    st.(isHidden := false, decoration := st.decoration.(isHidden := false), animation := None)
  }

  function DecorationRevealed(st: LayerState): LayerState {
    st.(decoration := st.decoration.(isHidden := false))
  }

  /**
   * The states of a chain after the animation of layer `j` stops. When it
   * did not finish, layer `j` and every layer after it are made visible with
   * their decorations and lose their animations. When it finished, what
   * happens depends on layer `j`'s animation type.
   */
  function AfterStop(ls: seq<LayerState>, j: nat, finished: bool): (r: seq<LayerState>)
    requires j < |ls|
    ensures |r| == |ls|
  {
    if !finished then
      seq(|ls|, i requires 0 <= i < |ls| => if i < j then ls[i] else Interrupted(ls[i]))
    else
      match ls[j].animationType
      case ParameterByParameter(duration) =>
        var advanced := ls[j].(lastAnimatedVertexIndex := ls[j].lastAnimatedVertexIndex + 1);
        var k := advanced.lastAnimatedVertexIndex;
        if k < |CachedVertices(advanced)| then
          ls[j := WithParameterAnimation(advanced, duration)]
        else if advanced.serie.Some? && k == |advanced.serie.value.vertices| then
          var done := ls[j := DecorationRevealed(advanced)];
          if j + 1 < |ls| then done[j + 1 := WithParameterAnimation(ls[j + 1].(isHidden := false), duration)]
          else done
        else
          ls[j := advanced]
      case ScaleOneByOne(duration) =>
        var done := ls[j := DecorationRevealed(ls[j])];
        if j + 1 < |ls| then done[j + 1 := WithScaleAnimation(ls[j + 1].(isHidden := false), duration)]
        else done
      case ScaleAll(_) =>
        ls[j := DecorationRevealed(ls[j])]
      case NoAnimation =>
        ls
  }

  /**
   * An interruption leaves layer `j` and every later layer visible, with a
   * visible decoration and no animation, and changes nothing else: earlier
   * layers are untouched and every cursor keeps its value. Interrupting
   * again changes nothing more.
   */
  lemma InterruptionShowsRestOfChain(ls: seq<LayerState>, j: nat)
    requires j < |ls|
    ensures var r := AfterStop(ls, j, false);
      && (forall i :: j <= i < |ls| ==> !r[i].isHidden && !r[i].decoration.isHidden && r[i].animation.None?)
      && (forall i :: 0 <= i < j ==> r[i] == ls[i])
      && (forall i :: 0 <= i < |ls| ==> r[i].lastAnimatedVertexIndex == ls[i].lastAnimatedVertexIndex)
      && (forall i :: 0 <= i < |ls| ==>
            r[i] == ls[i].(isHidden := r[i].isHidden, decoration := r[i].decoration, animation := r[i].animation))
      && AfterStop(r, j, false) == r
  {
  }

  /**
   * A finished step of a parameter-by-parameter animation advances the
   * cursor by one. Below the vertex count the same layer animates the next
   * vertex. At the count its decoration is revealed and the next layer, if
   * any, is shown and starts its own animation from its own cursor (when it
   * has a serie). Past the count, or without a serie, nothing else happens.
   * No other field and no other layer changes.
   */
  lemma ParameterStep(ls: seq<LayerState>, j: nat)
    requires j < |ls| && ls[j].animationType.ParameterByParameter?
    ensures var r, d, k := AfterStop(ls, j, true), ls[j].animationType.duration, ls[j].lastAnimatedVertexIndex + 1;
      && (forall i :: 0 <= i < |ls| && i != j && i != j + 1 ==> r[i] == ls[i])
      && (ls[j].serie.Some? && k < |ls[j].serie.value.vertices| ==>
            r == ls[j := ls[j].(lastAnimatedVertexIndex := k,
                                animation := Some(ParameterAnimation(ls[j].serie.value.vertices,
                                                                     CenterOf(ls[j].parameterSource), k, d)))])
      && (ls[j].serie.Some? && k == |ls[j].serie.value.vertices| ==>
            && r[j] == ls[j].(lastAnimatedVertexIndex := k, decoration := ls[j].decoration.(isHidden := false))
            && (j + 1 < |ls| ==>
                  r[j + 1] == ls[j + 1].(isHidden := false,
                                         animation := if ls[j + 1].serie.None? then ls[j + 1].animation
                                                      else Some(ParameterAnimation(ls[j + 1].serie.value.vertices,
                                                                                   CenterOf(ls[j + 1].parameterSource),
                                                                                   ls[j + 1].lastAnimatedVertexIndex, d)))))
      && (ls[j].serie.None? || k > |ls[j].serie.value.vertices| ==>
            r == ls[j := ls[j].(lastAnimatedVertexIndex := k)])
  {
  }

  /**
   * A finished scale-one-by-one step reveals this layer's decoration and
   * shows the next layer, if any, starting its scale animation; a finished
   * scale-all step only reveals the decoration; without an animation type
   * nothing changes. Cursors never move in these modes.
   */
  lemma ScaleStep(ls: seq<LayerState>, j: nat)
    requires j < |ls| && !ls[j].animationType.ParameterByParameter?
    ensures var r := AfterStop(ls, j, true);
      && (forall i :: 0 <= i < |ls| ==> r[i].lastAnimatedVertexIndex == ls[i].lastAnimatedVertexIndex)
      && (ls[j].animationType.NoAnimation? ==> r == ls)
      && (ls[j].animationType.ScaleAll? ==> r == ls[j := ls[j].(decoration := ls[j].decoration.(isHidden := false))])
      && (ls[j].animationType.ScaleOneByOne? ==>
            && r[j] == ls[j].(decoration := ls[j].decoration.(isHidden := false))
            && (forall i :: 0 <= i < |ls| && i != j && i != j + 1 ==> r[i] == ls[i])
            && (j + 1 < |ls| ==>
                  r[j + 1] == ls[j + 1].(isHidden := false,
                                         animation := Some(ScaleAnimation(CachedVertices(ls[j + 1]),
                                                                          CenterOf(ls[j + 1].parameterSource),
                                                                          ls[j].animationType.duration)))))
  {
  }

  /**
   * A finished step reveals no decoration but that of the layer whose
   * animation stopped.
   */
  lemma FinishedStepRevealsOwnDecorationOnly(ls: seq<LayerState>, j: nat)
    requires j < |ls|
    ensures forall i :: 0 <= i < |ls| && i != j ==> AfterStop(ls, j, true)[i].decoration == ls[i].decoration
  {
  }

  /** The chain after layers 0 to n - 1 have each finished their animation, in chain order. */
  function ScaleRun(ls: seq<LayerState>, n: nat): (r: seq<LayerState>)
    requires n <= |ls|
    ensures |r| == |ls|
  {
    if n == 0 then ls else AfterStop(ScaleRun(ls, n - 1), n - 1, true)
  }

  /**
   * Layer `i` once its scale animation has started: the first layer is
   * started by the caller, every later one by the stop of the layer before.
   */
  function ScaleStarted(ls: seq<LayerState>, i: nat): LayerState
    requires i < |ls| && (0 < i ==> ls[i - 1].animationType.ScaleOneByOne?)
  {
    if i == 0 then ls[0]
    else WithScaleAnimation(ls[i].(isHidden := false), ls[i - 1].animationType.duration)
  }

  /**
   * In a scale-one-by-one chain, after the first n layers have finished one
   * after another, exactly their decorations are revealed: layer n is shown
   * and animating with its decoration as it was, and every later layer is
   * untouched.
   */
  lemma {:induction false} ScaleRunInOrder(ls: seq<LayerState>, n: nat)
    requires n <= |ls| && forall i :: 0 <= i < |ls| ==> ls[i].animationType.ScaleOneByOne?
    ensures var r := ScaleRun(ls, n);
      && (forall i :: 0 <= i < n ==> r[i] == DecorationRevealed(ScaleStarted(ls, i)))
      && (n < |ls| ==> r[n] == ScaleStarted(ls, n) && r[n].decoration == ls[n].decoration)
      && (forall i :: n < i < |ls| ==> r[i] == ls[i])
  {
    if n > 0 {
      ScaleRunInOrder(ls, n - 1);
      ScaleStep(ScaleRun(ls, n - 1), n - 1);
    }
  }

  /** Every stop keeps each layer's style in sync with its serie. */
  lemma StopKeepsStyleInSync(ls: seq<LayerState>, j: nat, finished: bool)
    requires j < |ls| && forall i :: 0 <= i < |ls| ==> StyleInSync(ls[i])
    ensures forall i :: 0 <= i < |ls| ==> StyleInSync(AfterStop(ls, j, finished)[i])
  {
    forall i | 0 <= i < |ls|
      ensures StyleInSync(AfterStop(ls, j, finished)[i])
    {
      StopKeepsStyleAt(ls, j, finished, i);
    }
  }

  /** A stop changes no layer's serie, colours, line width or decoration serie. */
  lemma StopKeepsStyleAt(ls: seq<LayerState>, j: nat, finished: bool, i: nat)
    requires j < |ls| && i < |ls|
    ensures var r := AfterStop(ls, j, finished)[i];
      r.serie == ls[i].serie && r.fillColor == ls[i].fillColor && r.strokeColor == ls[i].strokeColor
      && r.lineWidth == ls[i].lineWidth && r.decoration.serie == ls[i].decoration.serie
  {
  }

  /** The chain after `n` finished steps of layer `j`. */
  function FinishedSteps(ls: seq<LayerState>, j: nat, n: nat): (r: seq<LayerState>)
    requires j < |ls|
    ensures |r| == |ls|
  {
    if n == 0 then ls else AfterStop(FinishedSteps(ls, j, n - 1), j, true)
  }

  /**
   * Starting a parameter-by-parameter reveal of m vertices from cursor 0,
   * each of the first m - 1 finished steps re-animates layer `j` on the next
   * vertex, leaving every other layer untouched; the cursor stays below m.
   */
  lemma {:induction false} RevealRunBeforeLast(ls: seq<LayerState>, j: nat, n: nat)
    requires j < |ls| && ls[j].animationType.ParameterByParameter? && ls[j].serie.Some?
    requires ls[j].lastAnimatedVertexIndex == 0
    requires 0 < n < |ls[j].serie.value.vertices|
    ensures var r := FinishedSteps(ls, j, n);
      && r[j] == ls[j].(lastAnimatedVertexIndex := n,
                        animation := Some(ParameterAnimation(ls[j].serie.value.vertices, CenterOf(ls[j].parameterSource),
                                                             n, ls[j].animationType.duration)))
      && forall i :: 0 <= i < |ls| && i != j ==> r[i] == ls[i]
  {
    if n > 1 {
      RevealRunBeforeLast(ls, j, n - 1);
    }
  }

  /**
   * The m-th finished step of that reveal sets the cursor to exactly m and
   * reveals the decoration of layer `j`, whose animation stays the one that
   * revealed the last vertex. The next layer, if any, is shown and starts
   * its own reveal from its own cursor; every other layer is untouched.
   */
  lemma RevealRunHandsOff(ls: seq<LayerState>, j: nat)
    requires j < |ls| && ls[j].animationType.ParameterByParameter? && ls[j].serie.Some?
    requires ls[j].lastAnimatedVertexIndex == 0 && |ls[j].serie.value.vertices| > 0
    ensures var vs, c, d := ls[j].serie.value.vertices, CenterOf(ls[j].parameterSource), ls[j].animationType.duration;
      var m, r := |vs|, FinishedSteps(ls, j, |vs|);
      && r[j] == ls[j].(lastAnimatedVertexIndex := m,
                        decoration := ls[j].decoration.(isHidden := false),
                        animation := if m > 1 then Some(ParameterAnimation(vs, c, m - 1, d)) else ls[j].animation)
      && (forall i :: 0 <= i < |ls| && i != j && i != j + 1 ==> r[i] == ls[i])
      && (j + 1 < |ls| ==>
            r[j + 1] == ls[j + 1].(isHidden := false,
                                   animation := if ls[j + 1].serie.None? then ls[j + 1].animation
                                                else Some(ParameterAnimation(ls[j + 1].serie.value.vertices,
                                                                             CenterOf(ls[j + 1].parameterSource),
                                                                             ls[j + 1].lastAnimatedVertexIndex, d))))
  {
    var m := |ls[j].serie.value.vertices|;
    if m > 1 {
      RevealRunBeforeLast(ls, j, m - 1);
      ParameterStep(FinishedSteps(ls, j, m - 1), j);
    } else {
      ParameterStep(ls, j);
    }
  }

  /** The states of the layers of a chain, in chain order. */
  ghost function ChainState(chain: seq<SerieLayer>): seq<LayerState>
    reads chain
  {
    seq(|chain|, i requires 0 <= i < |chain| reads chain => chain[i].State())
  }

  class SerieLayer {
    var parameterSource: Option<ParameterSource>
    var serie: Option<Serie>
    var fillColor: Option<Color>
    var strokeColor: Option<Color>
    var lineWidth: real
    var path: Option<Path>
    var decoration: DecorationState
    /** Index of the last animated vertex, used to chain vertex-by-vertex animations. */
    var lastAnimatedVertexIndex: int
    var animationType: SeriesAnimation
    var isHidden: bool
    /** The path animation currently attached to the layer, if any. */
    var animation: Option<PathAnimation>

    ghost function State(): LayerState
      reads this
    {
      LayerState(parameterSource, serie, fillColor, strokeColor, lineWidth, path, decoration,
                 lastAnimatedVertexIndex, animationType, isHidden, animation)
    }

    constructor ()
      ensures State() == InitialState
    {
      parameterSource := None;
      serie := None;
      fillColor := Some(DefaultFillColor);
      strokeColor := None;
      lineWidth := 1.0;
      path := None;
      decoration := DecorationState(false, None);
      lastAnimatedVertexIndex := 0;
      animationType := NoAnimation;
      isHidden := false;
      animation := None;
    }

    /** Assigns the serie and runs the setter's observer. */
    method SetSerie(newSerie: Option<Serie>)
      modifies this
      ensures State() == WithSerie(old(State()), newSerie)
    {
      serie := newSerie;
      if newSerie.Some? {
        match newSerie.value.fillMode
        case NoFill => fillColor := None;
        case Solid(color) => fillColor := Some(color);
      } else {
        fillColor := None;
      }
      strokeColor := if newSerie.Some? then newSerie.value.strokeColor else None;
      lineWidth := if newSerie.Some? && newSerie.value.strokeWidth.Some? then newSerie.value.strokeWidth.value else 1.0;
      decoration := decoration.(serie := newSerie);
    }

    /** Computes the serie's vertices, caches them on the serie and sets the path to the polygon through them. */
    method GeneratePath()
      modifies this
      ensures State() == AfterGeneratePath(old(State()))
    {
      if serie.None? {
        return;
      }
      var serieInstance := serie.value;
      var outerVertices := OuterVertices(ParametersOf(parameterSource));
      if outerVertices == [] {
        return;
      }
      var center := CenterOf(parameterSource);
      var values := serieInstance.percentageValues;
      var bezierPath: Path := [];
      var allSerieVertices: seq<Point> := [];
      for offset := 0 to |outerVertices|
        invariant |allSerieVertices| == offset && |bezierPath| == offset
        invariant forall i :: 0 <= i < offset ==>
                    allSerieVertices[i] == ScaledVertex(center, outerVertices[i], ValueAt(values, i))
        invariant forall i :: 0 <= i < offset ==> bezierPath[i] == TraceElement(allSerieVertices[i], i)
      {
        var vertex := outerVertices[offset];
        var differenceX := vertex.x - center.x;
        var differenceY := vertex.y - center.y;
        var scalarMultiplier := if |values| > offset then values[offset] else 0.0;
        var point := Point(center.x + differenceX * scalarMultiplier, center.y + differenceY * scalarMultiplier);
        assert point == ScaledVertex(center, vertex, ValueAt(values, offset));
        allSerieVertices := allSerieVertices + [point];
        if offset == 0 {
          bezierPath := bezierPath + [MoveTo(point)];
        } else {
          bezierPath := bezierPath + [LineTo(point)];
        }
      }
      assert allSerieVertices == SerieVertices(outerVertices, center, values);
      assert bezierPath == OpenPath(allSerieVertices);
      SetSerie(Some(serieInstance.(vertices := allSerieVertices)));
      bezierPath := bezierPath + [Close];
      path := Some(bezierPath);
    }

    /** Adds an animation growing the serie from its centre to its cached vertices. */
    method MakeScaleAnimation(duration: real)
      modifies this
      ensures State() == WithScaleAnimation(old(State()), duration)
    {
      var vertices := if serie.Some? then serie.value.vertices else [];
      var center := CenterOf(parameterSource);
      var fromPath: Path := [];
      var toPath: Path := [];
      for offset := 0 to |vertices|
        invariant |fromPath| == offset && |toPath| == offset
        invariant forall i :: 0 <= i < offset ==> fromPath[i] == TraceElement(center, i)
        invariant forall i :: 0 <= i < offset ==> toPath[i] == TraceElement(vertices[i], i)
      {
        if offset == 0 {
          fromPath := fromPath + [MoveTo(center)];
          toPath := toPath + [MoveTo(vertices[offset])];
        } else {
          fromPath := fromPath + [LineTo(center)];
          toPath := toPath + [LineTo(vertices[offset])];
        }
      }
      assert fromPath == OpenPath(CenterPoints(|vertices|, center));
      assert toPath == OpenPath(vertices);
      animation := Some(PathAnimation(fromPath + [Close], toPath + [Close], duration));
    }

    /** Adds an animation revealing the vertex at the cursor; does nothing without a serie. */
    method MakeParameterPathAnimation(duration: real)
      modifies this
      ensures State() == WithParameterAnimation(old(State()), duration)
    {
      if serie.None? {
        return;
      }
      var vertices := serie.value.vertices;
      var center := CenterOf(parameterSource);
      var k := lastAnimatedVertexIndex;
      var fromPath: Path := [];
      var toPath: Path := [];
      for offset := 0 to |vertices|
        invariant |fromPath| == offset && |toPath| == offset
        invariant forall i :: 0 <= i < offset ==> fromPath[i] == TraceElement(if i < k then vertices[i] else center, i)
        invariant forall i :: 0 <= i < offset ==> toPath[i] == TraceElement(if i < k + 1 then vertices[i] else center, i)
      {
        var fromPoint := if offset < k then vertices[offset] else center;
        var toPoint := if offset < k + 1 then vertices[offset] else center;
        if offset == 0 {
          fromPath := fromPath + [MoveTo(fromPoint)];
          toPath := toPath + [MoveTo(toPoint)];
        } else {
          fromPath := fromPath + [LineTo(fromPoint)];
          toPath := toPath + [LineTo(toPoint)];
        }
      }
      assert fromPath == OpenPath(RevealPoints(vertices, center, k));
      assert toPath == OpenPath(RevealPoints(vertices, center, k + 1));
      animation := Some(PathAnimation(fromPath + [Close], toPath + [Close], duration));
    }

    /**
     * The interruption branch: shows this layer, then follows the next links
     * to the end of the chain, showing each layer and its decoration and
     * removing its animations.
     */
    method ShowRestOfChain(chain: seq<SerieLayer>, j: nat)
      requires j < |chain| && chain[j] == this && Distinct(chain)
      modifies chain
      ensures forall i :: 0 <= i < |chain| ==>
                chain[i].State() == if j <= i then Interrupted(old(chain[i].State())) else old(chain[i].State())
    {
      isHidden := false;
      decoration := decoration.(isHidden := false);
      animation := None;
      var current := j;
      while current + 1 < |chain|
        invariant j <= current < |chain|
        invariant forall i :: 0 <= i < |chain| ==>
                    chain[i].State() == if j <= i <= current then Interrupted(old(chain[i].State())) else old(chain[i].State())
        decreases |chain| - current
      {
        var nextLayer := chain[current + 1];
        nextLayer.isHidden := false;
        nextLayer.decoration := nextLayer.decoration.(isHidden := false);
        nextLayer.animation := None;
        current := current + 1;
      }
    }

    /**
     * Reacts to the end of this layer's animation; `this` is `chain[j]` and
     * its next layer is `chain[j + 1]`. No layer appears twice in the chain,
     * so following the next links never cycles.
     */
    method AnimationDidStop(chain: seq<SerieLayer>, j: nat, finished: bool)
      requires j < |chain| && chain[j] == this && Distinct(chain)
      modifies chain
      ensures ChainState(chain) == AfterStop(old(ChainState(chain)), j, finished)
    {
      if !finished {
        ShowRestOfChain(chain, j);
        return;
      }
      match animationType
      case ParameterByParameter(duration) =>
        lastAnimatedVertexIndex := lastAnimatedVertexIndex + 1;
        if lastAnimatedVertexIndex < (if serie.Some? then |serie.value.vertices| else 0) {
          MakeParameterPathAnimation(duration);
        } else if serie.Some? && lastAnimatedVertexIndex == |serie.value.vertices| {
          decoration := decoration.(isHidden := false);
          if j + 1 < |chain| {
            var nextLayerInstance := chain[j + 1];
            nextLayerInstance.isHidden := false;
            nextLayerInstance.MakeParameterPathAnimation(duration);
          }
        }
      case ScaleOneByOne(duration) =>
        decoration := decoration.(isHidden := false);
        if j + 1 < |chain| {
          var nextLayerInstance := chain[j + 1];
          nextLayerInstance.isHidden := false;
          nextLayerInstance.MakeScaleAnimation(duration);
        }
      case ScaleAll(_) =>
        decoration := decoration.(isHidden := false);
      case NoAnimation =>
    }
  }
}
