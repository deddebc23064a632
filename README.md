# GearRadarChart core, modelled in Dafny

GearRadarChart draws radar (spider) charts on iOS. Each data serie is drawn by
its own shape layer, `GKRadarGraphSerieLayer`. The layer does four things:

- It turns the serie's percentage values into vertices on the chart's spokes.
- It draws the closed polygon through those vertices.
- It animates the polygon, either growing from the centre or vertex by vertex.
- It hands the animation on to the next layer of the chain of series.

A small array extension supplies a bounds test and a Fisher–Yates shuffle. The
demo app's model uses that shuffle to build a random dataset, and it also has
a fixed default dataset.

The project has five modules:

- `RadarTypes` (`radar_types.dfy`): the values the layer and the model share.
  These are points, colours, fill modes, decorations, the serie, parameters and
  the animation kinds.
- `RadarGeometry` (`geometry.dfy`): outer vertices and scaled serie vertices. It
  also defines paths as the sequence of move / line / close commands a path
  builder receives, and the key-frame point lists of both animations.
- `SerieLayers` (`serie_layer.dfy`): the layer as a class, one field per piece
  of layer state.
  - `State()` is the value of all fields.
  - Each method is specified by a function from the old state to the new one.
  - Lemmas state what those functions mean.
  - The chain of layers is a sequence of distinct layers: the next layer of
    `chain[j]` is `chain[j + 1]`.
  - `AnimationDidStop` changes every layer of the chain it touches. Its
    postcondition ties the whole chain's new state to `AfterStop`.
- `ArrayExtension` (`array_extension.dfy`): the in-place shuffle on an array.
  - It is proved equal to a function `Shuffle` of the old contents.
  - `Shuffle` is proved to be a permutation that fixes each position once that
    position's draw is made.
  - The random draws are a parameter.
- `RadarModel` (`radar_model.dfy`): the random and default datasets. Randomness
  is an oracle `rand(t, n)`, the t-th draw of the run with exclusive bound `n`.

Notes on behaviour, following the code:

- The layer treats the serie as a value. So writing the vertex cache in
  `generatePath` re-runs the serie observer: the style fields and the
  decoration's serie are set again.
- `makeScaleAnimation` without a serie still adds an animation. Its two paths
  hold only a close command. `makeParameterPathAnimation` without a serie adds
  nothing.
- A parameter-by-parameter animation hands over to the next layer without
  resetting that layer's cursor. The next layer starts from whatever cursor it
  has, which is 0 for a fresh layer.
- A finished parameter step always advances the cursor. It then compares the
  cursor with the vertex count, and with no serie the count is 0. A cursor past
  the count, or a layer without a serie, does nothing more.

## Model

| member | source | states |
|---|---|---|
| `SerieLayers.SerieLayer.constructor` | GearRadarChart/GearRadarChart/GKRadarGraphSerieLayer.swift:34-60 | A new layer has no serie and no data source, the default black fill, line width 1, cursor 0, no animation kind, is visible and has a visible decoration with no serie |
| `SerieLayers.SerieLayer.SetSerie` | GearRadarChart/GearRadarChart/GKRadarGraphSerieLayer.swift:70-95 | Assigning the serie updates exactly the serie, the fill and stroke colours, the line width and the decoration's serie, as `WithSerie` |
| `SerieLayers.SerieAssignment` | GearRadarChart/GearRadarChart/GKRadarGraphSerieLayer.swift:72-94 | After assignment: fill is the solid colour, or none for no fill or no serie. Stroke is the serie's stroke colour. Line width is the stroke width, or 1 when absent. The decoration shows the same serie; nothing else changes |
| `RadarGeometry.OuterVertices` | GearRadarChart/GearRadarChart/GKRadarGraphSerieLayer.swift:208 | At most one outer vertex per parameter. All parameters laid out gives exactly their outer vertices in order; none laid out gives none |
| `RadarGeometry.OuterVerticesArePresent` | GearRadarChart/GearRadarChart/GKRadarGraphSerieLayer.swift:208 | A point is among the outer vertices exactly when some parameter has it as its outer vertex |
| `RadarGeometry.OuterVerticesAppend` | GearRadarChart/GearRadarChart/GKRadarGraphSerieLayer.swift:208 | Outer vertices keep parameter order: those of a concatenation are those of the first part followed by those of the second |
| `RadarGeometry.MissingOrZeroValueGivesCenter` | GearRadarChart/GearRadarChart/GKRadarGraphSerieLayer.swift:224-229 | A serie vertex whose value is missing or 0 is the circle centre |
| `RadarGeometry.FullValueGivesOuterVertex` | GearRadarChart/GearRadarChart/GKRadarGraphSerieLayer.swift:224-229 | A serie vertex whose value is 1 is the outer vertex |
| `RadarGeometry.VertexOnSpoke` | GearRadarChart/GearRadarChart/GKRadarGraphSerieLayer.swift:218-231 | Each serie vertex is collinear with the centre and its outer vertex. Its squared distance from the centre is v² times the spoke's, so it is no farther out when v is in [0, 1] |
| `RadarGeometry.PolygonPathTraces` | GearRadarChart/GearRadarChart/GKRadarGraphSerieLayer.swift:235-244 | Move to the first point, line to the others, then close: this yields a closed polygon of n + 1 commands that visits exactly the given points in order |
| `SerieLayers.SerieLayer.GeneratePath` | GearRadarChart/GearRadarChart/GKRadarGraphSerieLayer.swift:201-247 | The loop builds the vertex list and the path. The new state is `AfterGeneratePath` of the old |
| `SerieLayers.GeneratePathNoOp` | GearRadarChart/GearRadarChart/GKRadarGraphSerieLayer.swift:203-213 | Without a serie or without any outer vertex, generating the path changes nothing |
| `SerieLayers.GeneratePathGeometry` | GearRadarChart/GearRadarChart/GKRadarGraphSerieLayer.swift:215-246 | Otherwise the serie caches one vertex per outer vertex, each scaled by its value (0 if missing), and keeps its values. The path is the closed polygon visiting those vertices from vertex 0. Styles stay in sync, and the decoration gets the new serie. Every other field is unchanged, including the decoration's visibility, the animation kind and the data source |
| `SerieLayers.GeneratePathIdempotent` | GearRadarChart/GearRadarChart/GKRadarGraphSerieLayer.swift:201-247 | Generating the path a second time changes nothing more |
| `SerieLayers.SerieLayer.MakeScaleAnimation` | GearRadarChart/GearRadarChart/GKRadarGraphSerieLayer.swift:261-281 | The loop builds both key-frame paths. The new state is the old one with the scale animation attached |
| `SerieLayers.ScaleAnimationPaths` | GearRadarChart/GearRadarChart/GKRadarGraphSerieLayer.swift:266-280 | The from path is a closed polygon with one point per cached vertex, every point at the centre. The to path is the closed polygon through the cached vertices; both have the same length and only the animation changes |
| `SerieLayers.SerieLayer.MakeParameterPathAnimation` | GearRadarChart/GearRadarChart/GKRadarGraphSerieLayer.swift:290-327 | Without a serie nothing changes. Otherwise the loop builds both key-frame paths and the animation is attached |
| `SerieLayers.ParameterAnimationPaths` | GearRadarChart/GearRadarChart/GKRadarGraphSerieLayer.swift:292-326 | With cursor k, the from path visits vertex i when i < k and the centre otherwise. The to path does the same with k + 1, so the two differ only at vertex k |
| `RadarGeometry.RevealPointsSteps` | GearRadarChart/GearRadarChart/GKRadarGraphSerieLayer.swift:300-309 | Cursor 0 shows the all-centre polygon and a cursor at the count shows the full one. Successive cursors differ only at the cursor's vertex, which moves from the centre to the vertex |
| `SerieLayers.SerieLayer.AnimationDidStop` | GearRadarChart/GearRadarChart/GKRadarGraphSerieLayer.swift:361-416 | The chain's new state is `AfterStop` of its old state. An interruption hands over to `ShowRestOfChain`; a finished animation acts on this layer and at most the next one |
| `SerieLayers.SerieLayer.ShowRestOfChain` | GearRadarChart/GearRadarChart/GKRadarGraphSerieLayer.swift:363-381 | The loop follows the next links to the end of the chain. This layer and every later one become visible, their decorations become visible and their animations are removed. Earlier layers are untouched |
| `SerieLayers.InterruptionShowsRestOfChain` | GearRadarChart/GearRadarChart/GKRadarGraphSerieLayer.swift:363-382 | An interrupted animation makes this layer and every later one visible, with visible decorations and no animation. Earlier layers and all cursors are untouched, and interrupting again changes nothing |
| `SerieLayers.ParameterStep` | GearRadarChart/GearRadarChart/GKRadarGraphSerieLayer.swift:386-398 | A finished parameter step advances the cursor by one. Below the vertex count the layer also animates the next vertex and nothing else changes. At the count this layer's decoration is shown; the next layer is shown and, if it has a serie, animates from its own cursor; its decoration stays as it was. Past the count, or without a serie, only the cursor moves. Whole records are stated; no other layer changes |
| `SerieLayers.ScaleStep` | GearRadarChart/GearRadarChart/GKRadarGraphSerieLayer.swift:400-414 | Scale one by one reveals this layer's decoration, and the next layer is shown and starts its scale animation with its decoration unchanged. Scale all only reveals the decoration, and with no animation kind nothing changes. Whole records are stated; cursors never move |
| `SerieLayers.FinishedStepRevealsOwnDecorationOnly` | GearRadarChart/GearRadarChart/GKRadarGraphSerieLayer.swift:384-415 | A finished step changes no decoration but that of the layer whose animation stopped |
| `SerieLayers.ScaleRunInOrder` | GearRadarChart/GearRadarChart/GKRadarGraphSerieLayer.swift:400-408 | In a scale-one-by-one chain whose first n layers finish one after another, exactly those n decorations are revealed. Layer n is shown and scaling with its decoration still as it was, each earlier layer keeps the state its start gave it plus a revealed decoration, and later layers are untouched |
| `SerieLayers.StopKeepsStyleInSync` | GearRadarChart/GearRadarChart/GKRadarGraphSerieLayer.swift:361-416 | Whatever stops, every layer's colours, line width and decoration serie stay those its serie dictates |
| `SerieLayers.RevealRunBeforeLast` | GearRadarChart/GearRadarChart/GKRadarGraphSerieLayer.swift:386-390 | From cursor 0, each of the first m - 1 finished steps re-animates the same layer on the next vertex and leaves every other layer alone |
| `SerieLayers.RevealRunHandsOff` | GearRadarChart/GearRadarChart/GKRadarGraphSerieLayer.swift:386-398 | The m-th finished step leaves the cursor at exactly m and reveals the decoration. The layer keeps the animation that revealed the last vertex. The next layer, if any, is shown and starts its own reveal from its own cursor, with its decoration unchanged; every other layer is untouched |
| `ArrayExtension.IsInBounds` | GearRadarChart/GearRadarChart/Array+Extension.swift:33-36 | An index matches the array's range of indices exactly when it is at least 0 and below the count |
| `ArrayExtension.SwapPartnerInBounds` | GearRadarChart/GearRadarChart/Array+Extension.swift:33-49 | Every shuffle iteration swaps its own index with an index that `isInBounds` accepts. At least two elements remain unshuffled at each iteration |
| `ArrayExtension.SwapStepExchanges` | GearRadarChart/GearRadarChart/Array+Extension.swift:47-49 | A step exchanges positions j and j + d and keeps every other position; with draw 0 it changes nothing |
| `ArrayExtension.SwapStepPermutes` | GearRadarChart/GearRadarChart/Array+Extension.swift:47-49 | A swap keeps the multiset of elements |
| `ArrayExtension.ShuffleStepsPermutes` | GearRadarChart/GearRadarChart/Array+Extension.swift:41-51 | Any number of shuffle iterations keeps the multiset of elements |
| `ArrayExtension.ShuffleFixesPrefix` | GearRadarChart/GearRadarChart/Array+Extension.swift:45-50 | Once iteration j has run, positions 0 to j never change again |
| `ArrayExtension.ShuffleOfShortIsIdentity` | GearRadarChart/GearRadarChart/Array+Extension.swift:42-43 | A collection of fewer than two elements is left as it is |
| `ArrayExtension.ShuffleIsPermutation` | GearRadarChart/GearRadarChart/Array+Extension.swift:41-51 | The shuffle is a permutation of the same length. Position j holds the element that draw j picked from the still-unshuffled part |
| `ArrayExtension.ShuffleInPlace` | GearRadarChart/GearRadarChart/Array+Extension.swift:41-51 | The array afterwards holds `Shuffle` of its old contents and the same multiset |
| `ArrayExtension.Shuffled` | GearRadarChart/GearRadarChart/Array+Extension.swift:56-60 | The copy is `Shuffle` of the input, with the same length and multiset |
| `RadarModel.ShuffleDraws` | GearRadarChart/GearRadarChart/Array+Extension.swift:45-46 | The oracle's draws for one shuffle: one per iteration, each below the unshuffled count |
| `RadarModel.RandomAlphaNumericString` | GearRadarChart/GearRadarChartExample/GKRadarGraphModel.swift:51-64 | The string has exactly the requested length. Character i is the alphanumeric picked by draw i, so every character is one of the 62 |
| `RadarModel.RandomParameter` | GearRadarChart/GearRadarChartExample/GKRadarGraphModel.swift:72-75 | A parameter name has 1 to 8 alphanumerics and no outer vertex. One length draw is used, plus one draw per character |
| `RadarModel.RandomSerie` | GearRadarChart/GearRadarChartExample/GKRadarGraphModel.swift:82-95 | A random serie has its colour, width 4 and a fill of its colour at alpha 0.7. Its decoration is one of the three allowed, and it has one value per parameter, each k/100 for k < 100 |
| `RadarModel.RandomSeries` | GearRadarChart/GearRadarChartExample/GKRadarGraphModel.swift:78-96 | Popping the shuffled palette never runs dry, and the requested number of series get pairwise distinct colours |
| `RadarModel.ShuffledPalette` | GearRadarChart/GearRadarChartExample/GKRadarGraphModel.swift:32-41 | The shuffled palette holds each of the ten colours exactly once |
| `RadarModel.PermutationKeepsDistinct` | GearRadarChart/GearRadarChartExample/GKRadarGraphModel.swift:78 | A permutation of a list without duplicates has none |
| `RadarModel.PopLastKeepsDistinct` | GearRadarChart/GearRadarChartExample/GKRadarGraphModel.swift:84 | Popping the last colour leaves distinct colours that no longer include the popped one |
| `RadarModel.PercentStepsInUnitRange` | GearRadarChart/GearRadarChartExample/GKRadarGraphModel.swift:91-93 | Values of the form k/100 with k < 100 lie in [0, 1] |
| `RadarModel.Random` | GearRadarChart/GearRadarChartExample/GKRadarGraphModel.swift:66-99 | The random dataset has 3 to 12 random parameters and 1 to 10 random series. Series have distinct colours, one value per parameter, every value in [0, 1] |
| `RadarModel.DefaultModel` | GearRadarChart/GearRadarChartExample/GKRadarGraphModel.swift:101-147 | The default dataset has five parameters that are not laid out and three series of distinct palette colours. Each serie has one value per parameter, all in [0, 1] |
| `RadarModel.LaidOutSeriesStayInside` | GearRadarChart/GearRadarChart/GKRadarGraphSerieLayer.swift:218-231 | For a dataset as above, laid out on all its parameters, every vertex uses the serie's own value and lies no farther from the centre than its outer vertex |

## Left out

- Core Animation playback is not modelled: timing, easing, fill-forwards and when the stop callback is delivered. An animation is the pair of key-frame paths plus its duration; removing all animations clears it.
- The `anim` argument of `animationDidStop` is unused by the code and is not modelled.
- The layer's `frame` override, `setNeedsDisplay`, `needsDisplayOnBoundsChange` and `lineJoin` are not modelled. They only forward drawing or layout to Core Animation.
- The decoration sublayer is reduced to its visibility and its serie. The getter and setter that look it up among the sublayers are not modelled; the layer always has exactly one.
- The decoration layer's own drawing is not part of this model.
- The next-layer link is weak. It is modelled as position `j + 1` in a sequence of distinct layers, so the chain has no cycle and ends. Release of a next layer is not modelled.
- GKRadarGraphView.swift is not part of this model. The serie, parameter, decoration and animation types are taken from how the layer and the model use them. Outer vertices, the circle centre and the radius are inputs, not computed with trigonometry. The serie is taken to be a value type, whose observer re-runs when its vertex cache is written.
- `CGFloat` is idealised as `real`, so rounding is not modelled. `UIColor` values are palette indices or component tuples, and `UIBezierPath` is the list of commands it receives.
- The cursor `lastAnimatedVertexIndex` is an unbounded integer; Swift's overflow trap on `Int` is not modelled.
- `arc4random_uniform` is an oracle (`rand(t, n)`) in the model and draw sequences in the shuffle. The model only assumes each draw is below its bound (`DrawsBelowBound`); the distribution is not modelled.
- The demo view controller, GKRadarGraphViewController.swift, is not part of this model.
- RadarModel.Random: it does not pin down which draw produces which value; `RandomAlphaNumericString` and `ShuffleDraws` state the exact draw order.
