/**
 * The demo's data model: a random dataset (random parameter names, random
 * series with distinct palette colours) and the fixed default dataset.
 *
 * Randomness is an oracle supplied by the caller: `rand(t, n)` is the t-th
 * draw of the run, made with exclusive upper bound `n`, and a uniform
 * oracle always answers below its bound.
 */
module RadarModel {
  import opened RadarTypes
  import opened RadarGeometry
  import opened ArrayExtension

  type Oracle = (nat, nat) -> nat

  /** Every draw lies below its bound; no distribution is modelled. */
  ghost predicate DrawsBelowBound(rand: Oracle) {
    forall t: nat, n: nat :: 0 < n ==> rand(t, n) < n
  }

  /** A chart dataset: its parameters and its series. */
  datatype GraphModel = GraphModel(parameters: seq<Parameter>, series: seq<Serie>)

  /** The demo palette: red, black, blue, purple, cyan, yellow, orange, green, magenta, brown. */
  const AllowedColors: seq<Color> :=
    [Named(0), Named(1), Named(2), Named(3), Named(4), Named(5), Named(6), Named(7), Named(8), Named(9)]

  const RandomParameterMaxLength: nat := 8

  const AllowedDecorations: seq<DecorationType> := [Square(8.0), Circle(6.0), Diamond(8.0)]

  const AllowedChars: string := "abcdefghijklmnopqrstuvwxyzABCDEFGHIJKLMNOPQRSTUVWXYZ0123456789"

  /** The value `k / 100`. */
  function Percent(k: nat): real {
    k as real / 100.0
  }

  /** One of the hundred values 0, 0.01, ..., 0.99 a random serie may hold. */
  ghost predicate IsPercentStep(v: real) {
    exists k: nat :: k < 100 && v == Percent(k)
  }

  /** Every serie has exactly one value per parameter. */
  predicate ValuesMatchParameters(m: GraphModel) {
    forall s :: s in m.series ==> |s.percentageValues| == |m.parameters|
  }

  /** Every value lies in [0, 1]. */
  predicate ValuesInUnitRange(m: GraphModel) {
    forall s, v :: s in m.series && v in s.percentageValues ==> 0.0 <= v <= 1.0
  }

  /** The draws a shuffle of `count` elements takes from the oracle, starting at draw `t`. */
  function ShuffleDraws(rand: Oracle, t: nat, count: nat): (draws: seq<nat>)
    requires DrawsBelowBound(rand)
    ensures ValidDraws(draws, count)
    ensures forall j :: 0 <= j < |draws| ==> draws[j] == rand(t + j, count - j)
  {
    if count <= 1 then []
    else seq(count - 1, j requires 0 <= j < count - 1 => rand(t + j, count - j))
  }

  lemma {:induction false} DistinctOccursOnce<T>(s: seq<T>, e: T)
    requires Distinct(s)
    ensures multiset(s)[e] <= 1
  {
    if s != [] {
      var rest := s[1..];
      assert s == [s[0]] + rest;
      assert Distinct(rest) by {
        forall a, b | 0 <= a < b < |rest| ensures rest[a] != rest[b] {
          assert rest[a] == s[a + 1] && rest[b] == s[b + 1];
        }
      }
      DistinctOccursOnce(rest, e);
      if e == s[0] {
        assert e !in rest by {
          forall a | 0 <= a < |rest| ensures rest[a] != e {
            assert rest[a] == s[a + 1];
          }
        }
      }
    }
  }

  /** A permutation of a sequence without duplicates has no duplicates. */
  lemma PermutationKeepsDistinct<T>(a: seq<T>, b: seq<T>)
    requires multiset(a) == multiset(b) && Distinct(a)
    ensures Distinct(b)
  {
    forall x, y | 0 <= x < y < |b| ensures b[x] != b[y] {
      if b[x] == b[y] {
        var e := b[x];
        assert b == b[..y] + [b[y]] + b[y + 1..];
        assert e in b[..y];
        assert multiset(b)[e] >= 2;
        DistinctOccursOnce(a, e);
        assert false;
      }
    }
  }

  /** A string of `length` characters drawn from the 62 alphanumerics, using draws t0 to t0 + length - 1. */
  method RandomAlphaNumericString(length: nat, rand: Oracle, t0: nat) returns (randomString: string)
    requires DrawsBelowBound(rand)
    ensures |randomString| == length
    ensures forall i :: 0 <= i < length ==> randomString[i] == AllowedChars[rand(t0 + i, |AllowedChars|)]
    ensures forall c :: c in randomString ==> c in AllowedChars
  {
    var allowedCharsCount := |AllowedChars|;
    randomString := "";
    for i := 0 to length
      invariant |randomString| == i
      invariant forall q :: 0 <= q < i ==> randomString[q] == AllowedChars[rand(t0 + q, allowedCharsCount)]
    {
      var randomNum := rand(t0 + i, allowedCharsCount);
      var newCharacter := AllowedChars[randomNum];
      randomString := randomString + [newCharacter];
    }
  }

  /** A serie of the random model, as the generator builds it. */
  ghost predicate IsRandomSerie(s: Serie, numberOfParameters: nat) {
    && |s.percentageValues| == numberOfParameters
    && (forall v :: v in s.percentageValues ==> IsPercentStep(v))
    && s.strokeWidth == Some(4.0)
    && s.strokeColor.Some? && s.strokeColor.value in AllowedColors
    && s.fillMode == Solid(WithAlpha(s.strokeColor.value, 0.7))
    && s.decoration.Some? && s.decoration.value in AllowedDecorations
  }

  /** A parameter of the random model: a name of 1 to 8 alphanumerics, not yet laid out. */
  predicate IsRandomParameter(p: Parameter) {
    && 1 <= |p.name| <= RandomParameterMaxLength
    && (forall c :: c in p.name ==> c in AllowedChars)
    && p.outerVertex.None?
  }

  /** One parameter of the random model: a length draw, then that many character draws. */
  method RandomParameter(rand: Oracle, t: nat) returns (parameter: Parameter, next: nat)
    requires DrawsBelowBound(rand)
    ensures IsRandomParameter(parameter)
    ensures next == t + 1 + |parameter.name|
  {
    var length := rand(t, RandomParameterMaxLength) + 1;
    var name := RandomAlphaNumericString(length, rand, t + 1);
    parameter := Parameter(name, None);
    next := t + 1 + length;
  }

  /**
   * One serie of the random model in the given colour: a decoration chosen by
   * shuffling the three allowed ones, then one value draw per parameter.
   */
  method RandomSerie(rand: Oracle, t: nat, color: Color, numberOfParameters: nat) returns (serie: Serie, next: nat)
    requires DrawsBelowBound(rand) && color in AllowedColors
    ensures IsRandomSerie(serie, numberOfParameters)
    ensures serie.strokeColor == Some(color)
    ensures next == t + |AllowedDecorations| - 1 + numberOfParameters
  {
    var decorationDraws := ShuffleDraws(rand, t, |AllowedDecorations|);
    var decorations := Shuffled(AllowedDecorations, decorationDraws);
    next := t + |decorationDraws|;
    assert decorations[0] in AllowedDecorations by {
      assert decorations[0] in multiset(decorations);
    }

    var values: seq<real> := [];
    for v := 0 to numberOfParameters
      invariant |values| == v
      invariant forall x :: x in values ==> IsPercentStep(x)
    {
      var k := rand(next + v, 100);
      assert IsPercentStep(Percent(k));
      values := values + [Percent(k)];
    }
    next := next + numberOfParameters;

    serie := EmptySerie.(strokeColor := Some(color), strokeWidth := Some(4.0),
                         fillMode := Solid(WithAlpha(color, 0.7)), decoration := Some(decorations[0]),
                         percentageValues := values);
  }

  /**
   * The series of the random model: serie `k` takes its colour by popping the
   * last colour of the shuffled palette, which never fails because there are
   * no more series than colours, and gives distinct series distinct colours.
   */
  method RandomSeries(rand: Oracle, t0: nat, palette: seq<Color>, numberOfSeries: nat, numberOfParameters: nat)
    returns (series: seq<Serie>)
    requires DrawsBelowBound(rand)
    requires numberOfSeries <= |palette| && Distinct(palette)
    requires forall c :: c in palette ==> c in AllowedColors
    ensures |series| == numberOfSeries
    ensures forall s :: s in series ==> IsRandomSerie(s, numberOfParameters)
    ensures forall a, b :: 0 <= a < b < |series| ==> series[a].strokeColor != series[b].strokeColor
  {
    var t := t0;
    var randomizedAllowedColors := palette;
    series := [];
    for k := 0 to numberOfSeries
      invariant |series| == k
      invariant |randomizedAllowedColors| == |palette| - k
      invariant Distinct(randomizedAllowedColors)
      invariant forall c :: c in randomizedAllowedColors ==> c in AllowedColors
      invariant forall s :: s in series ==> IsRandomSerie(s, numberOfParameters)
      invariant forall s :: s in series ==> s.strokeColor.value !in randomizedAllowedColors
      invariant forall a, b :: 0 <= a < b < k ==> series[a].strokeColor != series[b].strokeColor
    {
      // popLast()!: the palette still holds |palette| - k > 0 colours.
      var color := randomizedAllowedColors[|randomizedAllowedColors| - 1];
      ghost var before := randomizedAllowedColors;
      randomizedAllowedColors := randomizedAllowedColors[..|randomizedAllowedColors| - 1];
      PopLastKeepsDistinct(before);
      var serie;
      serie, t := RandomSerie(rand, t, color, numberOfParameters);
      assert forall s :: s in series ==> s.strokeColor != serie.strokeColor;
      series := series + [serie];
    }
  }

  /** The palette shuffled with the oracle's draws from `t` on: each colour exactly once. */
  method ShuffledPalette(rand: Oracle, t: nat) returns (palette: seq<Color>)
    requires DrawsBelowBound(rand)
    ensures |palette| == |AllowedColors| && Distinct(palette)
    ensures forall c :: c in palette ==> c in AllowedColors
  {
    palette := Shuffled(AllowedColors, ShuffleDraws(rand, t, |AllowedColors|));
    ShuffledPaletteIsDistinct(palette);
  }

  /** The random demo dataset, drawing from the oracle from draw `t0` on. */
  method Random(rand: Oracle, t0: nat) returns (model: GraphModel)
    requires DrawsBelowBound(rand)
    ensures 3 <= |model.parameters| <= 12
    ensures forall p :: p in model.parameters ==> IsRandomParameter(p)
    ensures 1 <= |model.series| <= |AllowedColors|
    ensures forall s :: s in model.series ==> IsRandomSerie(s, |model.parameters|)
    ensures forall a, b :: 0 <= a < b < |model.series| ==> model.series[a].strokeColor != model.series[b].strokeColor
    ensures ValuesMatchParameters(model) && ValuesInUnitRange(model)
  {
    var t: nat := t0;

    var numberOfParameters := rand(t, 10) + 3;
    t := t + 1;
    var parameters: seq<Parameter> := [];
    for p := 0 to numberOfParameters
      invariant |parameters| == p
      invariant forall q :: q in parameters ==> IsRandomParameter(q)
    {
      var parameter;
      parameter, t := RandomParameter(rand, t);
      parameters := parameters + [parameter];
    }

    var randomizedAllowedColors := ShuffledPalette(rand, t);
    t := t + |AllowedColors| - 1;

    var numberOfSeries := rand(t, |AllowedColors|) + 1;
    t := t + 1;
    var series := RandomSeries(rand, t, randomizedAllowedColors, numberOfSeries, numberOfParameters);
    model := GraphModel(parameters, series);
    PercentStepsInUnitRange(model);
  }

  /** Popping the last element of a sequence without duplicates leaves one without duplicates and without that element. */
  lemma PopLastKeepsDistinct<T>(s: seq<T>)
    requires |s| > 0 && Distinct(s)
    ensures Distinct(s[..|s| - 1]) && s[|s| - 1] !in s[..|s| - 1]
    ensures forall c :: c in s[..|s| - 1] ==> c in s
  {
  }

  /** A shuffle of the palette lists each palette colour at most once and nothing else. */
  lemma ShuffledPaletteIsDistinct(shuffled: seq<Color>)
    requires multiset(shuffled) == multiset(AllowedColors)
    ensures |shuffled| == |AllowedColors|
    ensures Distinct(shuffled)
    ensures forall c :: c in shuffled ==> c in AllowedColors
  {
    assert |shuffled| == |multiset(shuffled)|;
    AllowedColorsDistinct();
    PermutationKeepsDistinct(AllowedColors, shuffled);
    forall c | c in shuffled ensures c in AllowedColors {
      assert c in multiset(AllowedColors);
    }
  }

  /** The ten palette colours are pairwise different. */
  lemma AllowedColorsDistinct()
    ensures Distinct(AllowedColors)
  {
    forall a, b | 0 <= a < b < |AllowedColors| ensures AllowedColors[a] != AllowedColors[b] {
      assert AllowedColors[a] == Named(a) && AllowedColors[b] == Named(b);
    }
  }

  lemma PercentStepsInUnitRange(m: GraphModel)
    requires forall s, v :: s in m.series && v in s.percentageValues ==> IsPercentStep(v)
    ensures ValuesInUnitRange(m)
  {
    forall s, v | s in m.series && v in s.percentageValues ensures 0.0 <= v <= 1.0 {
      assert IsPercentStep(v);
      var k: nat :| k < 100 && v == Percent(k);
    }
  }

  /** The parameters of the fixed demo dataset: HP, MP, STR, DF and MGC. */
  const DefaultParameters: seq<Parameter> :=
    [Parameter("HP", None), Parameter("MP", None), Parameter("STR", None), Parameter("DF", None), Parameter("MGC", None)]

  /** The blue, green and red series of the fixed demo dataset. */
  const DefaultSeries: seq<Serie> := [
    Serie("blue", [0.9, 0.5, 0.6, 0.2, 0.9], Some(Named(2)), Some(4.0),
          Solid(Rgba(0.1, 0.1, 0.7, 0.7)), Some(Square(8.0)), []),
    Serie("green", [0.9, 0.1, 0.2, 0.9, 0.3], Some(Named(7)), Some(4.0),
          Solid(Rgba(0.1, 0.7, 0.1, 0.7)), Some(Circle(6.0)), []),
    Serie("red", [0.5, 0.9, 0.5, 0.5, 0.6], Some(Named(0)), Some(4.0),
          Solid(Rgba(0.7, 0.1, 0.1, 0.7)), Some(Diamond(8.0)), [])]

  /** Every default serie has one value per default parameter, each in [0, 1]. */
  lemma DefaultValuesFit()
    ensures ValuesMatchParameters(GraphModel(DefaultParameters, DefaultSeries))
    ensures ValuesInUnitRange(GraphModel(DefaultParameters, DefaultSeries))
  {
  }

  /** The default series use three different palette colours. */
  lemma DefaultColorsDistinct()
    ensures forall s :: s in DefaultSeries ==> s.strokeColor.Some? && s.strokeColor.value in AllowedColors
    ensures forall a, b :: 0 <= a < b < |DefaultSeries| ==> DefaultSeries[a].strokeColor != DefaultSeries[b].strokeColor
  {
  }

  /** The fixed demo dataset: five parameters and three series. */
  function DefaultModel(): (m: GraphModel)
    ensures |m.parameters| == 5 && |m.series| == 3
    ensures ValuesMatchParameters(m) && ValuesInUnitRange(m)
    ensures forall p :: p in m.parameters ==> p.outerVertex.None?
    ensures forall s :: s in m.series ==> s.strokeColor.Some? && s.strokeColor.value in AllowedColors
    ensures forall a, b :: 0 <= a < b < |m.series| ==> m.series[a].strokeColor != m.series[b].strokeColor
  {
    DefaultValuesFit();
    DefaultColorsDistinct();
    GraphModel(DefaultParameters, DefaultSeries)
  }

  /**
   * Once the parameters of a dataset whose values match its parameters and
   * lie in [0, 1] are laid out, every serie's vertex uses the serie's own
   * value (never the missing-value default) and lies on its spoke no farther
   * from the centre than the outer vertex.
   */
  lemma LaidOutSeriesStayInside(m: GraphModel, s: Serie, outer: seq<Point>, center: Point, i: nat)
    requires ValuesMatchParameters(m) && ValuesInUnitRange(m) && s in m.series
    requires |outer| == |m.parameters| && i < |outer|
    ensures ValueAt(s.percentageValues, i) == s.percentageValues[i]
    ensures Dist2(SerieVertices(outer, center, s.percentageValues)[i], center) <= Dist2(outer[i], center)
  {
    assert s.percentageValues[i] in s.percentageValues;
    VertexOnSpoke(outer, center, s.percentageValues, i);
  }
}
