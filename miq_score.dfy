/**
 * __init__.py: the MIQ score.  A `MiqScoreCalculator` holds a standard
 * reference, one of its analysis methods, a percent tolerance and a floor;
 * `calculateMiq` turns a sample's absolute read counts into a score that is
 * 100 minus the root of the mean squared (tolerance-adjusted) percentage
 * error, and wraps everything it computed in a `MiqScoreData` result.
 */
module MiqScore {
  import opened Outcomes
  import opened PyDict
  import opened ReferenceHandler
  import GeneralDictOperations
  import AbsoluteReadCountDictOperations
  import PercentReadCountDictOperations
  import ReportGeneration
  import RadarMaker

  /** `floor`: `None` means no floor, a number is the lowest score reported. */
  datatype Floor = NoFloor | Floor(value: real)

  /** The fields of a `MiqScoreCalculator` after `__init__`. */
  datatype MiqScoreCalculator = MiqScoreCalculator(
    standardReference: StandardReference,
    analysisMethod: string,
    percentToleranceInStandard: real,
    floor: Floor,
    expectedReadSources: seq<string>)
  {
    /** The method is one of the reference's, and the expected sources are its truthy items in dict order. */
    ghost predicate Valid() {
      && standardReference.Valid()
      && analysisMethod in standardReference.expectedValues.vals
      && expectedReadSources == TruthyKeyList(ExpectedValuesOf(standardReference, analysisMethod))
    }
  }

  /**
   * `MiqScoreCalculator.__init__`: ValueError for an analysis method the
   * reference does not have; otherwise the expected read sources are
   * collected by a loop over that method's expected values.
   */
  method NewMiqScoreCalculator(standardReference: StandardReference, analysisMethod: string,
                               percentToleranceInStandard: real, floor: Floor)
    returns (r: Result<MiqScoreCalculator>)
    requires standardReference.Valid()
    ensures r.Err? <==> analysisMethod !in standardReference.analysisMethods
    ensures r.Err? ==> r.error == ValueError
    ensures r.Ok? ==> r.value.Valid()
    ensures r.Ok? ==>
      && r.value.standardReference == standardReference
      && r.value.analysisMethod == analysisMethod
      && r.value.percentToleranceInStandard == percentToleranceInStandard
      && r.value.floor == floor
  {
    if analysisMethod !in standardReference.analysisMethods {
      return Err(ValueError);
    }
    var expectedValues := ExpectedValuesOf(standardReference, analysisMethod);
    var expectedReadSources := [];
    var i := 0;
    while i < |expectedValues.keys|
      invariant 0 <= i <= |expectedValues.keys|
      invariant expectedReadSources == TruthyUpTo(expectedValues, i)
    {
      var source := expectedValues.keys[i];
      if expectedValues.vals[source] != 0.0 {
        expectedReadSources := expectedReadSources + [source];
      }
      i := i + 1;
    }
    return Ok(MiqScoreCalculator(standardReference, analysisMethod, percentToleranceInStandard, floor,
                                 expectedReadSources));
  }

  /** The expected sources of a valid calculator are exactly the truthy expected items, each once. */
  lemma ExpectedReadSourcesAt(calculator: MiqScoreCalculator)
    requires calculator.Valid()
    ensures forall k :: k in calculator.expectedReadSources <==>
      k in TruthyKeys(ExpectedValuesOf(calculator.standardReference, calculator.analysisMethod))
    ensures Distinct(calculator.expectedReadSources)
  {
    TruthyKeyListAt(ExpectedValuesOf(calculator.standardReference, calculator.analysisMethod));
  }

  /** `abs`. */
  function Abs(x: real): real {
    if x < 0.0 then -x else x
  }

  /** The values of `d` for the keys in `order`, in that order. */
  function InOrder(order: seq<string>, d: Dict<real>): seq<real> {
    seq(|order|, i requires 0 <= i < |order| => GetOr(d, order[i], 0.0))
  }

  /** `unadjustedPercentErrors`: how far each percent-of-expected falls short of 100. */
  function PercentErrors(rawPercentOfExpected: seq<real>): seq<real> {
    seq(|rawPercentOfExpected|, i requires 0 <= i < |rawPercentOfExpected| => 100.0 - rawPercentOfExpected[i])
  }

  /**
   * The squared error of one source: with a (truthy) tolerance, 0 inside
   * it and the square of the excess outside; without, the plain square.
   */
  function Penalty(error: real, tolerance: real): real {
    if tolerance != 0.0 then
      if Abs(error) <= tolerance then 0.0 else Square(Abs(error) - tolerance)
    else Square(error)
  }

  /** `x ** 2`; written through `Times` so that the sign facts about a product of two factors apply to it. */
  function Square(x: real): real {
    Times(x, x)
  }

  /** `a * b`. */
  function Times(a: real, b: real): real {
    a * b
  }

  /** `adjustedPercentErrorsSquared`. */
  function Penalties(errors: seq<real>, tolerance: real): seq<real> {
    seq(|errors|, i requires 0 <= i < |errors| => Penalty(errors[i], tolerance))
  }

  /** The sum of a list of reals. */
  function SeqSum(xs: seq<real>): real {
    if xs == [] then 0.0 else SeqSum(xs[..|xs| - 1]) + xs[|xs| - 1]
  }

  /** `statistics.mean` of a non-empty list. */
  function Mean(xs: seq<real>): real
    requires xs != []
  {
    SeqSum(xs) / (|xs| as real)
  }

  /** `sqrt` is a square root on the non-negative reals. */
  ghost predicate IsSquareRoot(sqrt: real -> real) {
    forall x :: 0.0 <= x ==> 0.0 <= sqrt(x) && Square(sqrt(x)) == x
  }

  /** `miqScore`: 100 minus the root of the mean of the squared errors. */
  function RawScore(penalties: seq<real>, sqrt: real -> real): real
    requires penalties != []
  {
    100.0 - sqrt(Mean(penalties))
  }

  /** `filteredMiqScore`: the score raised to the floor, if there is one. */
  function Filtered(miqScore: real, floor: Floor): real {
    match floor
    case NoFloor => miqScore
    case Floor(f) => if miqScore >= f then miqScore else f
  }

  /** What `calculateMiq` computes before it builds the result object. */
  datatype Scoring = Scoring(
    miqScore: real,
    rawMiqScore: real,
    referenceReads: Dict<real>,
    nonreferenceReads: Dict<real>,
    samplePercentages: Dict<real>,
    samplePercentOfExpected: Dict<real>)

  /**
   * `s` is what `calculateMiq` computes from the sample: the partition of
   * its renamed counts, the percentages of the reference part, their
   * percent of expected, and the raw and the floored score.
   */
  ghost predicate IsScoring(calculator: MiqScoreCalculator, sampleData: Dict<real>, sqrt: real -> real, s: Scoring)
    requires calculator.Valid() && Wf(sampleData)
  {
    var counts := StandardCounts(calculator, sampleData);
    && s.referenceReads == GeneralDictOperations.ReferenceReads(counts, calculator.expectedReadSources)
    && s.nonreferenceReads == GeneralDictOperations.NonreferenceReads(counts, calculator.expectedReadSources)
    && s.samplePercentages == AbsoluteReadCountDictOperations.Percentages(s.referenceReads)
    && PercentReadCountDictOperations.IsPercentOfExpected(s.samplePercentOfExpected, s.samplePercentages,
         ExpectedValuesOf(calculator.standardReference, calculator.analysisMethod))
    && s.samplePercentages.keys != []
    && s.rawMiqScore == RawScore(Penalties(PercentErrors(InOrder(s.samplePercentages.keys, s.samplePercentOfExpected)),
                                           calculator.percentToleranceInStandard), sqrt)
    && s.miqScore == Filtered(s.rawMiqScore, calculator.floor)
  }

  /** The sample's counts under standard identifiers. */
  function StandardCounts(calculator: MiqScoreCalculator, sampleData: Dict<real>): (r: Dict<real>)
    requires Wf(sampleData)
    ensures Wf(r)
  {
    Renamed(sampleData, calculator.standardReference.nameLookup)
  }

  /**
   * Lines 37-60 of `calculateMiq`.  The expected sources are partitioned
   * out of the renamed counts, their percentages are taken and compared
   * with the expected ones; the percent-of-expected step never raises here
   * because every observed source is an expected one.  With no expected
   * source the mean of an empty list raises (StatisticsError is a
   * ValueError).
   */
  method Score(calculator: MiqScoreCalculator, sampleData: Dict<real>, sqrt: real -> real)
    returns (r: Result<Scoring>)
    requires calculator.Valid() && Wf(sampleData)
    ensures r.Err? <==> calculator.expectedReadSources == []
    ensures r.Err? ==> r.error == ValueError
    ensures r.Ok? ==> IsScoring(calculator, sampleData, sqrt, r.value)
  {
    var expected := ExpectedValuesOf(calculator.standardReference, calculator.analysisMethod);
    var standardData := ConvertKeysToStandardIdentifiers(sampleData, calculator.standardReference);
    var referenceReads, nonreferenceReads :=
      GeneralDictOperations.SeparateReferenceAndNonreferenceReads(standardData, calculator.expectedReadSources);
    var samplePercentages := AbsoluteReadCountDictOperations.ConvertDictToPercentages(referenceReads);
    ObservedAreExpected(calculator, standardData);
    var percentOfExpected := PercentReadCountDictOperations.CalculateObservedPercentOfExpected(samplePercentages, expected);
    var samplePercentOfExpected := percentOfExpected.value;
    ExpectedReadSourcesAt(calculator);
    assert forall k :: k in samplePercentages.keys ==> k in samplePercentOfExpected.vals;
    var rawPercentOfExpected := CollectPercentOfExpected(samplePercentages, samplePercentOfExpected);
    var unadjustedPercentErrors := PercentErrors(rawPercentOfExpected);
    var adjustedPercentErrorsSquared := SquaredErrors(unadjustedPercentErrors, calculator.percentToleranceInStandard);
    if adjustedPercentErrorsSquared == [] {
      return Err(ValueError);
    }
    var meanDeviationSquared := Mean(adjustedPercentErrorsSquared);
    var rmse := sqrt(meanDeviationSquared);
    var miqScore := 100.0 - rmse;
    var filteredMiqScore;
    if calculator.floor.NoFloor? {
      filteredMiqScore := miqScore;
    } else if miqScore >= calculator.floor.value {
      filteredMiqScore := miqScore;
    } else {
      filteredMiqScore := calculator.floor.value;
    }
    return Ok(Scoring(filteredMiqScore, miqScore, referenceReads, nonreferenceReads, samplePercentages,
                      samplePercentOfExpected));
  }

  /**
   * The sample percentages have exactly the expected sources as keys, so
   * every truthy one is a truthy expected source and the list of errors is
   * empty exactly when there is no expected source.
   */
  lemma ObservedAreExpected(calculator: MiqScoreCalculator, counts: Dict<real>)
    requires calculator.Valid() && Wf(counts)
    ensures var percentages := AbsoluteReadCountDictOperations.Percentages(
        GeneralDictOperations.ReferenceReads(counts, calculator.expectedReadSources));
      && Wf(percentages)
      && (forall k :: k in percentages.vals <==> k in calculator.expectedReadSources)
      && TruthyKeys(percentages) <= TruthyKeys(ExpectedValuesOf(calculator.standardReference, calculator.analysisMethod))
      && (percentages.keys == [] <==> calculator.expectedReadSources == [])
  {
    var ers := calculator.expectedReadSources;
    var referenceReads := GeneralDictOperations.ReferenceReads(counts, ers);
    var percentages := AbsoluteReadCountDictOperations.Percentages(referenceReads);
    ExpectedReadSourcesAt(calculator);
    AbsoluteReadCountDictOperations.PercentagesAt(referenceReads, "");  // keys, order and Wf: any key will do
    forall k
      ensures k in percentages.vals <==> k in ers
    {
      AbsoluteReadCountDictOperations.PercentagesAt(referenceReads, k);
      GeneralDictOperations.ReferenceReadsAt(counts, ers, k);
    }
    if ers != [] {
      assert ers[0] in percentages.keys;
    }
  }

  /** Lines 41-43 of `calculateMiq`: the percent-of-expected values in the order of the sample percentages. */
  method CollectPercentOfExpected(samplePercentages: Dict<real>, samplePercentOfExpected: Dict<real>)
    returns (rawPercentOfExpected: seq<real>)
    requires forall k :: k in samplePercentages.keys ==> k in samplePercentOfExpected.vals
    ensures rawPercentOfExpected == InOrder(samplePercentages.keys, samplePercentOfExpected)
  {
    rawPercentOfExpected := [];
    var i := 0;
    while i < |samplePercentages.keys|
      invariant 0 <= i <= |samplePercentages.keys|
      invariant rawPercentOfExpected == InOrder(samplePercentages.keys[..i], samplePercentOfExpected)
    {
      var readSource := samplePercentages.keys[i];
      assert samplePercentages.keys[..i + 1] == samplePercentages.keys[..i] + [readSource];
      rawPercentOfExpected := rawPercentOfExpected + [samplePercentOfExpected.vals[readSource]];
      i := i + 1;
    }
    assert samplePercentages.keys[..i] == samplePercentages.keys;
  }

  /** Lines 45-53 of `calculateMiq`: the squared, tolerance-adjusted error of each source. */
  method SquaredErrors(unadjustedPercentErrors: seq<real>, percentToleranceInStandard: real)
    returns (adjustedPercentErrorsSquared: seq<real>)
    ensures adjustedPercentErrorsSquared == Penalties(unadjustedPercentErrors, percentToleranceInStandard)
  {
    adjustedPercentErrorsSquared := [];
    var i := 0;
    while i < |unadjustedPercentErrors|
      invariant 0 <= i <= |unadjustedPercentErrors|
      invariant adjustedPercentErrorsSquared == Penalties(unadjustedPercentErrors[..i], percentToleranceInStandard)
    {
      var error := unadjustedPercentErrors[i];
      assert Penalties(unadjustedPercentErrors[..i + 1], percentToleranceInStandard)
          == Penalties(unadjustedPercentErrors[..i], percentToleranceInStandard) + [Penalty(error, percentToleranceInStandard)];
      var squared;
      if percentToleranceInStandard != 0.0 {
        if Abs(error) <= percentToleranceInStandard {
          squared := 0.0;
        } else {
          squared := Square(Abs(error) - percentToleranceInStandard);
        }
      } else {
        squared := Square(error);
      }
      assert squared == Penalty(error, percentToleranceInStandard);
      adjustedPercentErrorsSquared := adjustedPercentErrorsSquared + [squared];
      i := i + 1;
    }
    assert unadjustedPercentErrors[..i] == unadjustedPercentErrors;
  }

  /** A penalty is never negative; with a non-negative tolerance it is 0 exactly when the error is within the tolerance. */
  lemma PenaltyZeroIff(error: real, tolerance: real)
    ensures Penalty(error, tolerance) >= 0.0
    ensures tolerance >= 0.0 ==> (Penalty(error, tolerance) == 0.0 <==> Abs(error) <= tolerance)
  {
    if tolerance == 0.0 {
      if error != 0.0 {
        SquarePositive(error);
      }
    } else if Abs(error) > tolerance {
      SquarePositive(Abs(error) - tolerance);
    }
  }

  lemma SquarePositive(x: real)
    requires x != 0.0
    ensures Square(x) > 0.0
  {
    if x > 0.0 {
      TimesPositive(x, x);
    } else {
      TimesPositive(-x, -x);
      assert Times(-x, -x) == Times(x, x);
    }
  }

  lemma TimesPositive(a: real, b: real)
    requires a > 0.0 && b > 0.0
    ensures Times(a, b) > 0.0
  {
  }

  lemma TimesMonotone(a: real, b: real, c: real)
    requires 0.0 <= c && a <= b
    ensures Times(c, a) <= Times(c, b)
    ensures Times(a, c) <= Times(b, c)
  {
  }

  lemma SquareMonotone(a: real, b: real)
    requires 0.0 <= a <= b
    ensures Square(a) <= Square(b)
  {
    TimesMonotone(a, b, a);
    TimesMonotone(a, b, b);
  }

  lemma SquareAbs(x: real)
    ensures Square(Abs(x)) == Square(x)
  {
    if x < 0.0 {
      assert Times(-x, -x) == Times(x, x);
    }
  }

  /** A larger non-negative tolerance never makes a penalty larger. */
  lemma PenaltyMonotone(error: real, smaller: real, larger: real)
    requires 0.0 <= smaller <= larger
    ensures Penalty(error, larger) <= Penalty(error, smaller)
  {
    var a := Abs(error);
    if larger != 0.0 && a > larger {
      SquareMonotone(a - larger, a - smaller);
      SquareAbs(error);
    } else {
      PenaltyZeroIff(error, smaller);
    }
  }

  lemma {:induction false} SeqSumZeroIff(xs: seq<real>)
    requires forall i :: 0 <= i < |xs| ==> xs[i] >= 0.0
    ensures SeqSum(xs) >= 0.0
    ensures SeqSum(xs) == 0.0 <==> forall i :: 0 <= i < |xs| ==> xs[i] == 0.0
  {
    if xs != [] {
      var init := xs[..|xs| - 1];
      SeqSumZeroIff(init);
      assert forall i :: 0 <= i < |init| ==> init[i] == xs[i];
    }
  }

  /** The square root is 0 exactly at 0. */
  lemma SquareRootZero(sqrt: real -> real, x: real)
    requires IsSquareRoot(sqrt) && x >= 0.0
    ensures sqrt(x) >= 0.0
    ensures sqrt(x) == 0.0 <==> x == 0.0
  {
    var root := sqrt(x);
    assert Square(root) == x;
    if root != 0.0 {
      SquarePositive(root);
    }
  }

  /**
   * The raw score is at most 100, and with a non-negative tolerance it is
   * exactly 100 when, and only when, every source's error is within the
   * tolerance.
   */
  lemma RawScoreAtMost100(errors: seq<real>, tolerance: real, sqrt: real -> real)
    requires errors != [] && IsSquareRoot(sqrt)
    ensures RawScore(Penalties(errors, tolerance), sqrt) <= 100.0
    ensures tolerance >= 0.0 ==>
      (RawScore(Penalties(errors, tolerance), sqrt) == 100.0 <==>
       forall i :: 0 <= i < |errors| ==> Abs(errors[i]) <= tolerance)
  {
    var penalties := Penalties(errors, tolerance);
    forall i | 0 <= i < |errors|
      ensures penalties[i] >= 0.0
      ensures tolerance >= 0.0 ==> (penalties[i] == 0.0 <==> Abs(errors[i]) <= tolerance)
    {
      PenaltyZeroIff(errors[i], tolerance);
    }
    SeqSumZeroIff(penalties);
    var n := |penalties| as real;
    var mean := Mean(penalties);
    assert mean >= 0.0;
    assert mean == 0.0 <==> SeqSum(penalties) == 0.0;
    SquareRootZero(sqrt, mean);
  }

  /** A sample that matches the expected composition exactly, at a non-negative tolerance, scores 100. */
  lemma PerfectSampleScores100(samplePercentages: Dict<real>, samplePercentOfExpected: Dict<real>,
                               expected: Dict<real>, tolerance: real, sqrt: real -> real)
    requires Wf(samplePercentages) && samplePercentages.keys != []
    requires PercentReadCountDictOperations.IsPercentOfExpected(samplePercentOfExpected, samplePercentages, expected)
    requires forall k :: k in samplePercentages.vals ==>
      k in expected.vals && samplePercentages.vals[k] == expected.vals[k] && expected.vals[k] != 0.0
    requires tolerance >= 0.0 && IsSquareRoot(sqrt)
    ensures RawScore(Penalties(PercentErrors(InOrder(samplePercentages.keys, samplePercentOfExpected)), tolerance), sqrt) == 100.0
  {
    var errors := PercentErrors(InOrder(samplePercentages.keys, samplePercentOfExpected));
    forall i | 0 <= i < |errors|
      ensures Abs(errors[i]) <= tolerance
    {
      var k := samplePercentages.keys[i];
      assert k in TruthyKeys(samplePercentages) && k in TruthyKeys(expected);
      assert samplePercentOfExpected.vals[k] == 100.0;
    }
    RawScoreAtMost100(errors, tolerance, sqrt);
  }

  /** A zero tolerance is no tolerance: every error contributes its plain square. */
  lemma ZeroTolerancePenalties(errors: seq<real>)
    ensures Penalties(errors, 0.0) == seq(|errors|, i requires 0 <= i < |errors| => Square(errors[i]))
  {
  }

  /** The square root of the square of a non-negative number is that number. */
  lemma SquareRootOfSquare(sqrt: real -> real, r: real)
    requires IsSquareRoot(sqrt) && r >= 0.0
    ensures sqrt(Square(r)) == r
  {
    var s := sqrt(Square(r));
    assert s >= 0.0 && s * s == r * r;
    assert (s - r) * (s + r) == 0.0;
    if s + r > 0.0 {
      assert s - r == (s - r) * (s + r) / (s + r);
    }
  }

  /**
   * Two sources at 150 and 50 percent of expected (errors -50 and 50):
   * without tolerance the mean squared error is 2500 and the score 50; with
   * a tolerance of 10 it is 1600 and the score 60.
   */
  lemma TwoSourceScores(sqrt: real -> real)
    requires IsSquareRoot(sqrt)
    ensures PercentErrors([150.0, 50.0]) == [-50.0, 50.0]
    ensures Mean(Penalties([-50.0, 50.0], 0.0)) == 2500.0
    ensures RawScore(Penalties([-50.0, 50.0], 0.0), sqrt) == 50.0
    ensures Mean(Penalties([-50.0, 50.0], 10.0)) == 1600.0
    ensures RawScore(Penalties([-50.0, 50.0], 10.0), sqrt) == 60.0
  {
    var plain := Penalties([-50.0, 50.0], 0.0);
    assert plain == [2500.0, 2500.0];
    assert SeqSum(plain) == 5000.0 by { assert plain[..1] == [2500.0]; }
    var banded := Penalties([-50.0, 50.0], 10.0);
    assert banded == [1600.0, 1600.0];
    assert SeqSum(banded) == 3200.0 by { assert banded[..1] == [1600.0]; }
    SquareRootOfSquare(sqrt, 50.0);
    SquareRootOfSquare(sqrt, 40.0);
  }

  /** The floor only ever raises the score, and only up to the floor. */
  lemma FilteredBounds(miqScore: real, floor: Floor)
    ensures floor.NoFloor? ==> Filtered(miqScore, floor) == miqScore
    ensures floor.Floor? ==> Filtered(miqScore, floor) >= floor.value && Filtered(miqScore, floor) >= miqScore
    ensures Filtered(miqScore, floor) == miqScore || (floor.Floor? && Filtered(miqScore, floor) == floor.value)
  {
  }

  // ----- The result object -----

  /** A drawn plot: one encoded image, or the encoded images of the radar plots keyed by sorting. */
  datatype Plot = Image(encoded: string) | Images(encodedBySorting: Dict<string>)

  /** The cache keys of the two plots modelled here. */
  const ReadFatesKey := "readFates"
  const RadarPlotsKey := "radarPlots"

  /** The cell of the read-fate chart that is drawn pulled out. */
  const ExplodeCell := "Aligned To Reference"

  /** The sort order whose highest items are drawn at the top. */
  const Descending := "descending"

  /** What `makeReadFateTable` returns: the read-fate counts as percentages. */
  function ReadFateTable(nonreferenceReadCounts: Dict<real>, referenceReadCounts: Dict<real>): Dict<real> {
    AbsoluteReadCountDictOperations.Percentages(ReportGeneration.ReadFateCounts(nonreferenceReadCounts, referenceReadCounts))
  }

  /**
   * The cache protocol shared by the plot methods: a cached plot is
   * returned as it is unless a redraw is forced; otherwise the plot is
   * `drawn`, and it is cached only when plots are stored.
   */
  function CachedDraw(plots: map<string, Plot>, key: string, forceRedraw: bool, storePlots: bool, drawn: Plot)
    : (Plot, map<string, Plot>)
  {
    if key in plots && !forceRedraw then (plots[key], plots)
    else (drawn, if storePlots then plots[key := drawn] else plots)
  }

  /**
   * What draws a radar plot from its layout, the sorting's name, whether
   * high is at the top, and the format; the drawing may raise.
   */
  type RadarDrawing = (RadarMaker.RadarLayout, string, bool, string) -> Result<string>

  /** The heading of the radar plot of one sorting. */
  function RadarPlotTitle(sampleID: Option<string>, sortingMethod: string): string {
    if sampleID.Some? && sampleID.value != "" then sampleID.value + ": " + "Sorted By " + sortingMethod
    else sortingMethod
  }

  /** `{plotTitle: samplePercentagesOfExpected}`: a data dict with a single sample. */
  function SingleSample(plotTitle: string, values: Dict<real>): (data: Dict<Dict<real>>)
    ensures Wf(data) && data.keys == [plotTitle] && data.vals[plotTitle] == values
  {
    Dict([plotTitle], map[plotTitle := values])
  }

  /** The plots of the first `n` keys, each drawn by `plotOf`, or the error of the first key whose drawing raises. */
  function DrawnUpTo(keys: seq<string>, plotOf: string -> Result<string>, n: nat): Result<Dict<string>>
    requires n <= |keys|
  {
    if n == 0 then Ok(Empty())
    else
      match DrawnUpTo(keys, plotOf, n - 1)
      case Err(e) => Err(e)
      case Ok(plots) =>
        match plotOf(keys[n - 1])
        case Err(e) => Err(e)
        case Ok(encodedPlot) => Ok(Put(plots, keys[n - 1], encodedPlot))
  }

  /** The loop of `makeRadarPlots`: each key is drawn in turn, and the first error is raised. */
  method DrawPlots(keys: seq<string>, plotOf: string -> Result<string>) returns (r: Result<Dict<string>>)
    ensures r == DrawnUpTo(keys, plotOf, |keys|)
  {
    var plots := Empty();
    var i := 0;
    while i < |keys|
      invariant 0 <= i <= |keys|
      invariant DrawnUpTo(keys, plotOf, i).Ok?
      invariant DrawnUpTo(keys, plotOf, i).value == plots
    {
      var key := keys[i];
      var drawn := plotOf(key);
      if drawn.Err? {
        DrawnUpToErrorStays(keys, plotOf, i + 1, |keys|);
        return Err(drawn.error);
      }
      plots := Put(plots, key, drawn.value);
      i := i + 1;
    }
    return Ok(plots);
  }

  /** Once a key raises, the plots up to any later key raise the same error. */
  lemma {:induction false} DrawnUpToErrorStays(keys: seq<string>, plotOf: string -> Result<string>, m: nat, n: nat)
    requires m <= n <= |keys| && DrawnUpTo(keys, plotOf, m).Err?
    ensures DrawnUpTo(keys, plotOf, n) == DrawnUpTo(keys, plotOf, m)
    decreases n - m
  {
    if m < n {
      assert DrawnUpTo(keys, plotOf, m + 1) == DrawnUpTo(keys, plotOf, m);
      DrawnUpToErrorStays(keys, plotOf, m + 1, n);
    }
  }

  /** Plots drawn for distinct keys are keyed by those keys, in their order. */
  lemma {:induction false} DrawnUpToKeys(keys: seq<string>, plotOf: string -> Result<string>, n: nat)
    requires Distinct(keys) && n <= |keys| && DrawnUpTo(keys, plotOf, n).Ok?
    ensures Wf(DrawnUpTo(keys, plotOf, n).value)
    ensures DrawnUpTo(keys, plotOf, n).value.keys == keys[..n]
  {
    if n > 0 {
      DrawnUpToKeys(keys, plotOf, n - 1);
      var previous := DrawnUpTo(keys, plotOf, n - 1).value;
      var key := keys[n - 1];
      assert DrawnUpTo(keys, plotOf, n).value == Put(previous, key, plotOf(key).value);
      assert key !in keys[..n - 1];
      assert key !in previous.vals;
      assert keys[..n] == keys[..n - 1] + [key];
    }
  }

  /** Each of the first `n` distinct keys holds the plot `plotOf` draws for it. */
  lemma {:induction false} DrawnUpToAt(keys: seq<string>, plotOf: string -> Result<string>, n: nat, i: nat)
    requires Distinct(keys) && i < n <= |keys| && DrawnUpTo(keys, plotOf, n).Ok?
    ensures keys[i] in DrawnUpTo(keys, plotOf, n).value.vals
    ensures plotOf(keys[i]) == Ok(DrawnUpTo(keys, plotOf, n).value.vals[keys[i]])
  {
    var previous := DrawnUpTo(keys, plotOf, n - 1).value;
    var key := keys[n - 1];
    assert DrawnUpTo(keys, plotOf, n).value == Put(previous, key, plotOf(key).value);
    if i < n - 1 {
      DrawnUpToAt(keys, plotOf, n - 1, i);
      assert keys[i] != key;
    }
  }

  /** `MiqScoreData`: the score, the dicts it was computed from, the read-fate table and the plot cache. */
  class MiqScoreData {
    const miqScore: real
    const rawMiqScore: real
    const referenceReadCounts: Dict<real>
    const nonreferenceReadCounts: Dict<real>
    const samplePercentages: Dict<real>
    const samplePercentagesOfExpected: Dict<real>
    const percentToleranceInStandard: real
    const analysisMethod: string
    const standardReference: StandardReference
    const sampleID: Option<string>
    const storePlots: bool
    var readFateTable: Dict<real>
    var plots: map<string, Plot>

    /** The dicts are real dicts, and the read-fate table is the one `makeReadFateTable` builds. */
    ghost predicate Valid()
      reads this
    {
      && standardReference.Valid()
      && Wf(referenceReadCounts) && Wf(nonreferenceReadCounts) && Wf(samplePercentagesOfExpected)
      && readFateTable == ReadFateTable(nonreferenceReadCounts, referenceReadCounts)
    }

    /** `MiqScoreData.__init__`: the dicts are kept as values, the read-fate table is built and the cache is empty. */
    constructor (miqScore: real, rawMiqScore: real, referenceReadCounts: Dict<real>,
                 nonreferenceReadCounts: Dict<real>, samplePercentages: Dict<real>,
                 samplePercentagesOfExpected: Dict<real>, percentToleranceInStandard: real,
                 analysisMethod: string, standardReference: StandardReference, sampleID: Option<string>,
                 storePlots: bool)
      requires standardReference.Valid()
      requires Wf(referenceReadCounts) && Wf(nonreferenceReadCounts) && Wf(samplePercentagesOfExpected)
      ensures Valid()
      ensures this.miqScore == miqScore && this.rawMiqScore == rawMiqScore
      ensures this.referenceReadCounts == referenceReadCounts
      ensures this.nonreferenceReadCounts == nonreferenceReadCounts
      ensures this.samplePercentages == samplePercentages
      ensures this.samplePercentagesOfExpected == samplePercentagesOfExpected
      ensures this.percentToleranceInStandard == percentToleranceInStandard
      ensures this.analysisMethod == analysisMethod && this.standardReference == standardReference
      ensures this.sampleID == sampleID && this.storePlots == storePlots
      ensures readFateTable == ReadFateTable(nonreferenceReadCounts, referenceReadCounts)
      ensures plots == map[]
    {
      this.miqScore := miqScore;
      this.rawMiqScore := rawMiqScore;
      this.referenceReadCounts := referenceReadCounts;
      this.nonreferenceReadCounts := nonreferenceReadCounts;
      this.samplePercentages := samplePercentages;
      this.samplePercentagesOfExpected := samplePercentagesOfExpected;
      this.percentToleranceInStandard := percentToleranceInStandard;
      this.analysisMethod := analysisMethod;
      this.standardReference := standardReference;
      this.sampleID := sampleID;
      this.storePlots := storePlots;
      new;
      readFateTable := MakeReadFateTable();
      plots := map[];
    }

    /** `makeReadFateTable`: the non-reference counts plus "Reference", as percentages. */
    method MakeReadFateTable() returns (readFates: Dict<real>)
      requires Wf(referenceReadCounts) && Wf(nonreferenceReadCounts)
      ensures readFates == ReadFateTable(nonreferenceReadCounts, referenceReadCounts)
    {
      readFates := nonreferenceReadCounts;
      var referenceCount := GeneralDictOperations.SumDictionary(referenceReadCounts);
      readFates := Put(readFates, ReportGeneration.ReferenceFate, referenceCount);
      ReportGeneration.ReadFateCountsAt(nonreferenceReadCounts, referenceReadCounts, ReportGeneration.ReferenceFate);
      readFates := AbsoluteReadCountDictOperations.ConvertDictToPercentages(readFates);
    }

    /**
     * `makeReadFateChart`: a cached chart is returned unless a redraw is
     * forced; otherwise `drawReadFateChart` draws the relabelled table with
     * the sample ID, the exploded cell and the format, and a drawing that
     * raises leaves the cache as it was.
     */
    method MakeReadFateChart(format: string, forceRedraw: bool, readFatePrintNames: Option<Dict<string>>,
                             drawReadFateChart: (Dict<real>, Option<string>, string, string) -> Result<string>)
      returns (r: Result<Plot>)
      requires Valid()
      modifies this`plots
      ensures Valid()
      ensures ReadFatesKey in old(plots) && !forceRedraw ==> r == Ok(old(plots)[ReadFatesKey]) && plots == old(plots)
      ensures !(ReadFatesKey in old(plots) && !forceRedraw) ==>
        match drawReadFateChart(ReportGeneration.PrintReadFateTable(readFateTable, readFatePrintNames),
                                sampleID, ExplodeCell, format)
        case Err(e) => r == Err(e) && plots == old(plots)
        case Ok(chart) =>
          r.Ok? && (r.value, plots) == CachedDraw(old(plots), ReadFatesKey, forceRedraw, storePlots, Image(chart))
    {
      if ReadFatesKey in plots && !forceRedraw {
        return Ok(plots[ReadFatesKey]);
      }
      var printReadFateTable := ReportGeneration.RelabelReadFates(readFateTable, readFatePrintNames);
      var drawn := drawReadFateChart(printReadFateTable, sampleID, ExplodeCell, format);
      if drawn.Err? {
        return Err(drawn.error);
      }
      var encodedPlot := Image(drawn.value);
      if storePlots {
        plots := plots[ReadFatesKey := encodedPlot];
      }
      return Ok(encodedPlot);
    }

    /** `[item for item in orderedListUnfiltered if item in self.referenceReadCounts]`. */
    function PresentItems(orderedListUnfiltered: seq<string>): (orderedList: seq<string>)
      ensures forall item :: item in orderedList <==> item in orderedListUnfiltered && item in referenceReadCounts.keys
    {
      RadarMaker.KeptFrom(orderedListUnfiltered, referenceReadCounts.keys);
      RadarMaker.Kept(orderedListUnfiltered, referenceReadCounts.keys)
    }

    /**
     * What `makeRadarPlot` works out for one sorting before it draws: the
     * percent of expected as one sample, ranked by the sorting's items that
     * were counted, with the reference's print names.
     */
    function RadarLayoutOf(sortingMethod: string): Result<RadarMaker.RadarLayout>
      requires sortingMethod in standardReference.sortings.vals
    {
      var orderedList := PresentItems(standardReference.sortings.vals[sortingMethod].orderedItems);
      var plottingDict := SingleSample(RadarPlotTitle(sampleID, sortingMethod), samplePercentagesOfExpected);
      RadarMaker.RadarPlotLayout(plottingDict, orderedList, None, "", Some(standardReference.printNames))
    }

    /**
     * The radar plot of one sorting: `drawRadarPlot` draws its layout with
     * the sorting's name, whether high is at the top, and the format.  A
     * name that is not a sorting is the KeyError of the lookup.
     */
    function RadarPlotOf(sortingMethod: string, format: string, drawRadarPlot: RadarDrawing): Result<string>
    {
      if sortingMethod !in standardReference.sortings.vals then Err(KeyError)
      else
        var topHigh := standardReference.sortings.vals[sortingMethod].orderType == Descending;
        match RadarLayoutOf(sortingMethod)
        case Err(e) => Err(e)
        case Ok(layout) => drawRadarPlot(layout, sortingMethod, topHigh, format)
    }

    /** `RadarPlotOf` as a function of the sorting alone. */
    function RadarPlotFor(format: string, drawRadarPlot: RadarDrawing)
      : string -> Result<string>
    {
      sortingMethod => RadarPlotOf(sortingMethod, format, drawRadarPlot)
    }

    /** All the radar plots, one per sorting in the order of `sortings`, or the error of the first that raises. */
    function RadarPlots(format: string, drawRadarPlot: RadarDrawing)
      : Result<Dict<string>>
    {
      DrawnUpTo(standardReference.sortings.keys, RadarPlotFor(format, drawRadarPlot),
                |standardReference.sortings.keys|)
    }

    /**
     * `makeRadarPlots`: a cached entry is returned unless a redraw is
     * forced; otherwise a radar plot is made for every sorting, and an error
     * of `makeRadarPlot` leaves the cache as it was.
     */
    method MakeRadarPlots(format: string, forceRedraw: bool,
                          drawRadarPlot: RadarDrawing)
      returns (r: Result<Plot>)
      requires Valid()
      modifies this`plots
      ensures Valid()
      ensures RadarPlotsKey in old(plots) && !forceRedraw ==> r == Ok(old(plots)[RadarPlotsKey]) && plots == old(plots)
      ensures !(RadarPlotsKey in old(plots) && !forceRedraw) ==>
        match RadarPlots(format, drawRadarPlot)
        case Err(e) => r == Err(e) && plots == old(plots)
        case Ok(radarPlots) =>
          r.Ok? && (r.value, plots) == CachedDraw(old(plots), RadarPlotsKey, forceRedraw, storePlots, Images(radarPlots))
    {
      if RadarPlotsKey in plots && !forceRedraw {
        return Ok(plots[RadarPlotsKey]);
      }
      var drawn := DrawPlots(standardReference.sortings.keys, RadarPlotFor(format, drawRadarPlot));
      if drawn.Err? {
        return Err(drawn.error);
      }
      var encodedPlot := Images(drawn.value);
      if storePlots {
        plots := plots[RadarPlotsKey := encodedPlot];
      }
      return Ok(encodedPlot);
    }

    /** When every sorting draws, the radar plots are keyed by the sortings in their order, each the plot of its sorting. */
    lemma RadarPlotsKeys(format: string, drawRadarPlot: RadarDrawing)
      requires Valid() && RadarPlots(format, drawRadarPlot).Ok?
      ensures var radarPlots := RadarPlots(format, drawRadarPlot).value;
        && Wf(radarPlots)
        && radarPlots.keys == standardReference.sortings.keys
        && forall sortingMethod :: sortingMethod in radarPlots.vals ==>
             RadarPlotOf(sortingMethod, format, drawRadarPlot) == Ok(radarPlots.vals[sortingMethod])
    {
      var sortings := standardReference.sortings.keys;
      DrawnUpToKeys(sortings, RadarPlotFor(format, drawRadarPlot), |sortings|);
      assert sortings[..|sortings|] == sortings;
      var radarPlots := RadarPlots(format, drawRadarPlot).value;
      forall sortingMethod | sortingMethod in radarPlots.vals
        ensures RadarPlotOf(sortingMethod, format, drawRadarPlot) == Ok(radarPlots.vals[sortingMethod])
      {
        var i :| 0 <= i < |sortings| && sortings[i] == sortingMethod;
        DrawnUpToAt(sortings, RadarPlotFor(format, drawRadarPlot), |sortings|, i);
      }
    }

    /**
     * With one sample and a rank order of counted items only, the layout of
     * a sorting is an IndexError when there is nothing to plot, the
     * ValueError of `plot` when the sorting ranks a number of counted items
     * other than the number of percent-of-expected entries, a KeyError when
     * a ranked item has no print name, and otherwise made.
     */
    lemma RadarLayoutOfOutcome(sortingMethod: string)
      requires Valid() && sortingMethod in standardReference.sortings.vals
      requires forall k :: k in referenceReadCounts.vals ==> k in samplePercentagesOfExpected.vals
      ensures var orderedList := PresentItems(standardReference.sortings.vals[sortingMethod].orderedItems);
        var printNames := standardReference.printNames;
        var r := RadarLayoutOf(sortingMethod);
        var entries := samplePercentagesOfExpected.keys;
        && (r == Err(IndexError) <==> entries == [] || orderedList == [])
        && (r == Err(ValueError) <==> entries != [] && orderedList != [] && |orderedList| != |entries|)
        && (r == Err(KeyError) <==>
              && entries != [] && orderedList != [] && |orderedList| == |entries| && printNames.keys != []
              && exists item :: item in orderedList && item !in printNames.vals)
        && (r.Ok? <==> r != Err(IndexError) && r != Err(ValueError) && r != Err(KeyError))
    {
      var sorting := standardReference.sortings.vals[sortingMethod];
      var orderedList := PresentItems(sorting.orderedItems);
      var plottingDict := SingleSample(RadarPlotTitle(sampleID, sortingMethod), samplePercentagesOfExpected);
      RadarMaker.SingleSampleLayout(plottingDict, orderedList, "", Some(standardReference.printNames));
    }
  }

  /** Every counted reference source of a scoring has a percent of expected. */
  lemma ScoringKeys(calculator: MiqScoreCalculator, sampleData: Dict<real>, sqrt: real -> real, s: Scoring)
    requires calculator.Valid() && Wf(sampleData) && IsScoring(calculator, sampleData, sqrt, s)
    ensures Wf(s.referenceReads)
    ensures forall k :: k in s.referenceReads.vals <==> k in calculator.expectedReadSources
    ensures forall k :: k in s.samplePercentOfExpected.vals <==> k in calculator.expectedReadSources
  {
    var counts := StandardCounts(calculator, sampleData);
    ObservedAreExpected(calculator, counts);
    ExpectedReadSourcesAt(calculator);
    forall k
      ensures k in s.referenceReads.vals <==> k in calculator.expectedReadSources
    {
      GeneralDictOperations.ReferenceReadsAt(counts, calculator.expectedReadSources, k);
    }
  }

  /**
   * `calculateMiq`: ValueError when the analysis method expects no read
   * source (the mean of no errors); otherwise a new result object holding
   * the scoring, with an empty plot cache that stores plots.
   */
  method CalculateMiq(calculator: MiqScoreCalculator, sampleData: Dict<real>, sampleID: Option<string>,
                      sqrt: real -> real)
    returns (r: Result<MiqScoreData>)
    requires calculator.Valid() && Wf(sampleData)
    ensures r.Err? <==> calculator.expectedReadSources == []
    ensures r.Err? ==> r.error == ValueError
    ensures r.Ok? ==> fresh(r.value) && r.value.Valid() && r.value.plots == map[] && r.value.storePlots
    ensures r.Ok? ==>
      var data := r.value;
      && IsScoring(calculator, sampleData, sqrt,
           Scoring(data.miqScore, data.rawMiqScore, data.referenceReadCounts, data.nonreferenceReadCounts,
                   data.samplePercentages, data.samplePercentagesOfExpected))
      && data.percentToleranceInStandard == calculator.percentToleranceInStandard
      && data.analysisMethod == calculator.analysisMethod
      && data.standardReference == calculator.standardReference
      && data.sampleID == sampleID
      && forall k :: k in data.referenceReadCounts.vals ==> k in data.samplePercentagesOfExpected.vals
  {
    var scored := Score(calculator, sampleData, sqrt);
    if scored.Err? {
      return Err(scored.error);
    }
    var s := scored.value;
    ScoringKeys(calculator, sampleData, sqrt, s);
    var data := new MiqScoreData(s.miqScore, s.rawMiqScore, s.referenceReads, s.nonreferenceReads,
                                 s.samplePercentages, s.samplePercentOfExpected,
                                 calculator.percentToleranceInStandard, calculator.analysisMethod,
                                 calculator.standardReference, sampleID, true);
    return Ok(data);
  }

  /** A plot drawn and stored is what the next call without a redraw returns, and the cache then stays as it is. */
  lemma CachedDrawStored(plots: map<string, Plot>, key: string, forceRedraw: bool, drawn: Plot, redrawn: Plot,
                         storePlots: bool)
    ensures var (first, cached) := CachedDraw(plots, key, forceRedraw, true, drawn);
      && key in cached && cached[key] == first
      && CachedDraw(cached, key, false, storePlots, redrawn) == (first, cached)
  {
  }

  /** Without storing, the cache never changes; with it, only the drawn key does. */
  lemma CachedDrawFrame(plots: map<string, Plot>, key: string, forceRedraw: bool, storePlots: bool, drawn: Plot,
                        other: string)
    ensures !storePlots ==> CachedDraw(plots, key, forceRedraw, storePlots, drawn).1 == plots
    ensures other != key ==>
      (other in CachedDraw(plots, key, forceRedraw, storePlots, drawn).1 <==> other in plots)
    ensures other != key && other in plots ==> CachedDraw(plots, key, forceRedraw, storePlots, drawn).1[other] == plots[other]
  {
  }
}
