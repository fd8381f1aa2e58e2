/**
 * percentReadCountDictOperations.py: percentages written as fractions,
 * filling in a missing portion of a composition, and the observed
 * composition as a percentage of the expected one.
 */
module PercentReadCountDictOperations {
  import opened Outcomes
  import opened PyDict
  import GeneralDictOperations
  import RealFacts

  /** A fraction written as a percentage. */
  function Hundredfold(v: real): real {
    v * 100.0
  }

  /** `Hundredfold` as a function value. */
  function TimesHundredEach(): real -> real {
    v => Hundredfold(v)
  }

  /** Every value multiplied by 100; the keys and their order are unchanged. */
  function TimesHundred(d: Dict<real>): Dict<real> {
    MapValues(d, TimesHundredEach())
  }

  /** What `convertDecimalPercentages` returns: a total above 2 is taken to be in percent already. */
  function DecimalPercentages(d: Dict<real>): Dict<real> {
    if Sum(d) > 2.0 then d else TimesHundred(d)
  }

  /** `convertDecimalPercentages`. */
  method ConvertDecimalPercentages(sampleData: Dict<real>) returns (convertedData: Dict<real>)
    requires Wf(sampleData)
    ensures convertedData == DecimalPercentages(sampleData)
  {
    var sum := GeneralDictOperations.SumDictionary(sampleData);
    if sum > 2.0 {
      return sampleData;
    }
    convertedData := MultiplyByHundred(sampleData);
  }

  /** The loop of `convertDecimalPercentages`: every value multiplied by 100. */
  method MultiplyByHundred(sampleData: Dict<real>) returns (convertedData: Dict<real>)
    requires Wf(sampleData)
    ensures convertedData == TimesHundred(sampleData)
  {
    convertedData := Empty();
    var i := 0;
    while i < |sampleData.keys|
      invariant 0 <= i <= |sampleData.keys|
      invariant convertedData.keys == MapValuesUpTo(sampleData, TimesHundredEach(), i).keys
      invariant convertedData.vals == MapValuesUpTo(sampleData, TimesHundredEach(), i).vals
    {
      var key := sampleData.keys[i];
      convertedData := Put(convertedData, key, Hundredfold(sampleData.vals[key]));
      i := i + 1;
    }
    MapValuesUpToAll(sampleData, TimesHundredEach());
  }

  /**
   * A total above 2 gives the input back; otherwise the keys and their
   * order are kept and each value is multiplied by 100.
   */
  lemma DecimalPercentagesAt(d: Dict<real>, k: string)
    requires Wf(d)
    ensures Sum(d) > 2.0 ==> DecimalPercentages(d) == d
    ensures DecimalPercentages(d).keys == d.keys && Wf(DecimalPercentages(d))
    ensures k in DecimalPercentages(d).vals <==> k in d.vals
    ensures Sum(d) <= 2.0 && k in d.vals ==> DecimalPercentages(d).vals[k] == d.vals[k] * 100.0
  {
  }

  /**
   * When the missing portion is shared out, the keys and their order are
   * kept and each value gets `missing * value / total` added.
   */
  lemma FilledInPercentagesAt(d: Dict<real>, k: string)
    requires Wf(d)
    ensures Sum(d) == 0.0 || 100.0 - Sum(d) <= 1.0 ==> FilledInPercentages(d) == d
    ensures FilledInPercentages(d).keys == d.keys && Wf(FilledInPercentages(d))
    ensures k in FilledInPercentages(d).vals <==> k in d.vals
    ensures Sum(d) != 0.0 && 100.0 - Sum(d) > 1.0 && k in d.vals ==>
      FilledInPercentages(d).vals[k] == d.vals[k] + (100.0 - Sum(d)) * (d.vals[k] / Sum(d))
  {
  }

  /** Multiplying every value by 100 multiplies every partial sum by 100. */
  lemma {:induction false} TimesHundredSumUpTo(d: Dict<real>, n: nat)
    requires n <= |d.keys|
    ensures SumUpTo(TimesHundred(d), n) == SumUpTo(d, n) * 100.0
  {
    if n > 0 {
      TimesHundredSumUpTo(d, n - 1);
      var k := d.keys[n - 1];
      assert Counted(TimesHundred(d), k) == Counted(d, k) * 100.0;
    }
  }

  /**
   * A composition given in fractions (total at most 2) comes back with 100
   * times its total; one given in percent comes back unchanged.
   */
  lemma DecimalPercentagesTotal(d: Dict<real>)
    ensures Sum(d) <= 2.0 ==> Sum(DecimalPercentages(d)) == Sum(d) * 100.0
    ensures Sum(d) > 2.0 ==> DecimalPercentages(d) == d
  {
    TimesHundredSumUpTo(d, |d.keys|);
  }

  /** A value plus its share of the `missing` portion, the share being its weight `v / total`. */
  function WithShare(v: real, total: real, missing: real): real
    requires total != 0.0
  {
    v + missing * (v / total)
  }

  /** The filling-in of one value, as a function value. */
  function WithShareOf(total: real, missing: real): real -> real
    requires total != 0.0
  {
    v => WithShare(v, total, missing)
  }

  /** Every value with its share of the missing portion added; the keys and their order are unchanged. */
  function FilledIn(d: Dict<real>, total: real, missing: real): Dict<real>
    requires total != 0.0
  {
    MapValues(d, WithShareOf(total, missing))
  }

  /**
   * What `fillInMissingPercentPortion` returns: the input itself when its
   * total is 0 or at most 1 percent is missing, the filled-in values otherwise.
   */
  function FilledInPercentages(d: Dict<real>): Dict<real> {
    if Sum(d) == 0.0 || 100.0 - Sum(d) <= 1.0 then d else FilledIn(d, Sum(d), 100.0 - Sum(d))
  }

  /** `fillInMissingPercentPortion`. */
  method FillInMissingPercentPortion(sampleData: Dict<real>) returns (filledInData: Dict<real>)
    requires Wf(sampleData)
    ensures filledInData == FilledInPercentages(sampleData)
  {
    var sum := GeneralDictOperations.SumDictionary(sampleData);
    if sum == 0.0 {
      return sampleData;
    }
    var missingPortion := 100.0 - sum;
    if missingPortion <= 1.0 {
      return sampleData;
    }
    filledInData := ShareOutMissing(sampleData, sum, missingPortion);
  }

  /** The loop of `fillInMissingPercentPortion`: each value gets its share of the missing portion. */
  method ShareOutMissing(sampleData: Dict<real>, sum: real, missingPortion: real) returns (filledInData: Dict<real>)
    requires Wf(sampleData) && sum != 0.0
    ensures filledInData == FilledIn(sampleData, sum, missingPortion)
  {
    filledInData := Empty();
    var i := 0;
    while i < |sampleData.keys|
      invariant 0 <= i <= |sampleData.keys|
      invariant filledInData.keys == MapValuesUpTo(sampleData, WithShareOf(sum, missingPortion), i).keys
      invariant filledInData.vals == MapValuesUpTo(sampleData, WithShareOf(sum, missingPortion), i).vals
    {
      var key := sampleData.keys[i];
      filledInData := Put(filledInData, key, WithShare(sampleData.vals[key], sum, missingPortion));
      i := i + 1;
    }
    MapValuesUpToAll(sampleData, WithShareOf(sum, missingPortion));
  }

  /** The partial sums of the filled-in dict are the partial sums with their share added. */
  lemma {:induction false} FilledInSumUpTo(d: Dict<real>, total: real, missing: real, n: nat)
    requires total != 0.0 && n <= |d.keys|
    ensures SumUpTo(FilledIn(d, total, missing), n) == WithShare(SumUpTo(d, n), total, missing)
  {
    if n == 0 {
      RealFacts.ShareAdditive(0.0, 0.0, total, missing);
    } else {
      FilledInSumUpTo(d, total, missing, n - 1);
      var k := d.keys[n - 1];
      FilledInCounted(d, total, missing, k);
      RealFacts.ShareAdditive(SumUpTo(d, n - 1), Counted(d, k), total, missing);
    }
  }

  /** Each key counts its own value with its share added. */
  lemma FilledInCounted(d: Dict<real>, total: real, missing: real, k: string)
    requires total != 0.0
    ensures Counted(FilledIn(d, total, missing), k) == WithShare(Counted(d, k), total, missing)
  {
    RealFacts.ShareAdditive(0.0, 0.0, total, missing);
  }

  /** When the missing portion is filled in, the composition adds up to exactly 100. */
  lemma FilledInTotal(d: Dict<real>)
    requires Sum(d) != 0.0 && 100.0 - Sum(d) > 1.0
    ensures Sum(FilledInPercentages(d)) == 100.0
  {
    FilledInSumUpTo(d, Sum(d), 100.0 - Sum(d), |d.keys|);
    RealFacts.ShareOfWhole(Sum(d));
  }

  /** Filling in keeps proportions: each new value is the same fraction of 100 as the old one was of the total. */
  lemma FilledInProportion(d: Dict<real>, k: string)
    requires Sum(d) != 0.0 && 100.0 - Sum(d) > 1.0
    requires k in d.vals
    ensures k in FilledInPercentages(d).vals
    ensures FilledInPercentages(d).vals[k] / 100.0 == d.vals[k] / Sum(d)
  {
    RealFacts.ShareKeepsProportion(d.vals[k], Sum(d));
  }

  /** The entry the percent-of-expected dict has for an expected source `k`. */
  function PercentOfExpectedAt(observed: Dict<real>, expected: Dict<real>, k: string): real
    requires k in TruthyKeys(expected)
  {
    if k in TruthyKeys(observed) then observed.vals[k] / expected.vals[k] * 100.0 else 0.0
  }

  /**
   * `p` is a correct result of `calculateObservedPercentOfExpected`: it has
   * an entry for exactly the truthy expected sources, each being the
   * observed value as a percentage of the expected one (0 when unobserved).
   */
  ghost predicate IsPercentOfExpected(p: Dict<real>, observed: Dict<real>, expected: Dict<real>) {
    && Wf(p)
    && (forall k :: k in p.vals <==> k in TruthyKeys(expected))
    && (forall k :: k in p.vals ==> p.vals[k] == PercentOfExpectedAt(observed, expected, k))
  }

  /** The truthy keys of `d`, collected by a loop over its keys. */
  method TruthySources(d: Dict<real>) returns (sources: set<string>)
    requires Wf(d)
    ensures sources == TruthyKeys(d)
  {
    sources := {};
    var i := 0;
    while i < |d.keys|
      invariant 0 <= i <= |d.keys|
      invariant forall k :: k in sources <==> k in d.keys[..i] && k in TruthyKeys(d)
    {
      var source := d.keys[i];
      assert d.keys[..i + 1] == d.keys[..i] + [source];
      if d.vals[source] != 0.0 {
        sources := sources + {source};
      }
      i := i + 1;
    }
    assert d.keys[..i] == d.keys;
  }

  /**
   * `calculateObservedPercentOfExpected`: a ValueError exactly when some
   * source is observed (truthy) but not expected; otherwise the percentage
   * of its expected value each expected source reached.  The result's key
   * order follows Python's set iteration, which is left unspecified.
   */
  method CalculateObservedPercentOfExpected(observedReadPercent: Dict<real>, expectedReadPercent: Dict<real>)
    returns (r: Result<Dict<real>>)
    requires Wf(observedReadPercent) && Wf(expectedReadPercent)
    ensures r.Err? <==> !(TruthyKeys(observedReadPercent) <= TruthyKeys(expectedReadPercent))
    ensures r.Err? ==> r.error == ValueError
    ensures r.Ok? ==> IsPercentOfExpected(r.value, observedReadPercent, expectedReadPercent)
  {
    var observedSources := TruthySources(observedReadPercent);
    var expectedSources := TruthySources(expectedReadPercent);
    if !(observedSources <= expectedSources) {
      return Err(ValueError);
    }
    var percentOfExpectedDict: Dict<real> := Empty();
    var remaining := expectedSources;
    while remaining != {}
      invariant remaining <= expectedSources
      invariant Wf(percentOfExpectedDict)
      invariant forall k :: k in percentOfExpectedDict.vals <==> k in expectedSources && k !in remaining
      invariant forall k :: k in percentOfExpectedDict.vals ==>
        percentOfExpectedDict.vals[k] == PercentOfExpectedAt(observedReadPercent, expectedReadPercent, k)
      decreases remaining
    {
      var readSource :| readSource in remaining;
      if readSource in observedSources {
        percentOfExpectedDict := Put(percentOfExpectedDict, readSource,
          (observedReadPercent.vals[readSource] / expectedReadPercent.vals[readSource]) * 100.0);
      } else {
        percentOfExpectedDict := Put(percentOfExpectedDict, readSource, 0.0);
      }
      remaining := remaining - {readSource};
    }
    return Ok(percentOfExpectedDict);
  }
}
