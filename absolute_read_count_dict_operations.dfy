/** absoluteReadCountDictOperations.py: absolute read counts as percentages of their total. */
module AbsoluteReadCountDictOperations {
  import opened PyDict
  import GeneralDictOperations
  import RealFacts

  /** A count as a percentage of `total`. */
  function PercentOf(count: real, total: real): real
    requires total != 0.0
  {
    count / total * 100.0
  }

  /** The conversion of one count, as a function value. */
  function PercentOfTotal(total: real): real -> real
    requires total != 0.0
  {
    count => PercentOf(count, total)
  }

  /** Each value as a percentage of `total`; the keys and their order are unchanged. */
  function Rescaled(d: Dict<real>, total: real): Dict<real>
    requires total != 0.0
  {
    MapValues(d, PercentOfTotal(total))
  }

  /** What `convertDictToPercentages` returns: the input itself when its total is 0. */
  function Percentages(d: Dict<real>): Dict<real> {
    if Sum(d) == 0.0 then d else Rescaled(d, Sum(d))
  }

  /** `convertDictToPercentages`. */
  method ConvertDictToPercentages(sampleData: Dict<real>) returns (percentageDict: Dict<real>)
    requires Wf(sampleData)
    ensures percentageDict == Percentages(sampleData)
  {
    var readSum := GeneralDictOperations.SumDictionary(sampleData);
    if readSum == 0.0 {
      return sampleData;
    }
    percentageDict := Rescale(sampleData, readSum);
  }

  /** The loop of `convertDictToPercentages`: every value as a percentage of `readSum`. */
  method Rescale(sampleData: Dict<real>, readSum: real) returns (percentageDict: Dict<real>)
    requires Wf(sampleData) && readSum != 0.0
    ensures percentageDict == Rescaled(sampleData, readSum)
  {
    percentageDict := Empty();
    var i := 0;
    while i < |sampleData.keys|
      invariant 0 <= i <= |sampleData.keys|
      invariant percentageDict.keys == MapValuesUpTo(sampleData, PercentOfTotal(readSum), i).keys
      invariant percentageDict.vals == MapValuesUpTo(sampleData, PercentOfTotal(readSum), i).vals
    {
      var key := sampleData.keys[i];
      percentageDict := Put(percentageDict, key, PercentOf(sampleData.vals[key], readSum));
      i := i + 1;
    }
    MapValuesUpToAll(sampleData, PercentOfTotal(readSum));
  }

  /**
   * A zero total gives the input back; otherwise the keys and their order
   * are kept and each value becomes its share of the total, times 100.
   */
  lemma PercentagesAt(d: Dict<real>, k: string)
    requires Wf(d)
    ensures Sum(d) == 0.0 ==> Percentages(d) == d
    ensures Percentages(d).keys == d.keys && Wf(Percentages(d))
    ensures k in Percentages(d).vals <==> k in d.vals
    ensures Sum(d) != 0.0 && k in d.vals ==> Percentages(d).vals[k] == d.vals[k] / Sum(d) * 100.0
  {
  }

  /** The partial sums of the rescaled dict are the rescaled partial sums. */
  lemma {:induction false} RescaledSumUpTo(d: Dict<real>, total: real, n: nat)
    requires total != 0.0 && n <= |d.keys|
    ensures SumUpTo(Rescaled(d, total), n) == PercentOf(SumUpTo(d, n), total)
  {
    if n == 0 {
      RealFacts.PercentAdditive(0.0, 0.0, total);
    } else {
      RescaledSumUpTo(d, total, n - 1);
      var k := d.keys[n - 1];
      assert Counted(Rescaled(d, total), k) == PercentOf(Counted(d, k), total) by {
        RealFacts.PercentAdditive(0.0, 0.0, total);
      }
      RealFacts.PercentAdditive(SumUpTo(d, n - 1), Counted(d, k), total);
    }
  }

  /** Unless the total is 0, the percentages add up to 100. */
  lemma PercentagesSumTo100(d: Dict<real>)
    requires Sum(d) != 0.0
    ensures Sum(Percentages(d)) == 100.0
  {
    RescaledSumUpTo(d, Sum(d), |d.keys|);
    RealFacts.PercentOfWhole(Sum(d));
  }

  /** For non-negative counts with a non-zero total, every percentage is at least 0, and at most 100 unless its key is "". */
  lemma PercentagesBounded(d: Dict<real>, k: string)
    requires Wf(d)
    requires forall k' :: k' in d.vals ==> d.vals[k'] >= 0.0
    requires Sum(d) != 0.0
    requires k in d.vals
    ensures 0.0 <= Percentages(d).vals[k]
    ensures k != "" ==> Percentages(d).vals[k] <= 100.0
  {
    var t := Sum(d);
    CountedAtMostSum(d, k);
    RealFacts.DivNonNegative(d.vals[k], t);
    if k != "" {
      RealFacts.DivBetweenZeroAndOne(d.vals[k], t);
    }
  }

  /** The conversion keeps the order of the counts: a smaller count never gets a larger percentage. */
  lemma PercentagesMonotone(d: Dict<real>, a: string, b: string)
    requires Sum(d) >= 0.0
    requires a in d.vals && b in d.vals
    requires d.vals[a] <= d.vals[b]
    ensures Percentages(d).vals[a] <= Percentages(d).vals[b]
  {
    if Sum(d) != 0.0 {
      RealFacts.DivMonotone(d.vals[a], d.vals[b], Sum(d));
    }
  }
}
