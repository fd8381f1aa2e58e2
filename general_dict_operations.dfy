/**
 * generalDictOperations.py: summing a dict, and splitting observed read
 * counts into the reads from expected (reference) sources and the rest.
 */
module GeneralDictOperations {
  import opened PyDict

  /** `sumDictionary`: accumulates the values of the keys that are truthy (not ""). */
  method SumDictionary(dictionary: Dict<real>) returns (sum: real)
    requires Wf(dictionary)
    ensures sum == Sum(dictionary)
  {
    sum := 0.0;
    var i := 0;
    while i < |dictionary.keys|
      invariant 0 <= i <= |dictionary.keys|
      invariant sum == SumUpTo(dictionary, i)
    {
      var key := dictionary.keys[i];
      if key != "" {
        sum := sum + dictionary.vals[key];
      }
      i := i + 1;
    }
  }

  /** The reference dict after the first loop has visited `n` observed sources. */
  function ObservedReferenceUpTo(observed: Dict<real>, expected: seq<string>, n: nat): Dict<real>
    requires Wf(observed) && n <= |observed.keys|
  {
    if n == 0 then Empty()
    else
      var r := ObservedReferenceUpTo(observed, expected, n - 1);
      var readSource := observed.keys[n - 1];
      if readSource in expected then Put(r, readSource, observed.vals[readSource]) else r
  }

  /** The non-reference dict after the first loop has visited `n` observed sources. */
  function NonreferenceUpTo(observed: Dict<real>, expected: seq<string>, n: nat): Dict<real>
    requires Wf(observed) && n <= |observed.keys|
  {
    if n == 0 then Empty()
    else
      var r := NonreferenceUpTo(observed, expected, n - 1);
      var readSource := observed.keys[n - 1];
      if readSource !in expected then Put(r, readSource, observed.vals[readSource]) else r
  }

  /** The zero-fill loop after `n` sources: each one still missing has been added with count 0. */
  function ZeroFilledUpTo(counts: Dict<real>, sources: seq<string>, n: nat): Dict<real>
    requires n <= |sources|
  {
    if n == 0 then counts
    else
      var r := ZeroFilledUpTo(counts, sources, n - 1);
      var readSource := sources[n - 1];
      if readSource in r.vals then r else Put(r, readSource, 0.0)
  }

  /** The `referenceReads` dict the partition returns. */
  function ReferenceReads(observed: Dict<real>, expected: seq<string>): (r: Dict<real>)
    requires Wf(observed)
    ensures Wf(r)
  {
    var observedPart := ObservedReferenceUpTo(observed, expected, |observed.keys|);
    ObservedReferenceUpToWf(observed, expected, |observed.keys|);
    ZeroFilledUpToWf(observedPart, expected, |expected|);
    ZeroFilledUpTo(observedPart, expected, |expected|)
  }

  /** The `nonreferenceReads` dict the partition returns. */
  function NonreferenceReads(observed: Dict<real>, expected: seq<string>): (r: Dict<real>)
    requires Wf(observed)
    ensures Wf(r)
  {
    NonreferenceUpToWf(observed, expected, |observed.keys|);
    NonreferenceUpTo(observed, expected, |observed.keys|)
  }

  /**
   * `separateReferenceAndNonreferenceReads` with a list (or set) of expected
   * sources: one pass over the observed counts, then a zero-fill pass over
   * the expected sources.
   */
  method SeparateReferenceAndNonreferenceReads(observedReadCounts: Dict<real>, expectedReads: seq<string>)
    returns (referenceReads: Dict<real>, nonreferenceReads: Dict<real>)
    requires Wf(observedReadCounts)
    ensures referenceReads == ReferenceReads(observedReadCounts, expectedReads)
    ensures nonreferenceReads == NonreferenceReads(observedReadCounts, expectedReads)
  {
    referenceReads := Empty();
    nonreferenceReads := Empty();
    var i := 0;
    while i < |observedReadCounts.keys|
      invariant 0 <= i <= |observedReadCounts.keys|
      invariant referenceReads == ObservedReferenceUpTo(observedReadCounts, expectedReads, i)
      invariant nonreferenceReads == NonreferenceUpTo(observedReadCounts, expectedReads, i)
    {
      var readSource := observedReadCounts.keys[i];
      if readSource in expectedReads {
        referenceReads := Put(referenceReads, readSource, observedReadCounts.vals[readSource]);
      } else {
        nonreferenceReads := Put(nonreferenceReads, readSource, observedReadCounts.vals[readSource]);
      }
      i := i + 1;
    }
    referenceReads := ZeroFill(referenceReads, expectedReads);
  }

  /** The zero-fill loop of the partition: every source not yet counted is added with count 0. */
  method ZeroFill(counts: Dict<real>, sources: seq<string>) returns (filled: Dict<real>)
    ensures filled == ZeroFilledUpTo(counts, sources, |sources|)
  {
    filled := counts;
    var j := 0;
    while j < |sources|
      invariant 0 <= j <= |sources|
      invariant filled == ZeroFilledUpTo(counts, sources, j)
    {
      var readSource := sources[j];
      if readSource !in filled.vals {
        filled := Put(filled, readSource, 0.0);
      }
      j := j + 1;
    }
  }

  lemma {:induction false} ObservedReferenceUpToWf(observed: Dict<real>, expected: seq<string>, n: nat)
    requires Wf(observed) && n <= |observed.keys|
    ensures Wf(ObservedReferenceUpTo(observed, expected, n))
  {
    if n > 0 {
      ObservedReferenceUpToWf(observed, expected, n - 1);
    }
  }

  lemma {:induction false} NonreferenceUpToWf(observed: Dict<real>, expected: seq<string>, n: nat)
    requires Wf(observed) && n <= |observed.keys|
    ensures Wf(NonreferenceUpTo(observed, expected, n))
  {
    if n > 0 {
      NonreferenceUpToWf(observed, expected, n - 1);
    }
  }

  lemma {:induction false} ZeroFilledUpToWf(counts: Dict<real>, sources: seq<string>, n: nat)
    requires Wf(counts) && n <= |sources|
    ensures Wf(ZeroFilledUpTo(counts, sources, n))
  {
    if n > 0 {
      ZeroFilledUpToWf(counts, sources, n - 1);
    }
  }

  lemma {:induction false} ObservedReferenceUpToHas(observed: Dict<real>, expected: seq<string>, n: nat, k: string)
    requires Wf(observed) && n <= |observed.keys|
    ensures k in ObservedReferenceUpTo(observed, expected, n).vals <==> k in observed.keys[..n] && k in expected
  {
    if n > 0 {
      ObservedReferenceUpToHas(observed, expected, n - 1, k);
      assert observed.keys[..n] == observed.keys[..n - 1] + [observed.keys[n - 1]];
    }
  }

  lemma {:induction false} ObservedReferenceUpToValue(observed: Dict<real>, expected: seq<string>, n: nat, k: string)
    requires Wf(observed) && n <= |observed.keys|
    ensures k in ObservedReferenceUpTo(observed, expected, n).vals ==>
      k in observed.vals && ObservedReferenceUpTo(observed, expected, n).vals[k] == observed.vals[k]
  {
    if n > 0 {
      ObservedReferenceUpToValue(observed, expected, n - 1, k);
    }
  }

  lemma {:induction false} NonreferenceUpToHas(observed: Dict<real>, expected: seq<string>, n: nat, k: string)
    requires Wf(observed) && n <= |observed.keys|
    ensures k in NonreferenceUpTo(observed, expected, n).vals <==> k in observed.keys[..n] && k !in expected
  {
    if n > 0 {
      NonreferenceUpToHas(observed, expected, n - 1, k);
      assert observed.keys[..n] == observed.keys[..n - 1] + [observed.keys[n - 1]];
    }
  }

  lemma {:induction false} NonreferenceUpToValue(observed: Dict<real>, expected: seq<string>, n: nat, k: string)
    requires Wf(observed) && n <= |observed.keys|
    ensures k in NonreferenceUpTo(observed, expected, n).vals ==>
      k in observed.vals && NonreferenceUpTo(observed, expected, n).vals[k] == observed.vals[k]
  {
    if n > 0 {
      NonreferenceUpToValue(observed, expected, n - 1, k);
    }
  }

  lemma {:induction false} ZeroFilledUpToHas(counts: Dict<real>, sources: seq<string>, n: nat, k: string)
    requires n <= |sources|
    ensures k in ZeroFilledUpTo(counts, sources, n).vals <==> k in counts.vals || k in sources[..n]
  {
    if n > 0 {
      ZeroFilledUpToHas(counts, sources, n - 1, k);
      assert sources[..n] == sources[..n - 1] + [sources[n - 1]];
    }
  }

  lemma {:induction false} ZeroFilledUpToValue(counts: Dict<real>, sources: seq<string>, n: nat, k: string)
    requires n <= |sources|
    ensures k in counts.vals ==> k in ZeroFilledUpTo(counts, sources, n).vals
    ensures k in ZeroFilledUpTo(counts, sources, n).vals ==>
      ZeroFilledUpTo(counts, sources, n).vals[k] == if k in counts.vals then counts.vals[k] else 0.0
  {
    if n > 0 {
      ZeroFilledUpToValue(counts, sources, n - 1, k);
    }
  }

  /**
   * The reference dict holds exactly the expected sources; an observed
   * expected source keeps its observed count and an unobserved one gets 0.
   */
  lemma ReferenceReadsAt(observed: Dict<real>, expected: seq<string>, k: string)
    requires Wf(observed)
    ensures k in ReferenceReads(observed, expected).vals <==> k in expected
    ensures k in expected && k in observed.vals ==> ReferenceReads(observed, expected).vals[k] == observed.vals[k]
    ensures k in expected && k !in observed.vals ==> ReferenceReads(observed, expected).vals[k] == 0.0
  {
    var n := |observed.keys|;
    assert observed.keys[..n] == observed.keys;
    assert expected[..|expected|] == expected;
    var observedPart := ObservedReferenceUpTo(observed, expected, n);
    ObservedReferenceUpToHas(observed, expected, n, k);
    ObservedReferenceUpToValue(observed, expected, n, k);
    ZeroFilledUpToHas(observedPart, expected, |expected|, k);
    ZeroFilledUpToValue(observedPart, expected, |expected|, k);
  }

  /** The non-reference dict holds exactly the observed sources that are not expected, with their counts. */
  lemma NonreferenceReadsAt(observed: Dict<real>, expected: seq<string>, k: string)
    requires Wf(observed)
    ensures k in NonreferenceReads(observed, expected).vals <==> k in observed.vals && k !in expected
    ensures k in observed.vals && k !in expected ==> NonreferenceReads(observed, expected).vals[k] == observed.vals[k]
  {
    var n := |observed.keys|;
    assert observed.keys[..n] == observed.keys;
    NonreferenceUpToHas(observed, expected, n, k);
    NonreferenceUpToValue(observed, expected, n, k);
  }

  /**
   * The two dicts share no key, every observed source lands in one of them,
   * and the two together give back every observed count.
   */
  lemma PartitionCovers(observed: Dict<real>, expected: seq<string>, k: string)
    requires Wf(observed)
    ensures !(k in ReferenceReads(observed, expected).vals && k in NonreferenceReads(observed, expected).vals)
    ensures k in observed.vals ==>
      k in ReferenceReads(observed, expected).vals || k in NonreferenceReads(observed, expected).vals
    ensures GetOr(ReferenceReads(observed, expected), k, 0.0) + GetOr(NonreferenceReads(observed, expected), k, 0.0)
         == GetOr(observed, k, 0.0)
  {
    ReferenceReadsAt(observed, expected, k);
    NonreferenceReadsAt(observed, expected, k);
  }
}
