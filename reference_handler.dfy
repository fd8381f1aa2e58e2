/**
 * referenceHandler/__init__.py: the standard reference record, the set of
 * read sources an analysis method expects, and the renaming of count dicts
 * to standard or print identifiers.
 */
module ReferenceHandler {
  import opened PyDict
  import opened Outcomes

  /** One entry of `sortings`: an order type ("ascending"/"descending") and the items in that order. */
  datatype Sorting = Sorting(orderType: string, orderedItems: seq<string>)

  /** The fields of a `StandardReference` object once `processRawData` has set them. */
  datatype StandardReference = StandardReference(
    nameLookup: Dict<string>,
    printNames: Dict<string>,
    itemIDs: seq<string>,
    sortings: Dict<Sorting>,
    expectedValues: Dict<Dict<real>>,
    analysisMethods: seq<string>)
  {
    /** Every dict is a real dict, and the analysis methods are the keys of `expectedValues`. */
    ghost predicate Valid() {
      && Wf(nameLookup) && Wf(printNames) && Wf(sortings) && Wf(expectedValues)
      && (forall m :: m in expectedValues.vals ==> Wf(expectedValues.vals[m]))
      && analysisMethods == expectedValues.keys
    }
  }

  /** The decoded reference JSON: each field the record needs, or `None` when the key is absent. */
  datatype RawReferenceData = RawReferenceData(
    nameLookup: Option<Dict<string>>,
    printNames: Option<Dict<string>>,
    itemIDs: Option<seq<string>>,
    sortings: Option<Dict<Sorting>>,
    expectedValues: Option<Dict<Dict<real>>>)
  {
    /** Every dict that is present is a real dict. */
    ghost predicate WellFormed() {
      && (nameLookup.Some? ==> Wf(nameLookup.value))
      && (printNames.Some? ==> Wf(printNames.value))
      && (sortings.Some? ==> Wf(sortings.value))
      && (expectedValues.Some? ==>
            && Wf(expectedValues.value)
            && forall m :: m in expectedValues.value.vals ==> Wf(expectedValues.value.vals[m]))
    }
  }

  /**
   * `processRawData`: the fields are read in the order nameLookup,
   * printNames, itemIDs, sortings, expectedValues, and the first absent one
   * raises KeyError; `analysisMethods` is the key list of `expectedValues`.
   */
  function ProcessRawData(rawData: RawReferenceData): (r: Result<StandardReference>)
    ensures r.Err? <==>
      rawData.nameLookup.None? || rawData.printNames.None? || rawData.itemIDs.None? ||
      rawData.sortings.None? || rawData.expectedValues.None?
    ensures r.Err? ==> r.error == KeyError
    ensures r.Ok? ==>
      && r.value.nameLookup == rawData.nameLookup.value
      && r.value.printNames == rawData.printNames.value
      && r.value.itemIDs == rawData.itemIDs.value
      && r.value.sortings == rawData.sortings.value
      && r.value.expectedValues == rawData.expectedValues.value
      && r.value.analysisMethods == rawData.expectedValues.value.keys
    ensures r.Ok? && rawData.WellFormed() ==> r.value.Valid()
  {
    if rawData.nameLookup.None? then Err(KeyError)
    else if rawData.printNames.None? then Err(KeyError)
    else if rawData.itemIDs.None? then Err(KeyError)
    else if rawData.sortings.None? then Err(KeyError)
    else if rawData.expectedValues.None? then Err(KeyError)
    else
      var expectedValues := rawData.expectedValues.value;
      Ok(StandardReference(rawData.nameLookup.value, rawData.printNames.value, rawData.itemIDs.value,
                           rawData.sortings.value, expectedValues, expectedValues.keys))
  }

  /** `expectedValues[analysisMethod]`, which is a real dict in a valid reference. */
  function ExpectedValuesOf(standardReference: StandardReference, analysisMethod: string): (ev: Dict<real>)
    requires analysisMethod in standardReference.expectedValues.vals
    ensures standardReference.Valid() ==> Wf(ev)
  {
    standardReference.expectedValues.vals[analysisMethod]
  }

  /**
   * `determineExpectedReadSources`: KeyError for an unknown analysis method,
   * otherwise exactly the items of that method with a truthy expected value.
   */
  method DetermineExpectedReadSources(analysisMethod: string, standardReference: StandardReference)
    returns (r: Result<set<string>>)
    requires standardReference.Valid()
    ensures r.Err? <==> analysisMethod !in standardReference.analysisMethods
    ensures r.Err? ==> r.error == KeyError
    ensures r.Ok? ==>
      && analysisMethod in standardReference.expectedValues.vals
      && r.value == TruthyKeys(ExpectedValuesOf(standardReference, analysisMethod))
  {
    if analysisMethod !in standardReference.analysisMethods {
      return Err(KeyError);
    }
    var ev := ExpectedValuesOf(standardReference, analysisMethod);
    var sampleSpace: set<string> := {};
    var i := 0;
    while i < |ev.keys|
      invariant 0 <= i <= |ev.keys|
      invariant forall k :: k in sampleSpace <==> k in ev.keys[..i] && k in TruthyKeys(ev)
    {
      var sampleItem := ev.keys[i];
      assert ev.keys[..i + 1] == ev.keys[..i] + [sampleItem];
      if ev.vals[sampleItem] != 0.0 {
        // The source raises ValueError for an item met twice; a dict lists each key once.
        assert sampleItem !in ev.keys[..i];
        assert sampleItem !in sampleSpace;
        sampleSpace := sampleSpace + {sampleItem};
      }
      i := i + 1;
    }
    assert ev.keys[..i] == ev.keys;
    r := Ok(sampleSpace);
  }

  /** One step of the conversion loops: `v` is added to the total of `newName`, which starts at 0. */
  function Accumulate(counts: Dict<real>, newName: string, v: real): (r: Dict<real>)
    ensures Wf(counts) ==> Wf(r)
  {
    Put(counts, newName, GetOr(counts, newName, 0.0) + v)
  }

  /** The converted dict after the loop has visited the first `n` keys of `d`. */
  function RenamedUpTo(d: Dict<real>, names: Dict<string>, n: nat): Dict<real>
    requires Wf(d) && n <= |d.keys|
  {
    if n == 0 then Empty()
    else
      var rawName := d.keys[n - 1];
      Accumulate(RenamedUpTo(d, names, n - 1), NameFor(names, rawName), d.vals[rawName])
  }

  /**
   * The dict the conversion loops build: every count is added to the total
   * of its new name.  A new name goes last, so the names keep the order of
   * their first occurrence.
   */
  function Renamed(d: Dict<real>, names: Dict<string>): (r: Dict<real>)
    requires Wf(d)
    ensures Wf(r)
  {
    RenamedUpToWf(d, names, |d.keys|);
    RenamedUpTo(d, names, |d.keys|)
  }

  lemma {:induction false} RenamedUpToWf(d: Dict<real>, names: Dict<string>, n: nat)
    requires Wf(d) && n <= |d.keys|
    ensures Wf(RenamedUpTo(d, names, n))
  {
    if n > 0 {
      var rawName := d.keys[n - 1];
      RenamedUpToWf(d, names, n - 1);
      assert RenamedUpTo(d, names, n) == Accumulate(RenamedUpTo(d, names, n - 1), NameFor(names, rawName), d.vals[rawName]);
    }
  }

  /** The counts among the first `n` keys of `d` whose new name is `k`, added up. */
  function CountsNamedUpTo(d: Dict<real>, names: Dict<string>, k: string, n: nat): real
    requires Wf(d) && n <= |d.keys|
  {
    if n == 0 then 0.0
    else
      var rawName := d.keys[n - 1];
      CountsNamedUpTo(d, names, k, n - 1) + (if NameFor(names, rawName) == k then d.vals[rawName] else 0.0)
  }

  /** For a name already present, `+=` performs `Accumulate`. */
  lemma AccumulateExisting(counts: Dict<real>, newName: string, v: real)
    requires newName in counts.vals
    ensures Put(counts, newName, counts.vals[newName] + v) == Accumulate(counts, newName, v)
  {
  }

  /** For a name not yet present, the source's two statements (create with 0, then `+=`) perform `Accumulate`. */
  lemma AccumulateNew(counts: Dict<real>, newName: string, v: real)
    requires newName !in counts.vals
    ensures var zeroed := Put(counts, newName, 0.0);
      Put(zeroed, newName, zeroed.vals[newName] + v) == Accumulate(counts, newName, v)
  {
    var zeroed := Put(counts, newName, 0.0);
    assert zeroed.vals[newName := 0.0 + v] == counts.vals[newName := v];
  }

  /** The source's two statements per name: create the total with 0 when missing, then `+=` the count. */
  method AddCount(convertedDict: Dict<real>, newName: string, count: real) returns (updated: Dict<real>)
    ensures updated == Accumulate(convertedDict, newName, count)
  {
    updated := convertedDict;
    if newName !in updated.vals {
      AccumulateNew(updated, newName, count);
      updated := Put(updated, newName, 0.0);
    } else {
      AccumulateExisting(updated, newName, count);
    }
    updated := Put(updated, newName, updated.vals[newName] + count);
  }

  /** The body shared by `convertKeysToStandardIdentifiers` and `convertKeysToPrintIdentifiers`. */
  method ConvertKeys(readCountDict: Dict<real>, names: Dict<string>) returns (convertedDict: Dict<real>)
    requires Wf(readCountDict)
    ensures convertedDict == Renamed(readCountDict, names)
  {
    convertedDict := Empty();
    var i := 0;
    while i < |readCountDict.keys|
      invariant 0 <= i <= |readCountDict.keys|
      invariant convertedDict == RenamedUpTo(readCountDict, names, i)
    {
      var rawName := readCountDict.keys[i];
      var newName;
      if rawName in names.vals {
        newName := names.vals[rawName];
      } else {
        newName := rawName;
      }
      convertedDict := AddCount(convertedDict, newName, readCountDict.vals[rawName]);
      i := i + 1;
    }
  }

  /** `convertKeysToStandardIdentifiers`: renaming through `nameLookup`. */
  method ConvertKeysToStandardIdentifiers(readCountDict: Dict<real>, standardReference: StandardReference)
    returns (convertedDict: Dict<real>)
    requires Wf(readCountDict)
    ensures convertedDict == Renamed(readCountDict, standardReference.nameLookup)
  {
    convertedDict := ConvertKeys(readCountDict, standardReference.nameLookup);
  }

  /** `convertKeysToPrintIdentifiers`: renaming through `printNames`. */
  method ConvertKeysToPrintIdentifiers(readCountDict: Dict<real>, standardReference: StandardReference)
    returns (convertedDict: Dict<real>)
    requires Wf(readCountDict)
    ensures convertedDict == Renamed(readCountDict, standardReference.printNames)
  {
    convertedDict := ConvertKeys(readCountDict, standardReference.printNames);
  }

  lemma {:induction false} RenamedUpToKeys(d: Dict<real>, names: Dict<string>, n: nat, k: string)
    requires Wf(d) && n <= |d.keys|
    ensures k in RenamedUpTo(d, names, n).vals <==> exists i :: 0 <= i < n && NameFor(names, d.keys[i]) == k
  {
    if n > 0 {
      RenamedUpToKeys(d, names, n - 1, k);
      if NameFor(names, d.keys[n - 1]) != k && k in RenamedUpTo(d, names, n).vals {
        var i :| 0 <= i < n - 1 && NameFor(names, d.keys[i]) == k;
      }
    }
  }

  /**
   * The renamed keys are the image of the input keys: a name in `names` is
   * replaced by its lookup value, any other name is kept as it is.
   */
  lemma RenamedKeys(d: Dict<real>, names: Dict<string>, k: string)
    requires Wf(d)
    ensures k in Renamed(d, names).vals <==> exists rawName :: rawName in d.vals && NameFor(names, rawName) == k
  {
    RenamedUpToKeys(d, names, |d.keys|, k);
    if k in Renamed(d, names).vals {
      var i :| 0 <= i < |d.keys| && NameFor(names, d.keys[i]) == k;
      assert d.keys[i] in d.vals;
    }
    if exists rawName :: rawName in d.vals && NameFor(names, rawName) == k {
      var rawName :| rawName in d.vals && NameFor(names, rawName) == k;
      var i :| 0 <= i < |d.keys| && d.keys[i] == rawName;
    }
  }

  /** Adding `v` to the total of `newName` adds `v` to that total and changes no other. */
  lemma AccumulateAt(counts: Dict<real>, newName: string, v: real, k: string)
    ensures GetOr(Accumulate(counts, newName, v), k, 0.0) == GetOr(counts, k, 0.0) + (if k == newName then v else 0.0)
  {
  }

  lemma {:induction false} RenamedUpToValue(d: Dict<real>, names: Dict<string>, k: string, n: nat)
    requires Wf(d) && n <= |d.keys|
    ensures GetOr(RenamedUpTo(d, names, n), k, 0.0) == CountsNamedUpTo(d, names, k, n)
  {
    if n > 0 {
      var rawName := d.keys[n - 1];
      RenamedUpToValue(d, names, k, n - 1);
      AccumulateAt(RenamedUpTo(d, names, n - 1), NameFor(names, rawName), d.vals[rawName], k);
    }
  }

  /** Counts whose names map to the same name are added up: each name's total is the sum of their counts. */
  lemma RenamedValue(d: Dict<real>, names: Dict<string>, k: string)
    requires Wf(d)
    ensures GetOr(Renamed(d, names), k, 0.0) == CountsNamedUpTo(d, names, k, |d.keys|)
  {
    RenamedUpToValue(d, names, k, |d.keys|);
  }

  /** Adding `v` to a name's total adds `v` to `sumDictionary`, unless the name is "". */
  lemma AccumulateSum(counts: Dict<real>, newName: string, v: real)
    requires Wf(counts)
    ensures Sum(Accumulate(counts, newName, v)) == Sum(counts) + (if newName != "" then v else 0.0)
  {
    SumPut(counts, newName, GetOr(counts, newName, 0.0) + v);
  }

  lemma {:induction false} RenamedUpToTotal(d: Dict<real>, names: Dict<string>, n: nat)
    requires Wf(d) && n <= |d.keys|
    requires forall k :: k in d.vals ==> (k == "" <==> NameFor(names, k) == "")
    ensures Sum(RenamedUpTo(d, names, n)) == SumUpTo(d, n)
  {
    if n > 0 {
      var rawName := d.keys[n - 1];
      var prior := RenamedUpTo(d, names, n - 1);
      var newName := NameFor(names, rawName);
      RenamedUpToTotal(d, names, n - 1);
      RenamedUpToWf(d, names, n - 1);
      AccumulateSum(prior, newName, d.vals[rawName]);
      assert rawName in d.vals;
    }
  }

  /**
   * Renaming conserves the total that `sumDictionary` reports, provided it
   * maps exactly the empty name to the empty name (the sum skips that key).
   */
  lemma RenamedTotal(d: Dict<real>, names: Dict<string>)
    requires Wf(d)
    requires forall k :: k in d.vals ==> (k == "" <==> NameFor(names, k) == "")
    ensures Sum(Renamed(d, names)) == Sum(d)
  {
    RenamedUpToTotal(d, names, |d.keys|);
  }

  /** A name not yet present is added last, with `v` as its total. */
  lemma AccumulateFresh(counts: Dict<real>, newName: string, v: real)
    requires newName !in counts.vals
    ensures Accumulate(counts, newName, v) == Put(counts, newName, v)
  {
    assert GetOr(counts, newName, 0.0) + v == v;
  }

  lemma {:induction false} RenamedUpToUnchanged(d: Dict<real>, names: Dict<string>, n: nat)
    requires Wf(d) && n <= |d.keys|
    requires forall i :: 0 <= i < n ==> d.keys[i] !in names.vals
    ensures RenamedUpTo(d, names, n) == Prefix(d, n)
  {
    if n > 0 {
      var rawName := d.keys[n - 1];
      var previous := Prefix(d, n - 1);
      PrefixStep(d, n);
      AccumulateFresh(previous, rawName, d.vals[rawName]);
      assert NameFor(names, rawName) == rawName;
      RenamedUpToUnchanged(d, names, n - 1);
    }
  }

  /** When no key of `d` has an entry in `names`, the conversion gives back `d` itself, in the same order. */
  lemma RenamedUnchanged(d: Dict<real>, names: Dict<string>)
    requires Wf(d)
    requires forall k :: k in d.vals ==> k !in names.vals
    ensures Renamed(d, names) == d
  {
    assert forall i :: 0 <= i < |d.keys| ==> d.keys[i] in d.vals;
    RenamedUpToUnchanged(d, names, |d.keys|);
    PrefixAll(d);
  }
}
