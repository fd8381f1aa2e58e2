/**
 * plotting/radarMaker.py: the data side of a radar plot.  Drawing is left
 * out; what is kept is the order in which the variables go round the plot,
 * the samples and values that are drawn, the tick labels, the title, and
 * every error the function raises before it draws.
 */
module RadarMaker {
  import opened Outcomes
  import opened PyDict

  /** `orderedList[::-1]`. */
  function Reverse(s: seq<string>): seq<string> {
    seq(|s|, i requires 0 <= i < |s| => s[|s| - 1 - i])
  }

  /**
   * The top-down list after the loop has placed the first `n` items of the
   * reversed list: item 0 goes at the end, item 1 at the front, item 2 at
   * the end, and so on.
   */
  function PlacedUpTo(r: seq<string>, n: nat): seq<string>
    requires n <= |r|
  {
    if n == 0 then []
    else if (n - 1) % 2 == 0 then PlacedUpTo(r, n - 1) + [r[n - 1]]
    else [r[n - 1]] + PlacedUpTo(r, n - 1)
  }

  /** What `makeTopDownList` returns. */
  function TopDown(orderedList: seq<string>): seq<string> {
    PlacedUpTo(Reverse(orderedList), |orderedList|)
  }

  /** `makeTopDownList`: pops the reversed list from the front, alternately appending and prepending. */
  method MakeTopDownList(orderedList: seq<string>) returns (topDownList: seq<string>)
    ensures topDownList == TopDown(orderedList)
  {
    var reverseOrderedList := Reverse(orderedList);
    ghost var reversed := reverseOrderedList;
    ghost var placed := 0;
    topDownList := [];
    var addToEnd := true;
    while reverseOrderedList != []
      invariant 0 <= placed <= |reversed|
      invariant reverseOrderedList == reversed[placed..]
      invariant topDownList == PlacedUpTo(reversed, placed)
      invariant addToEnd == (placed % 2 == 0)
      decreases |reverseOrderedList|
    {
      var itemToAdd := reverseOrderedList[0];
      reverseOrderedList := reverseOrderedList[1..];
      if addToEnd {
        topDownList := topDownList + [itemToAdd];
      } else {
        topDownList := [itemToAdd] + topDownList;
      }
      addToEnd := !addToEnd;
      placed := placed + 1;
    }
  }

  /** The items at even positions, in order. */
  function Evens(s: seq<string>): seq<string> {
    seq((|s| + 1) / 2, i requires 0 <= i < (|s| + 1) / 2 => s[2 * i])
  }

  /** The items at odd positions, in order. */
  function Odds(s: seq<string>): seq<string> {
    seq(|s| / 2, i requires 0 <= i < |s| / 2 => s[2 * i + 1])
  }

  /** Appending one item extends the even positions when the length is even, the odd ones otherwise. */
  lemma EvensOddsStep(p: seq<string>, x: string)
    ensures |p| % 2 == 0 ==> Evens(p + [x]) == Evens(p) + [x] && Odds(p + [x]) == Odds(p)
    ensures |p| % 2 == 1 ==> Evens(p + [x]) == Evens(p) && Odds(p + [x]) == Odds(p) + [x]
  {
    var q := p + [x];
    if |p| % 2 == 0 {
      assert (|q| + 1) / 2 == (|p| + 1) / 2 + 1 && |q| / 2 == |p| / 2;
    } else {
      assert (|q| + 1) / 2 == (|p| + 1) / 2 && |q| / 2 == |p| / 2 + 1;
    }
  }

  lemma ReverseSnoc(s: seq<string>, x: string)
    ensures Reverse(s + [x]) == [x] + Reverse(s)
  {
  }

  /** Placing alternately at the end and the front gives the odd-position items backwards, then the even-position ones. */
  lemma {:induction false} PlacedUpToInterleaves(r: seq<string>, n: nat)
    requires n <= |r|
    ensures PlacedUpTo(r, n) == Reverse(Odds(r[..n])) + Evens(r[..n])
  {
    if n > 0 {
      PlacedUpToInterleaves(r, n - 1);
      var p := r[..n - 1];
      assert r[..n] == p + [r[n - 1]];
      EvensOddsStep(p, r[n - 1]);
      ReverseSnoc(Odds(p), r[n - 1]);
    }
  }

  /**
   * The top-down list, reading the rank order from its end: every second
   * item backwards, then the others; the last-ranked item sits at position
   * `|orderedList| / 2`.
   */
  lemma TopDownShape(orderedList: seq<string>)
    ensures TopDown(orderedList) == Reverse(Odds(Reverse(orderedList))) + Evens(Reverse(orderedList))
    ensures orderedList != [] ==> TopDown(orderedList)[|orderedList| / 2] == orderedList[|orderedList| - 1]
  {
    var r := Reverse(orderedList);
    PlacedUpToInterleaves(r, |r|);
    assert r[..|r|] == r;
  }

  /** One placing step adds exactly the placed item. */
  lemma PlacedStep(r: seq<string>, n: nat)
    requires 0 < n <= |r|
    ensures multiset(PlacedUpTo(r, n)) == multiset(PlacedUpTo(r, n - 1)) + multiset{r[n - 1]}
    ensures multiset(r[..n]) == multiset(r[..n - 1]) + multiset{r[n - 1]}
  {
    assert r[..n] == r[..n - 1] + [r[n - 1]];
  }

  lemma {:induction false} PlacedUpToMultiset(r: seq<string>, n: nat)
    requires n <= |r|
    ensures multiset(PlacedUpTo(r, n)) == multiset(r[..n])
  {
    if n > 0 {
      PlacedUpToMultiset(r, n - 1);
      PlacedStep(r, n);
    }
  }

  lemma {:induction false} ReverseMultiset(s: seq<string>)
    ensures multiset(Reverse(s)) == multiset(s)
  {
    if s != [] {
      var last := |s| - 1;
      ReverseMultiset(s[..last]);
      assert Reverse(s) == [s[last]] + Reverse(s[..last]);
      assert s == s[..last] + [s[last]];
    }
  }

  /** The top-down list is a rearrangement of the rank order: same items, same number of times. */
  lemma TopDownPermutation(orderedList: seq<string>)
    ensures multiset(TopDown(orderedList)) == multiset(orderedList)
    ensures |TopDown(orderedList)| == |orderedList|
  {
    var r := Reverse(orderedList);
    PlacedUpToMultiset(r, |r|);
    assert r[..|r|] == r;
    ReverseMultiset(orderedList);
  }

  /** The variables of the first sample. */
  function FirstVariables(data: Dict<Dict<real>>): set<string>
    requires Wf(data) && data.keys != []
  {
    data.vals[data.keys[0]].vals.Keys
  }

  /** Every sample has exactly the first sample's variables. */
  predicate SameVariables(data: Dict<Dict<real>>)
    requires Wf(data) && data.keys != []
  {
    forall sample :: sample in data.vals ==> data.vals[sample].vals.Keys == FirstVariables(data)
  }

  /** What `getSamplesAndVariables` returns or raises. */
  function SamplesAndVariables(data: Dict<Dict<real>>): Result<(seq<string>, set<string>)>
    requires Wf(data)
  {
    if data.keys == [] then Err(IndexError)
    else if !SameVariables(data) then Err(ValueError)
    else Ok((data.keys, FirstVariables(data)))
  }

  /** `getSamplesAndVariables`: IndexError on no samples, ValueError when the samples' variables differ. */
  method GetSamplesAndVariables(data: Dict<Dict<real>>) returns (r: Result<(seq<string>, set<string>)>)
    requires Wf(data)
    ensures r == SamplesAndVariables(data)
  {
    var samples := data.keys;
    if samples == [] {
      return Err(IndexError);
    }
    var variables := data.vals[samples[0]].vals.Keys;
    var i := 0;
    while i < |samples|
      invariant 0 <= i <= |samples|
      invariant forall j :: 0 <= j < i ==> data.vals[samples[j]].vals.Keys == variables
    {
      var sample := samples[i];
      if data.vals[sample].vals.Keys != variables {
        return Err(ValueError);
      }
      i := i + 1;
    }
    return Ok((samples, variables));
  }

  /** The rank-order check of `makeRadarPlot`: every ranked variable must be present in the data. */
  method CheckRankOrder(dataRankOrder: seq<string>, variables: set<string>) returns (ok: bool)
    ensures ok <==> forall variable :: variable in dataRankOrder ==> variable in variables
  {
    var i := 0;
    while i < |dataRankOrder|
      invariant 0 <= i <= |dataRankOrder|
      invariant forall j :: 0 <= j < i ==> dataRankOrder[j] in variables
    {
      if dataRankOrder[i] !in variables {
        return false;
      }
      i := i + 1;
    }
    return true;
  }

  /** The number of entries in `colorList`: at most this many samples can be drawn. */
  const ColorCount := 4

  /** The `sampleRestriction` filter: the samples in `allowed`, in their order. */
  function Kept(samples: seq<string>, allowed: seq<string>): seq<string> {
    if samples == [] then []
    else
      var last := samples[|samples| - 1];
      Kept(samples[..|samples| - 1], allowed) + (if last in allowed then [last] else [])
  }

  /** The displayed samples: all of them unless there is a restriction. */
  function Displayed(samples: seq<string>, sampleRestriction: Option<seq<string>>): seq<string> {
    if sampleRestriction.None? then samples else Kept(samples, sampleRestriction.value)
  }

  /** A sample's values for the variables in display order. */
  function ValuesOf(sampleData: Dict<real>, variables: seq<string>): seq<real> {
    seq(|variables|, j requires 0 <= j < |variables| => GetOr(sampleData, variables[j], 0.0))
  }

  /** A value list closed by repeating its first value (`values.append(values[0])`). */
  function Closed(values: seq<real>): seq<real> {
    if values == [] then [] else values + [values[0]]
  }

  /** The closed value lists of the displayed samples, one per sample, in order. */
  function SeriesOf(data: Dict<Dict<real>>, shown: seq<string>, variables: seq<string>): seq<seq<real>> {
    if shown == [] then []
    else
      var last := shown[|shown| - 1];
      SeriesOf(data, shown[..|shown| - 1], variables) + [Closed(ValuesOf(GetOr(data, last, Empty()), variables))]
  }

  /** The values loop for one sample. */
  method SampleValues(sampleData: Dict<real>, displayOrderedVariables: seq<string>) returns (values: seq<real>)
    requires forall variable :: variable in displayOrderedVariables ==> variable in sampleData.vals
    ensures values == ValuesOf(sampleData, displayOrderedVariables)
  {
    values := [];
    var j := 0;
    while j < |displayOrderedVariables|
      invariant 0 <= j <= |displayOrderedVariables|
      invariant values == ValuesOf(sampleData, displayOrderedVariables[..j])
    {
      var variable := displayOrderedVariables[j];
      assert displayOrderedVariables[..j + 1] == displayOrderedVariables[..j] + [variable];
      values := values + [sampleData.vals[variable]];
      j := j + 1;
    }
    assert displayOrderedVariables[..j] == displayOrderedVariables;
  }

  /**
   * The sample loop of `makeRadarPlot`: the displayed samples and their
   * closed value lists.  Closing an empty value list is an IndexError, and
   * plotting a closed list against the `variableCount + 1` angles is a
   * ValueError when the lengths differ.
   */
  method PlotSamples(data: Dict<Dict<real>>, sampleRestriction: Option<seq<string>>, displayOrderedVariables: seq<string>,
                     variableCount: nat)
    returns (r: Result<(seq<string>, seq<seq<real>>)>)
    requires Wf(data)
    requires forall sample :: sample in data.vals ==>
      forall variable :: variable in displayOrderedVariables ==> variable in data.vals[sample].vals
    ensures r.Err? <==>
      && Displayed(data.keys, sampleRestriction) != []
      && (displayOrderedVariables == [] || |displayOrderedVariables| != variableCount)
    ensures r.Err? ==> r.error == (if displayOrderedVariables == [] then IndexError else ValueError)
    ensures r.Ok? ==> r.value == (Displayed(data.keys, sampleRestriction),
      SeriesOf(data, Displayed(data.keys, sampleRestriction), displayOrderedVariables))
  {
    var samples := data.keys;
    var displayedSamples := [];
    var series := [];
    var i := 0;
    while i < |samples|
      invariant 0 <= i <= |samples|
      invariant displayedSamples == Displayed(samples[..i], sampleRestriction)
      invariant series == SeriesOf(data, displayedSamples, displayOrderedVariables)
      invariant displayedSamples != [] ==>
        displayOrderedVariables != [] && |displayOrderedVariables| == variableCount
    {
      var sample := samples[i];
      DisplayedStep(samples, sampleRestriction, i);
      if sampleRestriction.None? || sample in sampleRestriction.value {
        assert GetOr(data, sample, Empty()) == data.vals[sample];
        var values := SampleValues(data.vals[sample], displayOrderedVariables);
        if values == [] {
          DisplayedPrefix(samples, sampleRestriction, i + 1);
          return Err(IndexError);
        }
        values := values + [values[0]];
        if |values| != variableCount + 1 {
          DisplayedPrefix(samples, sampleRestriction, i + 1);
          return Err(ValueError);
        }
        SeriesStep(data, displayedSamples, sample, displayOrderedVariables);
        displayedSamples := displayedSamples + [sample];
        series := series + [values];
      }
      i := i + 1;
    }
    assert samples[..i] == samples;
    return Ok((displayedSamples, series));
  }

  lemma DisplayedStep(samples: seq<string>, sampleRestriction: Option<seq<string>>, i: nat)
    requires i < |samples|
    ensures Displayed(samples[..i + 1], sampleRestriction) == Displayed(samples[..i], sampleRestriction) +
      (if sampleRestriction.None? || samples[i] in sampleRestriction.value then [samples[i]] else [])
  {
    assert samples[..i + 1][..i] == samples[..i];
  }

  lemma SeriesStep(data: Dict<Dict<real>>, shown: seq<string>, sample: string, variables: seq<string>)
    ensures SeriesOf(data, shown + [sample], variables)
         == SeriesOf(data, shown, variables) + [Closed(ValuesOf(GetOr(data, sample, Empty()), variables))]
  {
    assert (shown + [sample])[..|shown|] == shown;
  }

  /** The samples kept from a prefix are a prefix of those kept from the whole list. */
  lemma {:induction false} KeptPrefix(samples: seq<string>, allowed: seq<string>, i: nat)
    requires i <= |samples|
    ensures Kept(samples[..i], allowed) <= Kept(samples, allowed)
  {
    if i < |samples| {
      var init := samples[..|samples| - 1];
      KeptPrefix(init, allowed, i);
      assert init[..i] == samples[..i];
    } else {
      assert samples[..i] == samples;
    }
  }

  lemma DisplayedPrefix(samples: seq<string>, sampleRestriction: Option<seq<string>>, i: nat)
    requires i <= |samples|
    ensures Displayed(samples[..i], sampleRestriction) <= Displayed(samples, sampleRestriction)
  {
    if sampleRestriction.Some? {
      KeptPrefix(samples, sampleRestriction.value, i);
    }
  }

  /** The `xTickList` of `makeRadarPlot`: the variables' print names when print names are given. */
  function TickLabels(displayOrderedVariables: seq<string>, printNames: Option<Dict<string>>): Result<seq<string>> {
    if !Truthy(printNames) then Ok(displayOrderedVariables)
    else if exists name :: name in displayOrderedVariables && name !in printNames.value.vals then Err(KeyError)
    else Ok(seq(|displayOrderedVariables|, i requires 0 <= i < |displayOrderedVariables| =>
      printNames.value.vals[displayOrderedVariables[i]]))
  }

  /** The tick-label loop: a variable without a print name is a KeyError. */
  method XTickLabels(displayOrderedVariables: seq<string>, printNames: Option<Dict<string>>)
    returns (r: Result<seq<string>>)
    ensures r == TickLabels(displayOrderedVariables, printNames)
  {
    if !Truthy(printNames) {
      return Ok(displayOrderedVariables);
    }
    var names := printNames.value;
    var xTickList := [];
    var i := 0;
    while i < |displayOrderedVariables|
      invariant 0 <= i <= |displayOrderedVariables|
      invariant |xTickList| == i
      invariant forall j :: 0 <= j < i ==>
        displayOrderedVariables[j] in names.vals && xTickList[j] == names.vals[displayOrderedVariables[j]]
    {
      var name := displayOrderedVariables[i];
      if name !in names.vals {
        return Err(KeyError);
      }
      xTickList := xTickList + [names.vals[name]];
      i := i + 1;
    }
    assert forall name :: name in displayOrderedVariables ==> name in names.vals;
    assert xTickList == seq(|displayOrderedVariables|, j requires 0 <= j < |displayOrderedVariables| =>
      names.vals[displayOrderedVariables[j]]);
    return Ok(xTickList);
  }

  /** The title of a plot with exactly one displayed sample; with more there is a legend instead. */
  function Title(displayedSamples: seq<string>, titleAppend: string): Option<string> {
    if |displayedSamples| != 1 then None
    else if titleAppend != "" then Some(displayedSamples[0] + " " + titleAppend)
    else Some(displayedSamples[0])
  }

  /** Everything `makeRadarPlot` works out before it draws. */
  datatype RadarLayout = RadarLayout(
    samples: seq<string>,
    variables: set<string>,
    displayOrderedVariables: seq<string>,
    displayedSamples: seq<string>,
    series: seq<seq<real>>,
    xTickLabels: seq<string>,
    title: Option<string>)

  /**
   * What `makeRadarPlot` computes or raises, check by check in the order
   * the function makes them: the samples and variables; the rank order;
   * `getListOfAngles(0)`, an IndexError when there are no variables; the
   * number of samples against the colours; the values of each displayed
   * sample, which must be as many as the variables for `plot` to pair them
   * with the angles; and the print names of the tick labels.
   */
  function RadarPlotLayout(data: Dict<Dict<real>>, dataRankOrder: seq<string>,
                                 sampleRestriction: Option<seq<string>>, titleAppend: string,
                                 printNames: Option<Dict<string>>): Result<RadarLayout>
    requires Wf(data)
  {
    match SamplesAndVariables(data)
    case Err(e) => Err(e)
    case Ok((samples, variables)) =>
      var display := TopDown(dataRankOrder);
      var shown := Displayed(samples, sampleRestriction);
      if exists variable :: variable in dataRankOrder && variable !in variables then Err(ValueError)
      else if variables == {} then Err(IndexError)
      else if |samples| > ColorCount then Err(ValueError)
      else if display == [] && shown != [] then Err(IndexError)
      else if |display| != |variables| && shown != [] then Err(ValueError)
      else match TickLabels(display, printNames)
        case Err(e) => Err(e)
        case Ok(ticks) =>
          Ok(RadarLayout(samples, variables, display, shown, SeriesOf(data, shown, display), ticks, Title(shown, titleAppend)))
  }

  /** `makeRadarPlot` up to the drawing. */
  method MakeRadarPlot(data: Dict<Dict<real>>, dataRankOrder: seq<string>,
                       sampleRestriction: Option<seq<string>>, titleAppend: string,
                       printNames: Option<Dict<string>>) returns (r: Result<RadarLayout>)
    requires Wf(data)
    ensures r == RadarPlotLayout(data, dataRankOrder, sampleRestriction, titleAppend, printNames)
  {
    var samplesAndVariables := GetSamplesAndVariables(data);
    if samplesAndVariables.Err? {
      return Err(samplesAndVariables.error);
    }
    var samples := samplesAndVariables.value.0;
    var variables := samplesAndVariables.value.1;
    var rankOrderPresent := CheckRankOrder(dataRankOrder, variables);
    if !rankOrderPresent {
      return Err(ValueError);
    }
    var displayOrderedVariables := MakeTopDownList(dataRankOrder);
    if |variables| == 0 {
      return Err(IndexError);
    }
    if |samples| > ColorCount {
      return Err(ValueError);
    }
    TopDownPermutation(dataRankOrder);
    assert forall variable :: variable in displayOrderedVariables ==> variable in multiset(dataRankOrder);
    var plotted := PlotSamples(data, sampleRestriction, displayOrderedVariables, |variables|);
    if plotted.Err? {
      return Err(plotted.error);
    }
    var xTickList := XTickLabels(displayOrderedVariables, printNames);
    if xTickList.Err? {
      return Err(xTickList.error);
    }
    var displayedSamples := plotted.value.0;
    RadarPlotLayoutOk(data, dataRankOrder, sampleRestriction, titleAppend, printNames, xTickList.value);
    return Ok(RadarLayout(samples, variables, displayOrderedVariables, displayedSamples, plotted.value.1,
                          xTickList.value, Title(displayedSamples, titleAppend)));
  }

  /** When every check passes, the layout is made of the samples, the top-down order, the displayed samples' values and the tick labels. */
  lemma RadarPlotLayoutOk(data: Dict<Dict<real>>, dataRankOrder: seq<string>,
                          sampleRestriction: Option<seq<string>>, titleAppend: string,
                          printNames: Option<Dict<string>>, ticks: seq<string>)
    requires Wf(data) && data.keys != [] && SameVariables(data)
    requires forall variable :: variable in dataRankOrder ==> variable in FirstVariables(data)
    requires FirstVariables(data) != {} && |data.keys| <= ColorCount
    requires !(TopDown(dataRankOrder) == [] && Displayed(data.keys, sampleRestriction) != [])
    requires !(|TopDown(dataRankOrder)| != |FirstVariables(data)| && Displayed(data.keys, sampleRestriction) != [])
    requires TickLabels(TopDown(dataRankOrder), printNames) == Ok(ticks)
    ensures RadarPlotLayout(data, dataRankOrder, sampleRestriction, titleAppend, printNames)
         == Ok(RadarLayout(data.keys, FirstVariables(data), TopDown(dataRankOrder),
                           Displayed(data.keys, sampleRestriction),
                           SeriesOf(data, Displayed(data.keys, sampleRestriction), TopDown(dataRankOrder)),
                           ticks, Title(Displayed(data.keys, sampleRestriction), titleAppend)))
  {
  }

  lemma {:induction false} SeriesOfAt(data: Dict<Dict<real>>, shown: seq<string>, variables: seq<string>)
    ensures |SeriesOf(data, shown, variables)| == |shown|
    ensures forall i :: 0 <= i < |shown| ==>
      SeriesOf(data, shown, variables)[i] == Closed(ValuesOf(GetOr(data, shown[i], Empty()), variables))
  {
    if shown != [] {
      var init := shown[..|shown| - 1];
      SeriesOfAt(data, init, variables);
      SeriesStep(data, init, shown[|shown| - 1], variables);
      assert shown == init + [shown[|shown| - 1]];
    }
  }

  /** The filter keeps exactly the samples that are allowed. */
  lemma {:induction false} KeptFrom(samples: seq<string>, allowed: seq<string>)
    ensures forall sample :: sample in Kept(samples, allowed) <==> sample in samples && sample in allowed
  {
    if samples != [] {
      KeptFrom(samples[..|samples| - 1], allowed);
      assert samples == samples[..|samples| - 1] + [samples[|samples| - 1]];
    }
  }

  /** A layout is made only when every check passed, and it is then the one the checks describe. */
  lemma RadarPlotLayoutMade(data: Dict<Dict<real>>, dataRankOrder: seq<string>,
                            sampleRestriction: Option<seq<string>>, titleAppend: string,
                            printNames: Option<Dict<string>>)
    requires Wf(data)
    requires RadarPlotLayout(data, dataRankOrder, sampleRestriction, titleAppend, printNames).Ok?
    ensures data.keys != [] && SameVariables(data)
    ensures forall variable :: variable in dataRankOrder ==> variable in FirstVariables(data)
    ensures |data.keys| <= ColorCount
    ensures Displayed(data.keys, sampleRestriction) != [] ==>
      dataRankOrder != [] && |dataRankOrder| == |FirstVariables(data)|
    ensures TickLabels(TopDown(dataRankOrder), printNames).Ok?
    ensures RadarPlotLayout(data, dataRankOrder, sampleRestriction, titleAppend, printNames).value
         == RadarLayout(data.keys, FirstVariables(data), TopDown(dataRankOrder),
                        Displayed(data.keys, sampleRestriction),
                        SeriesOf(data, Displayed(data.keys, sampleRestriction), TopDown(dataRankOrder)),
                        TickLabels(TopDown(dataRankOrder), printNames).value,
                        Title(Displayed(data.keys, sampleRestriction), titleAppend))
  {
    TopDownPermutation(dataRankOrder);
  }

  /**
   * A layout that is made holds one to four samples; goes round the
   * variables in an order that rearranges the rank order; shows only
   * samples of the data (and of the restriction), one value list each;
   * has one tick label per ranked item; and, when it shows a sample, ranks
   * as many items as there are variables.
   */
  lemma RadarLayoutShape(data: Dict<Dict<real>>, dataRankOrder: seq<string>,
                         sampleRestriction: Option<seq<string>>, titleAppend: string,
                         printNames: Option<Dict<string>>)
    requires Wf(data)
    requires RadarPlotLayout(data, dataRankOrder, sampleRestriction, titleAppend, printNames).Ok?
    ensures var layout := RadarPlotLayout(data, dataRankOrder, sampleRestriction, titleAppend, printNames).value;
      && layout.samples == data.keys
      && 1 <= |layout.samples| <= ColorCount
      && multiset(layout.displayOrderedVariables) == multiset(dataRankOrder)
      && |layout.xTickLabels| == |layout.displayOrderedVariables|
      && |layout.series| == |layout.displayedSamples|
      && (layout.displayedSamples != [] ==> |layout.displayOrderedVariables| == |layout.variables|)
      && (forall sample :: sample in layout.displayedSamples ==> sample in data.vals)
      && (forall sample :: sample in layout.displayedSamples && sampleRestriction.Some? ==>
            sample in sampleRestriction.value)
  {
    RadarPlotLayoutMade(data, dataRankOrder, sampleRestriction, titleAppend, printNames);
    TopDownPermutation(dataRankOrder);
    if sampleRestriction.Some? {
      KeptFrom(data.keys, sampleRestriction.value);
    }
    SeriesOfAt(data, Displayed(data.keys, sampleRestriction), TopDown(dataRankOrder));
  }

  /** Each displayed sample's value list holds its value of every variable in display order, closed by repeating the first. */
  lemma RadarLayoutSeries(data: Dict<Dict<real>>, dataRankOrder: seq<string>,
                          sampleRestriction: Option<seq<string>>, titleAppend: string,
                          printNames: Option<Dict<string>>, i: int, j: int)
    requires Wf(data)
    requires RadarPlotLayout(data, dataRankOrder, sampleRestriction, titleAppend, printNames).Ok?
    ensures var layout := RadarPlotLayout(data, dataRankOrder, sampleRestriction, titleAppend, printNames).value;
      0 <= i < |layout.displayedSamples| && 0 <= j < |layout.displayOrderedVariables| ==>
        && layout.displayedSamples[i] in data.vals
        && layout.displayOrderedVariables[j] in data.vals[layout.displayedSamples[i]].vals
        && i < |layout.series|
        && |layout.series[i]| == |layout.displayOrderedVariables| + 1
        && layout.series[i][j] == data.vals[layout.displayedSamples[i]].vals[layout.displayOrderedVariables[j]]
        && layout.series[i][|layout.displayOrderedVariables|] == layout.series[i][0]
  {
    RadarPlotLayoutMade(data, dataRankOrder, sampleRestriction, titleAppend, printNames);
    TopDownPermutation(dataRankOrder);
    var shown := Displayed(data.keys, sampleRestriction);
    var display := TopDown(dataRankOrder);
    var layout := RadarPlotLayout(data, dataRankOrder, sampleRestriction, titleAppend, printNames).value;
    assert layout.displayedSamples == shown && layout.displayOrderedVariables == display;
    assert layout.series == SeriesOf(data, shown, display);
    if 0 <= i < |shown| && 0 <= j < |display| {
      var sample := shown[i];
      DisplayedFrom(data.keys, sampleRestriction, sample);
      assert display[j] in multiset(dataRankOrder);
      assert display[j] in data.vals[sample].vals;
      SeriesOfAt(data, shown, display);
      assert GetOr(data, sample, Empty()) == data.vals[sample];
    }
  }

  /** A displayed sample is one of the samples. */
  lemma DisplayedFrom(samples: seq<string>, sampleRestriction: Option<seq<string>>, sample: string)
    requires sample in Displayed(samples, sampleRestriction)
    ensures sample in samples
  {
    if sampleRestriction.Some? {
      KeptFrom(samples, sampleRestriction.value);
    }
  }

  /**
   * One sample without restriction, ranked by some of its own variables.
   * Nothing to rank, or no variable at all, is an IndexError; ranking a
   * number of items other than the number of variables is the ValueError of
   * `plot`; a ranked variable without a print name is a KeyError; otherwise
   * the layout is made.
   */
  lemma SingleSampleLayout(data: Dict<Dict<real>>, dataRankOrder: seq<string>, titleAppend: string,
                           printNames: Option<Dict<string>>)
    requires Wf(data) && |data.keys| == 1 && Wf(data.vals[data.keys[0]])
    requires forall variable :: variable in dataRankOrder ==> variable in data.vals[data.keys[0]].vals
    ensures var variables := data.vals[data.keys[0]].keys;
      var r := RadarPlotLayout(data, dataRankOrder, None, titleAppend, printNames);
      && (r == Err(IndexError) <==> variables == [] || dataRankOrder == [])
      && (r == Err(ValueError) <==> variables != [] && dataRankOrder != [] && |dataRankOrder| != |variables|)
      && (r == Err(KeyError) <==>
            && variables != [] && dataRankOrder != [] && |dataRankOrder| == |variables| && Truthy(printNames)
            && exists variable :: variable in dataRankOrder && variable !in printNames.value.vals)
      && (r.Ok? <==> r != Err(IndexError) && r != Err(ValueError) && r != Err(KeyError))
  {
    var sample := data.keys[0];
    var variables := data.vals[sample].keys;
    assert forall other :: other in data.vals ==> other == sample;
    assert SameVariables(data);
    assert Displayed(data.keys, None) == data.keys;
    var display := TopDown(dataRankOrder);
    TopDownPermutation(dataRankOrder);
    KeyCount(data.vals[sample]);
    var r := RadarPlotLayout(data, dataRankOrder, None, titleAppend, printNames);
    if variables == [] {
      assert FirstVariables(data) == {};
      assert r == Err(IndexError);
    } else if dataRankOrder == [] {
      assert variables[0] in FirstVariables(data);
      assert r == Err(IndexError);
    } else if |dataRankOrder| != |variables| {
      assert variables[0] in FirstVariables(data);
      assert r == Err(ValueError);
    } else {
      assert variables[0] in FirstVariables(data);
      assert forall variable :: variable in display <==> variable in multiset(dataRankOrder);
      assert r == match TickLabels(display, printNames)
        case Err(e) => Err(e)
        case Ok(ticks) => Ok(RadarLayout(data.keys, FirstVariables(data), display, data.keys,
                                         SeriesOf(data, data.keys, display), ticks, Title(data.keys, titleAppend)));
    }
  }
}
