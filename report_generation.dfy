/**
 * reportGeneration.py: the absolute read-fate counts of a result (the
 * non-reference counts plus one "Reference" bucket) and the relabelling of
 * a read-fate table with print names.
 */
module ReportGeneration {
  import opened PyDict
  import opened Outcomes
  import GeneralDictOperations

  /** The key under which all reference reads are counted. */
  const ReferenceFate := "Reference"

  /** The non-reference counts with "Reference" set to the total of the reference counts. */
  function ReadFateCounts(nonreference: Dict<real>, reference: Dict<real>): Dict<real> {
    Put(nonreference, ReferenceFate, Sum(reference))
  }

  /**
   * `generateAbsoluteReadFateCounts`, given the result's two count dicts.
   * The result's own dict is copied, never changed: dicts are values here.
   */
  method GenerateAbsoluteReadFateCounts(referenceReadCounts: Dict<real>, nonreferenceReadCounts: Dict<real>)
    returns (absoluteReadFates: Dict<real>)
    requires Wf(referenceReadCounts)
    ensures absoluteReadFates == ReadFateCounts(nonreferenceReadCounts, referenceReadCounts)
  {
    var referenceCounts := GeneralDictOperations.SumDictionary(referenceReadCounts);
    absoluteReadFates := nonreferenceReadCounts;
    absoluteReadFates := Put(absoluteReadFates, ReferenceFate, referenceCounts);
  }

  /**
   * The read-fate counts hold "Reference", with the total of the reference
   * counts, and every other non-reference entry unchanged; "Reference" goes
   * last unless the non-reference counts already had it.
   */
  lemma ReadFateCountsAt(nonreference: Dict<real>, reference: Dict<real>, k: string)
    requires Wf(nonreference)
    ensures Wf(ReadFateCounts(nonreference, reference))
    ensures ReadFateCounts(nonreference, reference).vals[ReferenceFate] == Sum(reference)
    ensures k != ReferenceFate ==>
      (k in ReadFateCounts(nonreference, reference).vals <==> k in nonreference.vals)
    ensures k != ReferenceFate && k in nonreference.vals ==>
      ReadFateCounts(nonreference, reference).vals[k] == nonreference.vals[k]
    ensures ReferenceFate !in nonreference.vals ==>
      ReadFateCounts(nonreference, reference).keys == nonreference.keys + [ReferenceFate]
  {
  }

  /** The relabelled table after the loop has visited the first `n` fates; a later fate overwrites an earlier one with the same print name. */
  function RelabeledUpTo(table: Dict<real>, printNames: Dict<string>, n: nat): Dict<real>
    requires Wf(table) && n <= |table.keys|
  {
    if n == 0 then Empty()
    else
      var readFate := table.keys[n - 1];
      Put(RelabeledUpTo(table, printNames, n - 1), NameFor(printNames, readFate), table.vals[readFate])
  }

  /** What lines 3-11 of `generateReadFateChartBody` build: the relabelled table, or a copy when no print names are given. */
  function PrintReadFateTable(table: Dict<real>, readFatePrintNames: Option<Dict<string>>): Dict<real>
    requires Wf(table)
  {
    if Truthy(readFatePrintNames) then RelabeledUpTo(table, readFatePrintNames.value, |table.keys|)
    else table
  }

  /** The relabelling part of `generateReadFateChartBody` (and of `makeReadFateChart`). */
  method RelabelReadFates(readFateTable: Dict<real>, readFatePrintNames: Option<Dict<string>>)
    returns (printReadFateTable: Dict<real>)
    requires Wf(readFateTable)
    ensures printReadFateTable == PrintReadFateTable(readFateTable, readFatePrintNames)
  {
    if Truthy(readFatePrintNames) {
      printReadFateTable := Relabel(readFateTable, readFatePrintNames.value);
    } else {
      printReadFateTable := readFateTable;
    }
  }

  /** The loop of the relabelling: each fate is written under its print name, or under itself when it has none. */
  method Relabel(readFateTable: Dict<real>, printNames: Dict<string>) returns (printReadFateTable: Dict<real>)
    requires Wf(readFateTable)
    ensures printReadFateTable == RelabeledUpTo(readFateTable, printNames, |readFateTable.keys|)
  {
    printReadFateTable := Empty();
    var i := 0;
    while i < |readFateTable.keys|
      invariant 0 <= i <= |readFateTable.keys|
      invariant printReadFateTable == RelabeledUpTo(readFateTable, printNames, i)
    {
      var readFate := readFateTable.keys[i];
      var printName := readFate;
      if readFate in printNames.vals {
        printName := printNames.vals[readFate];
      }
      assert printName == NameFor(printNames, readFate);
      assert RelabeledUpTo(readFateTable, printNames, i + 1)
          == Put(RelabeledUpTo(readFateTable, printNames, i), printName, readFateTable.vals[readFate]);
      printReadFateTable := Put(printReadFateTable, printName, readFateTable.vals[readFate]);
      i := i + 1;
    }
  }

  lemma {:induction false} RelabeledUpToWf(table: Dict<real>, printNames: Dict<string>, n: nat)
    requires Wf(table) && n <= |table.keys|
    ensures Wf(RelabeledUpTo(table, printNames, n))
  {
    if n > 0 {
      RelabeledUpToWf(table, printNames, n - 1);
    }
  }

  /** The position of the last of the first `n` fates whose print name is `k`, or -1 when there is none. */
  function LastNamedIndex(table: Dict<real>, printNames: Dict<string>, n: nat, k: string): (i: int)
    requires n <= |table.keys|
    ensures -1 <= i < n
  {
    if n == 0 then -1
    else if NameFor(printNames, table.keys[n - 1]) == k then n - 1
    else LastNamedIndex(table, printNames, n - 1, k)
  }

  /** Position `i` is the last of the first `n` fates whose print name is `k`. */
  ghost predicate LastNamed(table: Dict<real>, printNames: Dict<string>, n: nat, k: string, i: int)
    requires n <= |table.keys|
  {
    && 0 <= i < n
    && NameFor(printNames, table.keys[i]) == k
    && forall j :: i < j < n ==> NameFor(printNames, table.keys[j]) != k
  }

  /** `LastNamedIndex` finds the last fate named `k`, and gives -1 exactly when no fate is. */
  lemma {:induction false} LastNamedIndexIsLast(table: Dict<real>, printNames: Dict<string>, n: nat, k: string)
    requires n <= |table.keys|
    ensures LastNamedIndex(table, printNames, n, k) >= 0 ==>
      LastNamed(table, printNames, n, k, LastNamedIndex(table, printNames, n, k))
    ensures LastNamedIndex(table, printNames, n, k) == -1 <==>
      forall j :: 0 <= j < n ==> NameFor(printNames, table.keys[j]) != k
  {
    if n > 0 {
      LastNamedIndexIsLast(table, printNames, n - 1, k);
    }
  }

  /** Every entry of the relabelled table holds the value of the last fate, among the first `n`, with that print name. */
  lemma {:induction false} RelabeledUpToValue(table: Dict<real>, printNames: Dict<string>, n: nat, k: string)
    requires Wf(table) && n <= |table.keys|
    ensures k in RelabeledUpTo(table, printNames, n).vals <==> LastNamedIndex(table, printNames, n, k) >= 0
    ensures k in RelabeledUpTo(table, printNames, n).vals ==>
      RelabeledUpTo(table, printNames, n).vals[k] == table.vals[table.keys[LastNamedIndex(table, printNames, n, k)]]
  {
    if n > 0 {
      RelabeledUpToValue(table, printNames, n - 1, k);
    }
  }

  /**
   * With print names, the relabelled keys are the print names of the fates
   * (a fate without one keeps its own key), and each holds the value of the
   * last fate relabelled to it.
   */
  lemma RelabeledTable(table: Dict<real>, printNames: Dict<string>, k: string)
    requires Wf(table) && printNames.keys != []
    ensures Wf(PrintReadFateTable(table, Some(printNames)))
    ensures k in PrintReadFateTable(table, Some(printNames)).vals <==>
      exists readFate :: readFate in table.vals && NameFor(printNames, readFate) == k
    ensures k in PrintReadFateTable(table, Some(printNames)).vals ==>
      LastNamed(table, printNames, |table.keys|, k, LastNamedIndex(table, printNames, |table.keys|, k)) &&
      PrintReadFateTable(table, Some(printNames)).vals[k] == table.vals[table.keys[LastNamedIndex(table, printNames, |table.keys|, k)]]
  {
    var n := |table.keys|;
    RelabeledUpToWf(table, printNames, n);
    RelabeledUpToValue(table, printNames, n, k);
    LastNamedIndexIsLast(table, printNames, n, k);
    var i := LastNamedIndex(table, printNames, n, k);
    if i >= 0 {
      assert table.keys[i] in table.vals;
    }
    if exists readFate :: readFate in table.vals && NameFor(printNames, readFate) == k {
      var readFate :| readFate in table.vals && NameFor(printNames, readFate) == k;
      var j :| 0 <= j < n && table.keys[j] == readFate;
    }
  }

  /** When the print names give distinct fates distinct keys, every fate's value survives under its print name. */
  lemma RelabeledInjective(table: Dict<real>, printNames: Dict<string>, readFate: string)
    requires Wf(table) && printNames.keys != []
    requires forall i, j :: 0 <= i < j < |table.keys| ==>
      NameFor(printNames, table.keys[i]) != NameFor(printNames, table.keys[j])
    requires readFate in table.vals
    ensures NameFor(printNames, readFate) in PrintReadFateTable(table, Some(printNames)).vals
    ensures PrintReadFateTable(table, Some(printNames)).vals[NameFor(printNames, readFate)] == table.vals[readFate]
  {
    var k := NameFor(printNames, readFate);
    var j :| 0 <= j < |table.keys| && table.keys[j] == readFate;
    RelabeledTable(table, printNames, k);
    var i := LastNamedIndex(table, printNames, |table.keys|, k);
    assert i == j;
  }

  lemma {:induction false} RelabeledUpToUnchanged(table: Dict<real>, printNames: Dict<string>, n: nat)
    requires Wf(table) && n <= |table.keys|
    requires forall i :: 0 <= i < n ==> table.keys[i] !in printNames.vals
    ensures RelabeledUpTo(table, printNames, n) == Prefix(table, n)
  {
    if n > 0 {
      var readFate := table.keys[n - 1];
      PrefixStep(table, n);
      assert NameFor(printNames, readFate) == readFate;
      RelabeledUpToUnchanged(table, printNames, n - 1);
    }
  }

  /** No print names, or none that applies to a fate of the table: the table comes back as it is. */
  lemma PrintReadFateTableUnchanged(table: Dict<real>, readFatePrintNames: Option<Dict<string>>)
    requires Wf(table)
    requires readFatePrintNames.Some? ==> forall k :: k in table.vals ==> k !in readFatePrintNames.value.vals
    ensures PrintReadFateTable(table, readFatePrintNames) == table
  {
    if Truthy(readFatePrintNames) {
      assert forall i :: 0 <= i < |table.keys| ==> table.keys[i] in table.vals;
      RelabeledUpToUnchanged(table, readFatePrintNames.value, |table.keys|);
      PrefixAll(table);
    }
  }
}
