/**
 * Python dictionaries keyed by strings.  A dict is its list of keys in
 * insertion order (the order Python iterates in) together with the value of
 * each key.  Assigning to an existing key keeps that key's position;
 * assigning to a new key puts it last.
 */
module PyDict {
  import opened Outcomes

  /** A dict: its keys in insertion order, and the value of each key. */
  datatype Dict<V> = Dict(keys: seq<string>, vals: map<string, V>)

  /** No string occurs twice in `s`. */
  predicate Distinct(s: seq<string>) {
    forall i, j :: 0 <= i < j < |s| ==> s[i] != s[j]
  }

  /** A real Python dict: every key is listed once, and the listed keys are exactly the keys with a value. */
  ghost predicate Wf<V>(d: Dict<V>) {
    && Distinct(d.keys)
    && (forall k :: k in d.vals <==> k in d.keys)
  }

  /** A list without repeats has as many elements as its set. */
  lemma {:induction false} DistinctCount(s: seq<string>)
    requires Distinct(s)
    ensures |set x | x in s| == |s|
  {
    if s != [] {
      var init := s[..|s| - 1];
      DistinctCount(init);
      assert (set x | x in s) == (set x | x in init) + {s[|s| - 1]};
    }
  }

  /** A real dict has as many keys as it lists. */
  lemma KeyCount<V>(d: Dict<V>)
    requires Wf(d)
    ensures |d.vals.Keys| == |d.keys|
  {
    DistinctCount(d.keys);
    assert d.vals.Keys == set x | x in d.keys;
  }

  /** Python truthiness of an optional dict: None and `{}` are falsy. */
  predicate Truthy<V>(d: Option<Dict<V>>) {
    d.Some? && d.value.keys != []
  }

  /** `{}`. */
  function Empty<V>(): (d: Dict<V>)
    ensures Wf(d)
  {
    Dict([], map[])
  }

  /** `d.get(k, default)`. */
  function GetOr<V>(d: Dict<V>, k: string, default: V): V {
    if k in d.vals then d.vals[k] else default
  }

  /** `names.get(k, k)`: the name `names` gives to `k`, or `k` itself when it has none. */
  function NameFor(names: Dict<string>, k: string): string {
    GetOr(names, k, k)
  }

  /** The dict after `d[k] = v`. */
  function Put<V>(d: Dict<V>, k: string, v: V): (r: Dict<V>)
    ensures Wf(d) ==> Wf(r)
  {
    Dict(if k in d.vals then d.keys else d.keys + [k], d.vals[k := v])
  }

  /** What key `k` adds to `sumDictionary`: nothing when the key is falsy ("") or absent. */
  function Counted(d: Dict<real>, k: string): real {
    if k != "" && k in d.vals then d.vals[k] else 0.0
  }

  /** What `sumDictionary` has added up after visiting the first `n` keys. */
  function SumUpTo(d: Dict<real>, n: nat): real
    requires n <= |d.keys|
  {
    if n == 0 then 0.0 else SumUpTo(d, n - 1) + Counted(d, d.keys[n - 1])
  }

  /** `sumDictionary`: the sum of the values of the keys that are not "". */
  function Sum(d: Dict<real>): real {
    SumUpTo(d, |d.keys|)
  }

  /** The keys whose value is truthy (non-zero), as a set. */
  function TruthyKeys(d: Dict<real>): set<string> {
    set k | k in d.vals && d.vals[k] != 0.0
  }

  /** The first `n` keys whose value is truthy, in dict order. */
  function TruthyUpTo(d: Dict<real>, n: nat): seq<string>
    requires n <= |d.keys|
  {
    if n == 0 then []
    else
      var k := d.keys[n - 1];
      TruthyUpTo(d, n - 1) + (if k in d.vals && d.vals[k] != 0.0 then [k] else [])
  }

  /** The keys whose value is truthy, in dict order. */
  function TruthyKeyList(d: Dict<real>): seq<string> {
    TruthyUpTo(d, |d.keys|)
  }

  /** The dict holding only the first `n` keys of `d`, as built by a loop that has visited them. */
  function Prefix<V>(d: Dict<V>, n: nat): Dict<V>
    requires Wf(d) && n <= |d.keys|
  {
    Dict(d.keys[..n], map k | k in d.keys[..n] :: d.vals[k])
  }

  /** The prefix with one more key is the shorter prefix with that key assigned last. */
  lemma PrefixStep<V>(d: Dict<V>, n: nat)
    requires Wf(d) && 0 < n <= |d.keys|
    ensures d.keys[n - 1] !in Prefix(d, n - 1).vals
    ensures Prefix(d, n) == Put(Prefix(d, n - 1), d.keys[n - 1], d.vals[d.keys[n - 1]])
  {
    var k := d.keys[n - 1];
    assert d.keys[..n] == d.keys[..n - 1] + [k];
    assert k !in d.keys[..n - 1];
    assert Prefix(d, n).vals == Prefix(d, n - 1).vals[k := d.vals[k]];
  }

  /** The prefix of all keys is the dict itself. */
  lemma PrefixAll<V>(d: Dict<V>)
    requires Wf(d)
    ensures Prefix(d, |d.keys|) == d
  {
    assert d.keys[..|d.keys|] == d.keys;
    assert Prefix(d, |d.keys|).vals == d.vals;
  }

  /** `{key: f(d[key]) for key in d}`: the keys and their order are unchanged. */
  function MapValues(d: Dict<real>, f: real -> real): Dict<real> {
    Dict(d.keys, map k | k in d.vals :: f(d.vals[k]))
  }

  /** The first `n` keys of `d`, each with `f` applied to its value. */
  function MapPrefix(d: Dict<real>, f: real -> real, n: nat): Dict<real>
    requires Wf(d) && n <= |d.keys|
  {
    Dict(d.keys[..n], map k | k in d.keys[..n] :: f(d.vals[k]))
  }

  /**
   * The dict a loop `for key in d: out[key] = f(d[key])`, starting from `{}`,
   * has built after visiting the first `n` keys.
   */
  function MapValuesUpTo(d: Dict<real>, f: real -> real, n: nat): Dict<real>
    requires Wf(d) && n <= |d.keys|
  {
    if n == 0 then Empty()
    else
      var k := d.keys[n - 1];
      Put(MapValuesUpTo(d, f, n - 1), k, f(d.vals[k]))
  }

  /** The mapped prefix with one more key is the shorter one with that key assigned last. */
  lemma MapPrefixStep(d: Dict<real>, f: real -> real, n: nat)
    requires Wf(d) && 0 < n <= |d.keys|
    ensures MapPrefix(d, f, n) == Put(MapPrefix(d, f, n - 1), d.keys[n - 1], f(d.vals[d.keys[n - 1]]))
  {
    var k := d.keys[n - 1];
    assert d.keys[..n] == d.keys[..n - 1] + [k];
    assert k !in d.keys[..n - 1];
    assert MapPrefix(d, f, n).vals == MapPrefix(d, f, n - 1).vals[k := f(d.vals[k])];
  }

  lemma {:induction false} MapValuesUpToPrefix(d: Dict<real>, f: real -> real, n: nat)
    requires Wf(d) && n <= |d.keys|
    ensures MapValuesUpTo(d, f, n) == MapPrefix(d, f, n)
  {
    if n > 0 {
      MapValuesUpToPrefix(d, f, n - 1);
      MapPrefixStep(d, f, n);
    }
  }

  /** The loop that applies `f` to every value builds `MapValues(d, f)`. */
  lemma MapValuesUpToAll(d: Dict<real>, f: real -> real)
    requires Wf(d)
    ensures MapValuesUpTo(d, f, |d.keys|) == MapValues(d, f)
  {
    var n := |d.keys|;
    MapValuesUpToPrefix(d, f, n);
    assert d.keys[..n] == d.keys;
    assert MapPrefix(d, f, n).vals.Keys == d.vals.Keys;
    assert MapPrefix(d, f, n).vals == MapValues(d, f).vals;
  }

  /** Two dicts that list the same first `n` keys, each counting the same, have the same partial sums. */
  lemma {:induction false} SumUpToSame(d: Dict<real>, e: Dict<real>, n: nat)
    requires n <= |d.keys| && n <= |e.keys|
    requires forall i :: 0 <= i < n ==> d.keys[i] == e.keys[i] && Counted(d, d.keys[i]) == Counted(e, e.keys[i])
    ensures SumUpTo(d, n) == SumUpTo(e, n)
  {
    if n > 0 {
      SumUpToSame(d, e, n - 1);
    }
  }

  /** Overwriting the value of the key at position `j` changes the partial sums that include it. */
  lemma {:induction false} SumUpToOverwrite(d: Dict<real>, j: nat, v: real, n: nat)
    requires Wf(d) && j < |d.keys| && n <= |d.keys|
    ensures var k := d.keys[j];
      SumUpTo(Put(d, k, v), n) == SumUpTo(d, n) + (if j < n && k != "" then v - d.vals[k] else 0.0)
  {
    if n > 0 {
      SumUpToOverwrite(d, j, v, n - 1);
    }
  }

  /** `d[k] = v` changes `sumDictionary` by `v` minus the value it overwrites, unless `k` is "". */
  lemma SumPut(d: Dict<real>, k: string, v: real)
    requires Wf(d)
    ensures Sum(Put(d, k, v)) == Sum(d) + (if k != "" then v - GetOr(d, k, 0.0) else 0.0)
  {
    if k in d.vals {
      var j :| 0 <= j < |d.keys| && d.keys[j] == k;
      SumUpToOverwrite(d, j, v, |d.keys|);
    } else {
      var r := Put(d, k, v);
      SumUpToSame(d, r, |d.keys|);
    }
  }

  /** With non-negative values, every partial sum is non-negative. */
  lemma {:induction false} SumUpToNonNegative(d: Dict<real>, n: nat)
    requires n <= |d.keys|
    requires forall k :: k in d.vals ==> d.vals[k] >= 0.0
    ensures SumUpTo(d, n) >= 0.0
  {
    if n > 0 {
      SumUpToNonNegative(d, n - 1);
    }
  }

  /** With non-negative values, the partial sums grow with `n` and include each value visited. */
  lemma {:induction false} CountedAtMostSumUpTo(d: Dict<real>, j: nat, n: nat)
    requires j < n <= |d.keys|
    requires forall k :: k in d.vals ==> d.vals[k] >= 0.0
    ensures Counted(d, d.keys[j]) <= SumUpTo(d, n)
  {
    if j == n - 1 {
      SumUpToNonNegative(d, n - 1);
    } else {
      CountedAtMostSumUpTo(d, j, n - 1);
    }
  }

  /** With non-negative values, `sumDictionary` is non-negative and no counted value exceeds it. */
  lemma CountedAtMostSum(d: Dict<real>, k: string)
    requires Wf(d)
    requires forall k' :: k' in d.vals ==> d.vals[k'] >= 0.0
    ensures 0.0 <= Sum(d)
    ensures Counted(d, k) <= Sum(d)
  {
    SumUpToNonNegative(d, |d.keys|);
    if k in d.vals {
      var j :| 0 <= j < |d.keys| && d.keys[j] == k;
      CountedAtMostSumUpTo(d, j, |d.keys|);
    }
  }

  /** The first `n` truthy keys are listed once each, and they are the truthy keys among the first `n`. */
  lemma {:induction false} TruthyUpToAt(d: Dict<real>, n: nat)
    requires Wf(d) && n <= |d.keys|
    ensures forall k :: k in TruthyUpTo(d, n) <==> k in d.keys[..n] && k in TruthyKeys(d)
    ensures Distinct(TruthyUpTo(d, n))
  {
    if n > 0 {
      TruthyUpToAt(d, n - 1);
      assert d.keys[..n] == d.keys[..n - 1] + [d.keys[n - 1]];
      assert d.keys[n - 1] !in d.keys[..n - 1];
    }
  }

  /** `TruthyKeyList` lists the truthy keys once each, in dict order. */
  lemma TruthyKeyListAt(d: Dict<real>)
    requires Wf(d)
    ensures forall k :: k in TruthyKeyList(d) <==> k in TruthyKeys(d)
    ensures Distinct(TruthyKeyList(d))
  {
    TruthyUpToAt(d, |d.keys|);
    assert d.keys[..|d.keys|] == d.keys;
  }
}
