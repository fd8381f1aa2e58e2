/** Small facts of real arithmetic, kept apart so that each is proved in a context of its own. */
module RealFacts {

  lemma PercentAdditive(a: real, b: real, t: real)
    requires t != 0.0
    ensures a / t * 100.0 + b / t * 100.0 == (a + b) / t * 100.0
    ensures 0.0 / t * 100.0 == 0.0
  {
  }

  lemma PercentOfWhole(t: real)
    requires t != 0.0
    ensures t / t * 100.0 == 100.0
  {
  }

  lemma DivBetweenZeroAndOne(v: real, t: real)
    requires 0.0 <= v <= t && 0.0 < t
    ensures 0.0 <= v / t <= 1.0
  {
    assert (v / t) * t == v;
  }

  lemma DivNonNegative(v: real, t: real)
    requires 0.0 <= v && 0.0 < t
    ensures 0.0 <= v / t
  {
  }

  lemma DivMonotone(a: real, b: real, t: real)
    requires a <= b && 0.0 < t
    ensures a / t <= b / t
  {
    assert (a / t) * t == a;
    assert (b / t) * t == b;
  }

  lemma ShareAdditive(a: real, b: real, t: real, m: real)
    requires t != 0.0
    ensures (a + m * (a / t)) + (b + m * (b / t)) == (a + b) + m * ((a + b) / t)
    ensures 0.0 + m * (0.0 / t) == 0.0
  {
    assert (a + b) / t == a / t + b / t;
    assert m * (a / t + b / t) == m * (a / t) + m * (b / t);
  }

  lemma ShareOfWhole(t: real)
    requires t != 0.0
    ensures t + (100.0 - t) * (t / t) == 100.0
  {
  }

  lemma ShareKeepsProportion(v: real, t: real)
    requires t != 0.0
    ensures (v + (100.0 - t) * (v / t)) / 100.0 == v / t
  {
    assert t * (v / t) == v;
    assert (100.0 - t) * (v / t) == 100.0 * (v / t) - t * (v / t);
  }
}
