// `measureLoopGain` (index.mjs:81-89) with `clamp01` (index.mjs:23): how
// much of an action's declared size shows up as a change of the field
// between two percepts, squashed into [0, 1].

module LoopGain {
  import opened Values
  import opened Actions

  /** The `EPS` added to the magnitude so that the division is defined. */
  const Eps: real := 0.000000001

  /** `clamp01`: the nearest point of [0, 1]. */
  function Clamp01(x: real): (r: real)
    ensures 0.0 <= r <= 1.0
    ensures 0.0 <= x <= 1.0 ==> r == x
    ensures x < 0.0 ==> r == 0.0
    ensures x > 1.0 ==> r == 1.0
  {
    if x < 0.0 then 0.0 else if x > 1.0 then 1.0 else x
  }

  /** What the model requires of `Math.tanh`, which it takes as a parameter:
      zero at zero, and, on arguments that are not negative, strictly
      increasing with values in [0, 1). The hyperbolic tangent over the reals has all three. */
  ghost predicate TanhLike(tanh: real -> real) {
    && tanh(0.0) == 0.0
    && (forall x :: 0.0 <= x ==> 0.0 <= tanh(x) < 1.0)
    && (forall x, y :: 0.0 <= x < y ==> tanh(x) < tanh(y))
  }

  /** The field change between two percepts, relative to the action's
      magnitude (`rawEffect / (mag + EPS)`). */
  function Ratio(prev: Percept, action: Action, next: Percept): (r: real)
    ensures r >= 0.0
    ensures r == 0.0 <==> prev.field == next.field
  {
    Abs(next.field - prev.field) / (Magnitude(action) + Eps)
  }

  /** `measureLoopGain(prev, action, next)`; an absent percept is `None`. */
  function MeasureLoopGain(tanh: real -> real, prev: Option<Percept>, action: Action, next: Option<Percept>): (g: real)
    ensures 0.0 <= g <= 1.0
    ensures prev.None? || next.None? ==> g == 0.0
  {
    if prev.None? || next.None? then 0.0
    else Clamp01(tanh(Ratio(prev.value, action, next.value)))
  }

  /** With two percepts present, the clamp never bites: the gain is the
      hyperbolic tangent of the ratio, so it is below 1. */
  lemma GainIsTanhOfRatio(tanh: real -> real, prev: Percept, action: Action, next: Percept)
    requires TanhLike(tanh)
    ensures MeasureLoopGain(tanh, Some(prev), action, Some(next)) == tanh(Ratio(prev, action, next))
    ensures MeasureLoopGain(tanh, Some(prev), action, Some(next)) < 1.0
  {
    var r := Ratio(prev, action, next);
    assert 0.0 <= tanh(r) < 1.0;
  }

  /** The gain is 0 exactly when the field did not change between the two
      percepts. */
  lemma GainZeroIffNoEffect(tanh: real -> real, prev: Percept, action: Action, next: Percept)
    requires TanhLike(tanh)
    ensures MeasureLoopGain(tanh, Some(prev), action, Some(next)) == 0.0 <==> prev.field == next.field
  {
    GainIsTanhOfRatio(tanh, prev, action, next);
    var r := Ratio(prev, action, next);
    if r > 0.0 {
      assert tanh(0.0) < tanh(r);
    }
  }

  /** For one action, a larger change of the field gives at least as large
      a gain, and a strictly larger one a strictly larger gain. */
  lemma GainMonotone(tanh: real -> real, action: Action, p1: Percept, n1: Percept, p2: Percept, n2: Percept)
    requires TanhLike(tanh)
    requires Abs(n1.field - p1.field) <= Abs(n2.field - p2.field)
    ensures MeasureLoopGain(tanh, Some(p1), action, Some(n1)) <= MeasureLoopGain(tanh, Some(p2), action, Some(n2))
    ensures Abs(n1.field - p1.field) < Abs(n2.field - p2.field) ==>
      MeasureLoopGain(tanh, Some(p1), action, Some(n1)) < MeasureLoopGain(tanh, Some(p2), action, Some(n2))
  {
    GainIsTanhOfRatio(tanh, p1, action, n1);
    GainIsTanhOfRatio(tanh, p2, action, n2);
    var d := Magnitude(action) + Eps;
    var e1, e2 := Abs(n1.field - p1.field), Abs(n2.field - p2.field);
    DivideMonotone(e1, e2, d);
    var r1, r2 := Ratio(p1, action, n1), Ratio(p2, action, n2);
    if r1 < r2 {
      assert tanh(r1) < tanh(r2);
    }
  }

  /** When the field moves by exactly the size an action declares, the
      ratio is `m / (m + EPS)`, which grows with `m`: of two such actions the
      larger one shows the larger gain. */
  lemma FullEffectGainGrows(tanh: real -> real, a1: Action, p1: Percept, n1: Percept,
                            a2: Action, p2: Percept, n2: Percept)
    requires TanhLike(tanh)
    requires Abs(n1.field - p1.field) == Magnitude(a1)
    requires Abs(n2.field - p2.field) == Magnitude(a2)
    requires Magnitude(a1) < Magnitude(a2)
    ensures MeasureLoopGain(tanh, Some(p1), a1, Some(n1)) < MeasureLoopGain(tanh, Some(p2), a2, Some(n2))
  {
    GainIsTanhOfRatio(tanh, p1, a1, n1);
    GainIsTanhOfRatio(tanh, p2, a2, n2);
    var m1, m2 := Magnitude(a1), Magnitude(a2);
    SaturationGrows(m1, m2);
    var r1, r2 := Ratio(p1, a1, n1), Ratio(p2, a2, n2);
    assert r1 == m1 / (m1 + Eps) && r2 == m2 / (m2 + Eps);
    assert tanh(r1) < tanh(r2);
  }

  lemma SaturationGrows(m1: real, m2: real)
    requires 0.0 <= m1 < m2
    ensures m1 / (m1 + Eps) < m2 / (m2 + Eps)
  {
    var d1, d2 := m1 + Eps, m2 + Eps;
    var q1, q2 := m1 / d1, m2 / d2;
    assert q1 * d1 == m1 && q2 * d2 == m2;
    assert q1 < 1.0;
    assert q1 * d2 == q1 * d1 + q1 * (m2 - m1);
    assert q1 * (m2 - m1) < m2 - m1;
    assert q1 * d2 < q2 * d2;
  }

  lemma DivideMonotone(x: real, y: real, d: real)
    requires 0.0 <= x <= y && d > 0.0
    ensures x / d <= y / d
    ensures x < y ==> x / d < y / d
  {
    assert y / d - x / d == (y - x) / d;
  }
}
