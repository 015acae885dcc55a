// Axis ticks and the y scale, over exact reals.
module Ticks {

  // --- Powers of ten ---

  ghost function Depth(x: real): nat
    requires x > 0.0
  {
    if x >= 10.0 then x.Floor else if x >= 1.0 then 0 else (1.0 / x).Floor
  }

  // 10 to the floor of log10(x).
  function Magnitude(x: real): (p: real)
    requires x > 0.0
    ensures 0.0 < p <= x < 10.0 * p
    decreases Depth(x)
  {
    if x >= 10.0 then 10.0 * Magnitude(x / 10.0)
    else if x >= 1.0 then 1.0
    else
      InverseShrinks(x);
      Magnitude(10.0 * x) / 10.0
  }

  lemma InverseShrinks(x: real)
    requires 0.0 < x < 1.0
    ensures Depth(10.0 * x) < Depth(x)
  {
    var y := 1.0 / x;
    assert y * x == 1.0;
    assert y > 1.0;
    if 10.0 * x < 1.0 {
      assert (1.0 / (10.0 * x)) * (10.0 * x) == 1.0;
      assert 1.0 / (10.0 * x) == y / 10.0;
    }
  }

  // The powers of ten: one, ten times one, a tenth of one.
  function Power(k: int): (p: real)
    ensures p > 0.0
    decreases if k < 0 then -k else k
  {
    if k == 0 then 1.0 else if k > 0 then 10.0 * Power(k - 1) else Power(k + 1) / 10.0
  }

  lemma PowerStep(k: int)
    ensures Power(k + 1) == 10.0 * Power(k)
  {
  }

  lemma {:induction false} MagnitudeIsPower(x: real) returns (k: int)
    requires x > 0.0
    ensures Magnitude(x) == Power(k)
    decreases Depth(x)
  {
    if x >= 10.0 {
      k := MagnitudeIsPower(x / 10.0);
      PowerStep(k);
      k := k + 1;
    } else if x >= 1.0 {
      k := 0;
    } else {
      InverseShrinks(x);
      k := MagnitudeIsPower(10.0 * x);
      PowerStep(k - 1);
      k := k - 1;
    }
  }

  // 1, 2, 5 or 10, by where the ideal step falls in its decade.
  function Factor(norm: real): real {
    if norm < 1.5 then 1.0 else if norm < 3.0 then 2.0 else if norm < 7.0 then 5.0 else 10.0
  }

  function Ideal(span: real, t: real): real
    requires t > 0.0
  {
    span / t
  }

  function NiceStep(span: real, t: real): (step: real)
    requires span > 0.0 && t > 0.0
    ensures step > 0.0
  {
    var step0 := Ideal(span, t);
    var mag := Magnitude(step0);
    Factor(step0 / mag) * mag
  }

  // The step is 1, 2 or 5 times a power of ten: of the decade in which the ideal step
  // lies, 1 below one and a half, 2 below three, 5 below seven, and the next 1 above.
  lemma StepIsNice(span: real, t: real) returns (k: int)
    requires span > 0.0 && t > 0.0
    ensures var ideal, p := span / t, Power(k);
            && p <= ideal < 10.0 * p
            && NiceStep(span, t) == if ideal < 1.5 * p then p else if ideal < 3.0 * p then 2.0 * p
                                    else if ideal < 7.0 * p then 5.0 * p else Power(k + 1)
  {
    var ideal := Ideal(span, t);
    k := MagnitudeIsPower(ideal);
    PowerStep(k);
    var p := Magnitude(ideal);
    hide Magnitude, Power;
    RatioBelow(ideal, p, 1.5);
    RatioBelow(ideal, p, 3.0);
    RatioBelow(ideal, p, 7.0);
  }

  lemma RatioBelow(x: real, p: real, f: real)
    requires p > 0.0
    ensures x / p < f <==> x < f * p
  {
    var r := x / p;
    assert r * p == x;
    if r < f {
      MulLt(r, f, p);
    } else {
      MulLe(f, r, p);
    }
  }

  // The step stays within a factor of the ideal one.
  lemma StepNearIdeal(span: real, t: real)
    requires span > 0.0 && t > 0.0
    ensures Ideal(span, t) * t == span
    ensures 2.0 * Ideal(span, t) <= 3.0 * NiceStep(span, t)
    ensures 3.0 * NiceStep(span, t) <= 5.0 * Ideal(span, t)
  {
    var step0 := Ideal(span, t);
    var mag := Magnitude(step0);
    DecadeFactor(step0 / mag, mag, step0);
  }

  lemma DecadeFactor(norm: real, mag: real, step0: real)
    requires mag > 0.0 && norm * mag == step0 && mag <= step0 < 10.0 * mag
    ensures 2.0 * step0 <= 3.0 * (Factor(norm) * mag)
    ensures 3.0 * (Factor(norm) * mag) <= 5.0 * step0
  {
    DivLe(1.0, norm, mag);
    DivLt(norm, 10.0, mag);
    FactorScales(norm, Factor(norm), mag, step0);
  }

  lemma FactorScales(norm: real, f: real, mag: real, step0: real)
    requires mag > 0.0 && norm * mag == step0 && 2.0 * norm <= 3.0 * f && 3.0 * f <= 5.0 * norm
    ensures 2.0 * step0 <= 3.0 * (f * mag)
    ensures 3.0 * (f * mag) <= 5.0 * step0
  {
    var low, high := norm * (2.0 / 3.0), norm * (5.0 / 3.0);
    MulLe(low, f, mag);
    MulLe(f, high, mag);
    assert low * mag == (2.0 / 3.0) * step0;
    assert high * mag == (5.0 / 3.0) * step0;
  }

  lemma MulLe(a: real, b: real, c: real)
    requires c >= 0.0 && a <= b
    ensures a * c <= b * c
  {
  }

  lemma MulLt(a: real, b: real, c: real)
    requires c > 0.0 && a < b
    ensures a * c < b * c
  {
  }

  lemma Below(a: real, b: real, c: real, d: real, e: real)
    requires a < b + d && b <= c && c + d == e
    ensures a < e
  {
  }

  lemma DivLe(a: real, b: real, c: real)
    requires c > 0.0 && a * c <= b * c
    ensures a <= b
  {
    if a > b {
      MulLt(b, a, c);
    }
  }

  lemma DivLt(a: real, b: real, c: real)
    requires c > 0.0 && a * c < b * c
    ensures a < b
  {
    if a >= b {
      MulLe(b, a, c);
    }
  }

  // The ticks are the multiples of the step from First to Last.
  function First(min: real, step: real): int
    requires step > 0.0
  {
    (min / step).Floor
  }

  function Last(max: real, step: real): int
    requires step > 0.0
  {
    -(-(max / step)).Floor
  }

  function Multiple(k: int, step: real): real {
    k as real * step
  }

  ghost predicate OnGrid(x: real, step: real) {
    exists k: int :: Multiple(k, step) == x
  }

  function Target(target: real): real {
    if target == 0.0 then 5.0 else target
  }

  method NiceTicks(min: real, max: real, target: real) returns (out: seq<real>)
    requires min <= max && target >= 0.0
    ensures min == max == 0.0 ==> out == [0.0, 1.0]
    ensures min == max != 0.0 ==> var half := if min < 0.0 then -0.5 * min else 0.5 * min; out == [min - half, min, min + half]
    ensures min < max ==>
      var t := if target == 0.0 then 5.0 else target;
      var step := NiceStep(max - min, t);
      && |out| >= 2 && Evenly(out, step) && OnGrid(out[0], step)
      && out[0] <= min < out[0] + step
      && out[|out| - 1] - step < max <= out[|out| - 1]
      && CountNear(|out|, t)
  {
    if min == max {
      if min == 0.0 {
        return [0.0, 1.0];
      }
      var m := if min < 0.0 then -min else min;
      return [min - m * 0.5, min, min + m * 0.5];
    }
    hide NiceStep, First, Last, Multiple;
    var t := Target(target);
    var step := NiceStep(max - min, t);
    Brackets(min, max, step);
    out := Multiples(First(min, step), Last(max, step), step);
    CountBounds(min, max, t);
  }

  // The loop adds the step until it is half a step past the last multiple.
  method Multiples(first: int, last: int, step: real) returns (out: seq<real>)
    requires step > 0.0 && first < last
    ensures |out| == last - first + 1
    ensures out[0] == Multiple(first, step) && out[|out| - 1] == Multiple(last, step)
    ensures Evenly(out, step)
  {
    hide Multiple;
    var lo, hi := Multiple(first, step), Multiple(last, step);
    out := [];
    var v := lo;
    while v <= hi + step * 0.5
      invariant |out| <= last - first + 1
      invariant v == Multiple(first + |out|, step)
      invariant forall i :: 0 <= i < |out| ==> out[i] == Multiple(first + i, step)
      decreases last - first + 1 - |out|
    {
      GridLe(first + |out|, last, step);
      NextOnGrid(first + |out|, step);
      out := out + [v];
      v := v + step;
    }
    GridLe(first + |out|, last, step);
    forall i | 0 <= i < |out|
      ensures out[i] == out[0] + i as real * step
    {
      MultipleFrom(first, i, step);
    }
  }

  lemma MultipleFrom(first: int, i: nat, step: real)
    ensures Multiple(first + i, step) == Multiple(first, step) + i as real * step
  {
    Distribute(first as real, i as real, step);
  }

  // Close to the number of ticks asked for.
  ghost predicate CountNear(n: int, t: real) {
    0.6 * t + 1.0 <= n as real < 1.5 * t + 3.0
  }

  ghost predicate Evenly(out: seq<real>, step: real) {
    && step > 0.0
    && forall i :: 0 <= i < |out| ==> out[i] == out[0] + i as real * step
  }

  lemma Distribute(a: real, b: real, c: real)
    ensures (a + b) * c == a * c + b * c
  {
  }

  lemma DistributeMinus(a: real, b: real, c: real)
    ensures (a - b) * c == a * c - b * c
  {
  }

  lemma NextOnGrid(k: int, step: real)
    ensures Multiple(k + 1, step) == Multiple(k, step) + step
  {
    Distribute(k as real, 1.0, step);
  }

  lemma MultipleLe(k: int, l: int, step: real)
    requires step > 0.0 && k <= l
    ensures Multiple(k, step) <= Multiple(l, step)
  {
    MulLe(k as real, l as real, step);
  }

  lemma MultipleNeg(k: int, step: real)
    ensures Multiple(-k, step) == -Multiple(k, step)
  {
    assert (-k) as real == -(k as real);
  }

  lemma GridLe(k: int, last: int, step: real)
    requires step > 0.0
    ensures Multiple(k, step) <= Multiple(last, step) + step * 0.5 <==> k <= last
  {
    hide Multiple;
    NextOnGrid(last, step);
    if k <= last {
      MultipleLe(k, last, step);
    } else {
      MultipleLe(last + 1, k, step);
    }
  }

  // The multiples of step just outside an interval.
  lemma Brackets(min: real, max: real, step: real)
    requires step > 0.0 && min < max
    ensures var lo, hi := Multiple(First(min, step), step), Multiple(Last(max, step), step);
            && lo <= min < lo + step && hi - step < max <= hi
    ensures First(min, step) < Last(max, step)
  {
    FloorBrackets(min, min / step, step);
    FloorBrackets(-max, -(max / step), step);
    MultipleNeg((-(max / step)).Floor, step);
    OrderFromMultiples(First(min, step), Last(max, step), step);
  }

  lemma OrderFromMultiples(k: int, l: int, step: real)
    requires step > 0.0
    ensures Multiple(k, step) < Multiple(l, step) ==> k < l
  {
    if k >= l {
      MultipleLe(l, k, step);
    }
  }

  lemma FloorBrackets(x: real, a: real, step: real)
    requires step > 0.0 && a * step == x
    ensures Multiple(a.Floor, step) <= x < Multiple(a.Floor, step) + step
  {
    var k := a.Floor as real;
    var k1 := k + 1.0;
    assert k <= a < k1;
    MulLe(k, a, step);
    assert k * step <= x;
    MulLt(a, k1, step);
    assert x < k1 * step;
    assert k1 * step == k * step + step;
    assert x < k * step + step;
  }

  lemma CountBounds(min: real, max: real, t: real)
    requires min < max && t > 0.0
    ensures var step := NiceStep(max - min, t);
            var n := Last(max, step) - First(min, step) + 1;
            CountNear(n, t)
  {
    hide NiceStep, First, Last, Ideal;
    var step := NiceStep(max - min, t);
    StepNearIdeal(max - min, t);
    Brackets(min, max, step);
    CountBetween(min, max, t, Ideal(max - min, t), step, First(min, step) as real, Last(max, step) as real);
  }

  lemma CountBetween(min: real, max: real, t: real, ideal: real, step: real, k: real, l: real)
    requires t > 0.0 && step > 0.0 && ideal * t == max - min
    requires 2.0 * ideal <= 3.0 * step && 3.0 * step <= 5.0 * ideal
    requires k * step <= min < k * step + step && l * step - step < max <= l * step
    ensures 0.6 * t <= l - k < 1.5 * t + 2.0
  {
    DistributeMinus(l, k, step);
    CountAlgebra(max - min, t, ideal, step, l - k);
  }

  lemma CountAlgebra(span: real, t: real, ideal: real, step: real, q: real)
    requires t > 0.0 && step > 0.0 && ideal * t == span
    requires 2.0 * ideal <= 3.0 * step && 3.0 * step <= 5.0 * ideal
    requires span <= q * step < span + 2.0 * step
    ensures 0.6 * t <= q < 1.5 * t + 2.0
  {
    var low, high := 0.6 * step, 1.5 * step;
    MulLe(low, ideal, t);
    MulLe(ideal, high, t);
    var t6, t15 := 0.6 * t, 1.5 * t + 2.0;
    assert t6 * step == low * t;
    assert low * t <= span;
    assert t6 * step <= q * step;
    assert t15 * step == high * t + 2.0 * step;
    DivLe(t6, q, step);
    assert span <= high * t;
    Below(q * step, span, high * t, 2.0 * step, t15 * step);
    DivLt(q, t15, step);
  }

  // --- Scales ---

  // linearScale: the affine map, or the midpoint when the domain is a point.
  datatype Scale = Scale(d0: real, d1: real, r0: real, r1: real) {
    function At(v: real): real {
      if d1 - d0 == 0.0 then (r0 + r1) / 2.0 else r0 + (r1 - r0) * ((v - d0) / (d1 - d0))
    }
  }

  // The scale maps the ends of its domain to the ends of its range, and evenly between.
  lemma ScaleIsAffine(s: Scale, u: real, v: real)
    ensures s.d0 == s.d1 ==> s.At(v) == (s.r0 + s.r1) / 2.0
    ensures s.d0 != s.d1 ==> s.At(s.d0) == s.r0 && s.At(s.d1) == s.r1
    ensures s.d0 != s.d1 ==> (s.At(v) - s.At(u)) * (s.d1 - s.d0) == (s.r1 - s.r0) * (v - u)
  {
    if s.d0 != s.d1 {
      var d, r := s.d1 - s.d0, s.r1 - s.r0;
      var x, y := Ratio(v - s.d0, d), Ratio(u - s.d0, d);
      Cancel(Ratio(s.d0 - s.d0, d), 0.0, d);
      Cancel(Ratio(s.d1 - s.d0, d), 1.0, d);
      assert s.At(v) == s.r0 + r * x && s.At(u) == s.r0 + r * y;
      DistributeMinus(x, y, r);
      assert s.At(v) - s.At(u) == (x - y) * r;
      DistributeMinus(x, y, d);
      Swap(x - y, r, d);
    }
  }

  function Ratio(a: real, d: real): (x: real)
    requires d != 0.0
    ensures x * d == a
  {
    a / d
  }

  lemma Swap(x: real, r: real, d: real)
    ensures (x * r) * d == r * (x * d)
  {
  }

  lemma Cancel(a: real, b: real, d: real)
    requires d != 0.0 && a * d == b * d
    ensures a == b
  {
    if d > 0.0 {
      DivLe(a, b, d);
      DivLe(b, a, d);
    } else {
      assert a * (-d) == b * (-d);
      DivLe(a, b, -d);
      DivLe(b, a, -d);
    }
  }

  function MinOf(values: seq<real>, floor: real): (m: real)
    ensures m <= floor && forall v :: v in values ==> m <= v
    ensures m == floor || m in values
  {
    if values == [] then floor
    else
      assert values == [values[0]] + values[1..];
      var m := MinOf(values[1..], floor);
      if values[0] < m then values[0] else m
  }

  function MaxOf(values: seq<real>, ceiling: real): (m: real)
    ensures m >= ceiling && forall v :: v in values ==> v <= m
    ensures m == ceiling || m in values
  {
    if values == [] then ceiling
    else
      assert values == [values[0]] + values[1..];
      var m := MaxOf(values[1..], ceiling);
      if values[0] > m then values[0] else m
  }

  // Every value and zero lands inside the plot, higher values strictly higher up, with
  // 4 to 10 ticks unless all values are zero.
  method YScaleFromValues(values: seq<real>, ih: real) returns (ticks: seq<real>, scale: Scale)
    requires ih > 0.0
    ensures |ticks| >= 2 && scale.At(ticks[0]) == ih && scale.At(ticks[|ticks| - 1]) == 0.0
    ensures 0.0 <= scale.At(0.0) <= ih
    ensures forall v :: v in values ==> 0.0 <= scale.At(v) <= ih
    ensures forall u: real, v :: u < v ==> scale.At(v) < scale.At(u)
    ensures (forall v :: v in values ==> v == 0.0) ==> ticks == [0.0, 1.0]
    ensures (exists v :: v in values && v != 0.0) ==> 4 <= |ticks| <= 10
  {
    var lo, hi := MinOf(values, 0.0), MaxOf(values, 0.0);
    ticks := NiceTicks(lo, hi, 5.0);
    var d0, d1 := ticks[0], ticks[|ticks| - 1];
    scale := Scale(d0, d1, ih, 0.0);
    assert d0 < d1;
    forall v
      ensures d0 <= v <= d1 ==> 0.0 <= scale.At(v) <= ih
      ensures v == d0 ==> scale.At(v) == ih
      ensures v == d1 ==> scale.At(v) == 0.0
    {
      ReversedWithin(scale, v);
    }
    forall u: real, v | u < v
      ensures scale.At(v) < scale.At(u)
    {
      ReversedOrder(scale, u, v);
    }
  }

  lemma ReversedWithin(s: Scale, v: real)
    requires s.d0 < s.d1 && s.r0 > 0.0 && s.r1 == 0.0
    ensures s.d0 <= v <= s.d1 ==> 0.0 <= s.At(v) <= s.r0
    ensures v == s.d0 ==> s.At(v) == s.r0
    ensures v == s.d1 ==> s.At(v) == 0.0
  {
    var d := s.d1 - s.d0;
    var x := (v - s.d0) / d;
    assert x * d == v - s.d0;
    assert s.At(v) == s.r0 - s.r0 * x;
    if s.d0 <= v <= s.d1 {
      DivLe(0.0, x, d);
      DivLe(x, 1.0, d);
      MulLe(0.0, x, s.r0);
      MulLe(x, 1.0, s.r0);
    }
  }

  lemma ReversedOrder(s: Scale, u: real, v: real)
    requires s.d0 < s.d1 && s.r0 > 0.0 && s.r1 == 0.0 && u < v
    ensures s.At(v) < s.At(u)
  {
    var d := s.d1 - s.d0;
    var x, y := (u - s.d0) / d, (v - s.d0) / d;
    assert x * d == u - s.d0 && y * d == v - s.d0;
    DivLt(x, y, d);
    MulLt(x, y, s.r0);
    assert s.At(u) == s.r0 - s.r0 * x && s.At(v) == s.r0 - s.r0 * y;
  }
}
