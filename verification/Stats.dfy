/** Running statistics (`MovingStats`), with floating point numbers idealised as reals. */
module Stats {
  import opened Prelude

  const LOW: int := -0x8000_0000_0000_0000
  const HIGH: int := 0x7FFF_FFFF_FFFF_FFFF

  /** `i64` addition without overflow checks. */
  function Wrap(n: int): (r: int)
    ensures LOW <= r <= HIGH
    ensures LOW <= n <= HIGH ==> r == n
  {
    (n - LOW) % WORD + LOW
  }

  lemma WrapAdds(a: int, b: int)
    ensures Wrap(Wrap(a) + b) == Wrap(a + b)
  {
    var x := a - LOW;
    var q := x / WORD;
    assert x % WORD == x - q * WORD;
    assert Wrap(a) + b - LOW == (x + b) - q * WORD;
    ModShift(x + b, q);
  }

  lemma {:induction false} ModShift(n: int, q: int)
    ensures (n - q * WORD) % WORD == n % WORD
  {
    var d := n / WORD;
    assert n == d * WORD + n % WORD;
    assert n - q * WORD == (d - q) * WORD + n % WORD;
  }

  // ---- What the fields have to be ----

  function Total(h: seq<int>): int {
    if h == [] then 0 else Total(h[..|h| - 1]) + h[|h| - 1]
  }

  /** The running sum in 64 bits. */
  function Summed(h: seq<int>): int {
    if h == [] then 0 else Wrap(Summed(h[..|h| - 1]) + h[|h| - 1])
  }

  lemma SummedAdds(h: seq<int>, value: int)
    ensures Summed(h + [value]) == Wrap(Summed(h) + value)
  {
    assert (h + [value])[..|h|] == h;
  }

  lemma {:induction false} SummedIs(h: seq<int>)
    ensures Summed(h) == Wrap(Total(h))
  {
    if h != [] {
      SummedIs(h[..|h| - 1]);
      WrapAdds(Total(h[..|h| - 1]), h[|h| - 1]);
    }
  }

  /** The sum of squared deviations from `c`. */
  function Deviation(h: seq<int>, c: real): real {
    if h == [] then 0.0
    else
      var x := h[|h| - 1] as real;
      Deviation(h[..|h| - 1], c) + (x - c) * (x - c)
  }

  function Squares(h: seq<int>): real {
    if h == [] then 0.0 else Squares(h[..|h| - 1]) + (h[|h| - 1] as real) * (h[|h| - 1] as real)
  }

  /** The deviation by powers of `c`, with the sum of squares, the total and the number of samples. */
  lemma {:induction false} Expand(h: seq<int>, c: real) returns (q: real, t: real, n: real)
    ensures q == Squares(h) && t == Total(h) as real && n == |h| as real
    ensures Deviation(h, c) == Powers(q, c, t, n)
  {
    q, t, n := 0.0, 0.0, 0.0;
    if h != [] {
      var front, x := h[..|h| - 1], h[|h| - 1] as real;
      var q0, t0, n0 := Expand(front, c);
      q, t, n := q0 + x * x, t0 + x, n0 + 1.0;
      ExpandStep(Deviation(front, c), q0, c, t0, n0, x, Deviation(h, c), q, t, n);
    }
  }

  function Powers(q: real, c: real, t: real, n: real): real {
    q - 2.0 * (c * t) + n * (c * c)
  }

  lemma ExpandStep(d: real, q: real, c: real, t: real, n: real, x: real, d': real, q': real, t': real, n': real)
    requires d == Powers(q, c, t, n) && d' == d + (x - c) * (x - c)
    requires q' == q + x * x && t' == t + x && n' == n + 1.0
    ensures d' == Powers(q', c, t', n')
  {
    assert (x - c) * (x - c) == x * x - 2.0 * (c * x) + c * c;
    assert c * (t + x) == c * t + c * x;
    assert (n + 1.0) * (c * c) == n * (c * c) + c * c;
  }

  lemma Distribute(a: real, b: real, c: real)
    ensures a * (b + c) == a * b + a * c
  {
  }

  lemma Regroup(a: real, b: real)
    ensures a * (b * b) == b * (b * a)
  {
  }

  lemma Expanded(x: real, a: real, b: real)
    ensures (x - a) * (x - b) == x * x - x * b - a * x + a * b
  {
  }

  lemma Crossed(m: real, m': real, n: real)
    ensures m * (m' * (n + 1.0)) == m' * (m * n) + m * m'
  {
  }

  /** One step of Welford's recurrence: `m` is the mean of `n` values with sum `t`, `m'` the mean after `x` is added. */
  lemma Recurrence(n: real, t: real, q: real, m: real, x: real, m': real)
    requires m * n == t && m' * (n + 1.0) == t + x
    ensures Powers(q + x * x, m', t + x, n + 1.0) == Powers(q, m, t, n) + (x - m) * (x - m')
  {
    Regroup(n + 1.0, m');
    Regroup(n, m);
    Expanded(x, m, m');
    Crossed(m, m', n);
    Distribute(m', t, x);
    Distribute(m, t, x);
    Combine(q, x * x, m' * t, m' * x, m * t, m * x, m * m', (n + 1.0) * (m' * m'), n * (m * m), (x - m) * (x - m'), x * m');
  }

  /** The same on named products. */
  lemma Combine(q: real, xx: real, nt: real, nx: real, mt: real, mx: real, mn: real, a: real, b: real, c: real, xn: real)
    requires a == nt + nx && b == mt && c == xx - xn - mx + mn && mt + mx == nt + mn && xn == nx
    ensures q + xx - 2.0 * (nt + nx) + a == q - 2.0 * mt + b + c
  {
  }

  /** `m` times `n`. */
  function Times(m: real, n: nat): real {
    if n == 0 then 0.0 else Times(m, n - 1) + m
  }

  lemma {:induction false} TimesIsProduct(m: real, n: nat)
    ensures Times(m, n) == m * (n as real)
  {
    if n > 0 {
      TimesIsProduct(m, n - 1);
      assert m * ((n - 1) as real) + m == m * (n as real);
    }
  }

  ghost predicate IsMean(h: seq<int>, m: real) {
    Times(m, |h|) == Total(h) as real
  }

  /** Numbers only: `d` and `d'` are the deviations of the same values from `m` and `m'`, `e` is the one with `x` added. */
  lemma Shift(n: real, t: real, q: real, m: real, x: real, m': real, d: real, d': real, e: real)
    requires m * n == t && m' * (n + 1.0) == t + x
    requires d == Powers(q, m, t, n) && d' == Powers(q, m', t, n) && e == d' + (x - m') * (x - m')
    ensures e == d + (x - m) * (x - m')
  {
    ExpandStep(d', q, m', t, n, x, e, q + x * x, t + x, n + 1.0);
    Recurrence(n, t, q, m, x, m');
  }

  lemma ExpandTo(h: seq<int>, c: real, q: real, t: real, n: real)
    requires q == Squares(h) && t == Total(h) as real && n == |h| as real
    ensures Deviation(h, c) == Powers(q, c, t, n)
  {
    var q', t', n' := Expand(h, c);
  }

  lemma LastDeviation(h: seq<int>, x: int, c: real, v: real)
    requires v == x as real
    ensures Deviation(h + [x], c) == Deviation(h, c) + (v - c) * (v - c)
  {
    assert (h + [x])[..|h|] == h;
  }

  lemma ProductOf(m: real, k: nat, n: real)
    requires n == k as real
    ensures Times(m, k) == m * n && Times(m, k + 1) == m * (n + 1.0)
  {
    TimesIsProduct(m, k);
    TimesIsProduct(m, k + 1);
  }

  lemma DeviationAdds(h: seq<int>, x: int, m: real, m': real, v: real)
    requires IsMean(h, m) && IsMean(h + [x], m') && v == x as real
    ensures Deviation(h + [x], m') == Deviation(h, m) + (v - m) * (v - m')
  {
    var n, t, q := |h| as real, Total(h) as real, Squares(h);
    assert Times(m', |h| + 1) == t + v by { assert (h + [x])[..|h|] == h; }
    ProductOf(m, |h|, n);
    ProductOf(m', |h|, n);
    ExpandTo(h, m', q, t, n);
    ExpandTo(h, m, q, t, n);
    LastDeviation(h, x, m', v);
    Shift(n, t, q, m, v, m', Deviation(h, m), Deviation(h, m'), Deviation(h + [x], m'));
  }

  /** The unbiased variance, or 0 for fewer than two samples. */
  ghost predicate IsVariance(h: seq<int>, m: real, v: real) {
    if |h| < 2 then v == 0.0 else Times(v, |h| - 1) == Deviation(h, m)
  }

  ghost predicate IsMin(h: seq<int>, m: int) {
    m in h && forall i :: 0 <= i < |h| ==> m <= h[i]
  }

  ghost predicate IsMax(h: seq<int>, m: int) {
    m in h && forall i :: 0 <= i < |h| ==> h[i] <= m
  }

  function Least(h: seq<int>): int {
    if h == [] then 0
    else if |h| == 1 then h[0]
    else if h[|h| - 1] < Least(h[..|h| - 1]) then h[|h| - 1]
    else Least(h[..|h| - 1])
  }

  function Greatest(h: seq<int>): int {
    if h == [] then 0
    else if |h| == 1 then h[0]
    else if h[|h| - 1] > Greatest(h[..|h| - 1]) then h[|h| - 1]
    else Greatest(h[..|h| - 1])
  }

  lemma {:induction false} LeastIsMin(h: seq<int>)
    requires h != []
    ensures IsMin(h, Least(h))
  {
    if |h| > 1 {
      LeastIsMin(h[..|h| - 1]);
    }
  }

  lemma {:induction false} GreatestIsMax(h: seq<int>)
    requires h != []
    ensures IsMax(h, Greatest(h))
  {
    if |h| > 1 {
      GreatestIsMax(h[..|h| - 1]);
    }
  }

  lemma ExtremaAdd(h: seq<int>, value: int)
    requires h != []
    ensures Least(h + [value]) == if value < Least(h) then value else Least(h)
    ensures Greatest(h + [value]) == if value > Greatest(h) then value else Greatest(h)
  {
    assert (h + [value])[..|h|] == h;
  }

  datatype Snapshot = Snapshot(min: int, max: int, avg: real, variance: real, samples: nat, sum: int)

  /** What the fields say about the samples `h`. */
  ghost predicate Fits(h: seq<int>, min: int, max: int, avg: real, variance: real, samples: nat, sum: int, oldAvg: real,
                       oldS: real)
  {
    && samples == |h|
    && sum == Summed(h)
    && IsMean(h, avg) && oldAvg == avg && (h == [] ==> avg == 0.0)
    && oldS == Deviation(h, avg)
    && IsVariance(h, avg, variance)
    && min == Least(h) && max == Greatest(h)
  }

  class MovingStats {
    var min: int
    var max: int
    var avg: real
    var variance: real
    var samples: nat
    var sum: int
    var oldAvg: real
    var s: real
    var oldS: real
    /** The samples since the last reset. */
    ghost var history: seq<int>

    ghost predicate Valid()
      reads this
    {
      Fits(history, min, max, avg, variance, samples, sum, oldAvg, oldS)
    }

    constructor ()
      ensures Valid() && history == []
    {
      min, max, avg, variance, samples, sum, oldAvg, s, oldS := 0, 0, 0.0, 0.0, 0, 0, 0.0, 0.0, 0.0;
      history := [];
    }

    method Sample(value: int)
      requires Valid() && LOW <= value <= HIGH
      modifies this
      ensures Valid() && history == old(history) + [value]
    {
      samples := samples + 1;
      sum := AddSample(history, sum, value);
      if samples == 1 {
        FirstSample(value);
      } else {
        LaterSample(value);
      }
      history := history + [value];
    }

    /** The branch of `sample` for the first sample. */
    method FirstSample(value: int)
      requires history == [] && samples == 1 && sum == Summed(history + [value])
      modifies `avg, `variance, `oldAvg, `oldS, `min, `max
      ensures Fits(history + [value], min, max, avg, variance, samples, sum, oldAvg, oldS)
    {
      avg, variance, oldAvg, oldS, min, max := value as real, 0.0, value as real, 0.0, value, value;
      OneSample(value);
      assert history + [value] == [value];
    }

    /** The branch of `sample` for the second and later samples. */
    method LaterSample(value: int)
      requires history != [] && samples == |history| + 1 && sum == Summed(history + [value])
      requires Fits(history, min, max, avg, variance, |history|, Summed(history), oldAvg, oldS)
      modifies `avg, `s, `variance, `oldAvg, `oldS, `min, `max
      ensures Fits(history + [value], min, max, avg, variance, samples, sum, oldAvg, oldS)
    {
      avg := MoveMean(history, samples, value, oldAvg);
      s := MoveSquares(history, value, oldAvg, oldS, avg);
      variance := Spread(s, samples);
      oldAvg, oldS := avg, s;
      ExtremaAdd(history, value);
      min := if value < min then value else min;
      max := if value > max then value else max;
    }

    method Reset()
      modifies this
      ensures Valid() && history == []
    {
      min, max, avg, variance, samples, sum, s, oldS, oldAvg := 0, 0, 0.0, 0.0, 0, 0, 0.0, 0.0, 0.0;
      history := [];
    }

    method TakeMetrics() returns (stats: Snapshot)
      requires Valid()
      modifies this
      ensures Valid() && history == [] && Describes(stats, old(history))
    {
      stats := Snapshot(min, max, avg, variance, samples, sum);
      if samples > 0 {
        LeastIsMin(history);
        GreatestIsMax(history);
      }
      Reset();
    }
  }

  lemma OneSample(value: int)
    ensures IsMean([value], value as real) && Deviation([value], value as real) == 0.0
  {
    assert [value][..0] == [];
  }

  /** `sum += value` in 64 bits. */
  method AddSample(ghost h: seq<int>, sum: int, value: int) returns (r: int)
    requires sum == Summed(h)
    ensures r == Summed(h + [value])
  {
    SummedAdds(h, value);
    r := Wrap(sum + value);
  }

  lemma MeanMoves(n: real, t: real, m: real, x: real)
    requires n > 0.0 && m * n == t
    ensures (m + (x - m) / (n + 1.0)) * (n + 1.0) == t + x
  {
    assert (x - m) / (n + 1.0) * (n + 1.0) == x - m;
  }

  lemma MeanAdds(h: seq<int>, x: int, m: real, m': real)
    requires h != [] && IsMean(h, m) && m' == m + (x as real - m) / (|h| as real + 1.0)
    ensures IsMean(h + [x], m')
  {
    var n, t := |h| as real, Total(h) as real;
    assert m * n == t by { TimesIsProduct(m, |h|); }
    assert m' * (n + 1.0) == t + x as real by { MeanMoves(n, t, m, x as real); }
    assert Total(h + [x]) as real == t + x as real by { assert (h + [x])[..|h|] == h; }
    assert Times(m', |h + [x]|) == m' * (n + 1.0) by { TimesIsProduct(m', |h + [x]|); }
  }

  lemma VarianceIs(s: real, n: nat)
    requires n > 0
    ensures Times(s / (n as real), n) == s
  {
    TimesIsProduct(s / (n as real), n);
  }

  /** The three assignments of `sample` for the second and later samples. */
  method MoveMean(ghost h: seq<int>, samples: nat, value: int, oldAvg: real) returns (avg: real)
    requires samples == |h| + 1 > 1 && IsMean(h, oldAvg)
    ensures IsMean(h + [value], avg)
  {
    var n := samples as real;
    avg := oldAvg + (value as real - oldAvg) / n;
    assert n == |h| as real + 1.0;
    MeanAdds(h, value, oldAvg, avg);
  }

  method MoveSquares(ghost h: seq<int>, value: int, oldAvg: real, oldS: real, avg: real) returns (s: real)
    requires IsMean(h, oldAvg) && IsMean(h + [value], avg) && oldS == Deviation(h, oldAvg)
    ensures s == Deviation(h + [value], avg)
  {
    var v := value as real;
    s := oldS + (v - oldAvg) * (v - avg);
    DeviationAdds(h, value, oldAvg, avg, v);
  }

  method Spread(s: real, samples: nat) returns (variance: real)
    requires samples > 1
    ensures Times(variance, samples - 1) == s
  {
    var n := samples as real;
    variance := s / (n - 1.0);
    assert n - 1.0 == (samples - 1) as real;
    VarianceIs(s, samples - 1);
  }

  /** What a snapshot says about the samples it was taken from. */
  ghost predicate Describes(stats: Snapshot, h: seq<int>) {
    && stats.samples == |h|
    && stats.sum == Summed(h)
    && IsMean(h, stats.avg)
    && IsVariance(h, stats.avg, stats.variance)
    && (h != [] ==> IsMin(h, stats.min) && IsMax(h, stats.max))
  }

  /** The average times the number of samples is the sum. */
  ghost predicate Agrees(stats: Snapshot) {
    Times(stats.avg, stats.samples) == stats.sum as real
  }

  lemma AgreesIff(stats: Snapshot, h: seq<int>)
    requires Describes(stats, h)
    ensures Agrees(stats) <==> LOW <= Total(h) <= HIGH
  {
    SummedIs(h);
  }

  /** Any batch of samples: the fields describe it, and the average agrees with the sum exactly if the sum fits its 64 bits. */
  method Observe(values: seq<int>) returns (stats: Snapshot)
    requires forall i :: 0 <= i < |values| ==> LOW <= values[i] <= HIGH
    ensures Describes(stats, values)
    ensures Agrees(stats) <==> LOW <= Total(values) <= HIGH
  {
    var m := new MovingStats();
    for i := 0 to |values|
      invariant m.Valid() && m.history == values[..i] && fresh(m)
    {
      m.Sample(values[i]);
      assert values[..i + 1] == values[..i] + [values[i]];
    }
    assert values[..|values|] == values;
    stats := m.TakeMetrics();
    AgreesIff(stats, values);
  }
}
