/** Sums, means, extremes and squared deviations over finite sequences of
    reals: the arithmetic that numpy supplies to every stage of the pipeline
    (`np.mean`, `.min()`, `.max()`, and the variance under `np.std`). */
module Stats {

  function Abs(x: real): (r: real)
    ensures r >= 0.0 && (r == x || r == -x)
  {
    if x < 0.0 then -x else x
  }

  function Sum(xs: seq<real>): real {
    if xs == [] then 0.0 else xs[0] + Sum(xs[1..])
  }

  /** Arithmetic mean of a non-empty sequence (`np.mean`). */
  function Mean(xs: seq<real>): real
    requires xs != []
  {
    Sum(xs) / (|xs| as real)
  }

  function Min(xs: seq<real>): (m: real)
    requires xs != []
    ensures m in xs
    ensures forall i :: 0 <= i < |xs| ==> m <= xs[i]
  {
    if |xs| == 1 then xs[0]
    else
      var rest := Min(xs[1..]);
      if xs[0] <= rest then xs[0] else rest
  }

  function Max(xs: seq<real>): (m: real)
    requires xs != []
    ensures m in xs
    ensures forall i :: 0 <= i < |xs| ==> xs[i] <= m
  {
    if |xs| == 1 then xs[0]
    else
      var rest := Max(xs[1..]);
      if xs[0] >= rest then xs[0] else rest
  }

  /** `k * x` written as repeated addition, so that induction over a
      sequence stays linear. */
  function Times(k: nat, x: real): real {
    if k == 0 then 0.0 else x + Times(k - 1, x)
  }

  lemma {:induction false} TimesIsProduct(k: nat, x: real)
    ensures Times(k, x) == (k as real) * x
  {
    if k > 0 {
      TimesIsProduct(k - 1, x);
      var m := (k - 1) as real;
      assert (k as real) == m + 1.0;
      assert (m + 1.0) * x == m * x + x;
    }
  }

  /** A sum of terms bounded by `lo` and `hi` is bounded by n times them. */
  lemma {:induction false} SumBounds(xs: seq<real>, lo: real, hi: real)
    requires forall i :: 0 <= i < |xs| ==> lo <= xs[i] <= hi
    ensures Times(|xs|, lo) <= Sum(xs) <= Times(|xs|, hi)
  {
    if xs != [] {
      SumBounds(xs[1..], lo, hi);
    }
  }

  lemma MulLeft(n: real, a: real, b: real)
    requires n >= 0.0 && a <= b
    ensures n * a <= n * b
  {
    assert n * b - n * a == n * (b - a);
  }

  /** The mean lies between the smallest and the largest element. */
  lemma MeanBetween(xs: seq<real>)
    requires xs != []
    ensures Min(xs) <= Mean(xs) <= Max(xs)
  {
    MeanBounds(xs, Min(xs), Max(xs));
  }

  /** A mean of terms bounded by `lo` and `hi` is bounded by them. */
  lemma MeanBounds(xs: seq<real>, lo: real, hi: real)
    requires xs != []
    requires forall i :: 0 <= i < |xs| ==> lo <= xs[i] <= hi
    ensures lo <= Mean(xs) <= hi
  {
    var n := |xs|;
    var s := Sum(xs);
    SumBounds(xs, lo, hi);
    ProductBounds(n, lo, hi, s);
    DivideBounds(s, n as real, lo, hi);
  }

  lemma ProductBounds(n: nat, lo: real, hi: real, s: real)
    requires Times(n, lo) <= s <= Times(n, hi)
    ensures (n as real) * lo <= s <= (n as real) * hi
  {
    TimesIsProduct(n, lo);
    TimesIsProduct(n, hi);
  }

  lemma DivideBounds(s: real, n: real, lo: real, hi: real)
    requires n > 0.0 && n * lo <= s <= n * hi
    ensures lo <= s / n <= hi
  {
    var q := s / n;
    assert q * n == s;
    if q < lo {
      MulLeft(n, q, lo);
      assert false;
    }
    if q > hi {
      MulLeft(n, hi, q);
      assert false;
    }
  }

  /** The point a fraction `t` of the way from `lo` to `hi`: `lo + t * (hi - lo)`. */
  function Interpolate(lo: real, hi: real, t: real): real {
    lo + t * (hi - lo)
  }

  /** For a fraction within [0, 1] the point lies between the two ends. */
  lemma Interpolation(lo: real, hi: real, t: real)
    requires lo <= hi && 0.0 <= t <= 1.0
    ensures lo <= Interpolate(lo, hi, t) <= hi
  {
    var d := hi - lo;
    var x := Interpolate(lo, hi, t);
    assert x == lo + t * d;
    MulLeft(d, 0.0, t);
    MulLeft(d, t, 1.0);
    assert 0.0 <= t * d <= d;
    assert hi == lo + d;
  }

  /** A larger fraction gives a point no nearer to `lo`. */
  lemma InterpolationMonotone(lo: real, hi: real, t1: real, t2: real)
    requires lo <= hi && t1 <= t2
    ensures Interpolate(lo, hi, t1) <= Interpolate(lo, hi, t2)
  {
    var d := hi - lo;
    assert Interpolate(lo, hi, t1) == lo + t1 * d && Interpolate(lo, hi, t2) == lo + t2 * d;
    MulLeft(d, t1, t2);
    assert t1 * d == d * t1 && t2 * d == d * t2;
  }

  /** Sum of squared deviations from a centre `c`: `sum((v - c)**2 for v in xs)`. */
  function SqDev(xs: seq<real>, c: real): real {
    if xs == [] then 0.0 else (xs[0] - c) * (xs[0] - c) + SqDev(xs[1..], c)
  }

  function SumSq(xs: seq<real>): real {
    if xs == [] then 0.0 else xs[0] * xs[0] + SumSq(xs[1..])
  }

  lemma {:induction false} SqDevNonNegative(xs: seq<real>, c: real)
    ensures SqDev(xs, c) >= 0.0
  {
    if xs != [] {
      SqDevNonNegative(xs[1..], c);
      Square(xs[0] - c);
    }
  }

  lemma Square(d: real)
    ensures d * d >= 0.0
  {
    if d < 0.0 {
      assert d * d == (-d) * (-d);
      MulLeft(-d, 0.0, -d);
    } else {
      MulLeft(d, 0.0, d);
    }
  }

  /** `sum((v - c)**2) == sum(v**2) - 2*c*sum(v) + n*c**2` */
  predicate Expanded(xs: seq<real>, c: real) {
    SqDev(xs, c) == SumSq(xs) - 2.0 * c * Sum(xs) + (|xs| as real) * c * c
  }

  lemma {:induction false} SqDevExpand(xs: seq<real>, c: real)
    ensures Expanded(xs, c)
  {
    if xs != [] {
      var rest := xs[1..];
      SqDevExpand(rest, c);
      ExpandStep(xs[0], c, |rest| as real, SumSq(rest), Sum(rest), SqDev(rest, c),
                 SqDev(xs, c), SumSq(xs), Sum(xs), |xs| as real);
    }
  }

  /** One step of the expansion, over plain reals: `d` is the expansion of the
      tail and the primed quantities add the head `x`. */
  lemma ExpandStep(x: real, c: real, n: real, sq: real, s: real, d: real,
                   d': real, sq': real, s': real, n': real)
    requires d == sq - 2.0 * c * s + n * c * c
    requires d' == (x - c) * (x - c) + d && sq' == x * x + sq && s' == x + s && n' == n + 1.0
    ensures d' == sq' - 2.0 * c * s' + n' * c * c
  {
  }

  /** `len(xs) * (np.mean(xs) - c)**2`. */
  function Spread(xs: seq<real>, c: real): real
    requires xs != []
  {
    (|xs| as real) * (Mean(xs) - c) * (Mean(xs) - c)
  }

  lemma SpreadNonNegative(xs: seq<real>, c: real)
    requires xs != []
    ensures Spread(xs, c) >= 0.0
  {
    var d := Mean(xs) - c;
    Square(d);
    MulLeft(|xs| as real, 0.0, d * d);
    assert (|xs| as real) * d * d == (|xs| as real) * (d * d);
  }

  /** Moving the centre away from the mean adds n times the squared distance:
      the identity behind the between/within split of ANOVA. */
  lemma SqDevAroundMean(xs: seq<real>, c: real)
    requires xs != []
    ensures SqDev(xs, c) == SqDev(xs, Mean(xs)) + Spread(xs, c)
  {
    var m := Mean(xs);
    SqDevExpand(xs, c);
    SqDevExpand(xs, m);
    MeanTimesLength(xs);
    ShiftCentre(SqDev(xs, c), SqDev(xs, m), SumSq(xs), Sum(xs), |xs| as real, c, m);
  }

  lemma MeanTimesLength(xs: seq<real>)
    requires xs != []
    ensures Sum(xs) == (|xs| as real) * Mean(xs)
  {
  }

  /** The centre-shift identity over plain reals: with `s == n * m`, the
      expansions around `c` and around `m` differ by `n * (m - c)**2`. */
  lemma ShiftCentre(dc: real, dm: real, sq: real, s: real, n: real, c: real, m: real)
    requires dc == sq - 2.0 * c * s + n * c * c
    requires dm == sq - 2.0 * m * s + n * m * m
    requires s == n * m
    ensures dc == dm + n * (m - c) * (m - c)
  {
    calc {
      dc - dm;
      (- 2.0 * c * s + n * c * c) - (- 2.0 * m * s + n * m * m);
      { assert 2.0 * c * s == 2.0 * c * (n * m); assert 2.0 * m * s == 2.0 * m * (n * m); }
      - 2.0 * c * (n * m) + n * c * c + 2.0 * m * (n * m) - n * m * m;
      n * (m - c) * (m - c);
    }
  }

  /** Population variance (`np.std(xs) ** 2`, numpy's default ddof = 0). */
  function Variance(xs: seq<real>): (v: real)
    requires xs != []
    ensures v >= 0.0
  {
    SqDevNonNegative(xs, Mean(xs));
    SqDev(xs, Mean(xs)) / (|xs| as real)
  }

  /** Concatenation of a list of groups (`np.concatenate`). */
  function Flatten(gs: seq<seq<real>>): seq<real> {
    if gs == [] then [] else gs[0] + Flatten(gs[1..])
  }

  lemma {:induction false} SumConcat(a: seq<real>, b: seq<real>)
    ensures Sum(a + b) == Sum(a) + Sum(b)
  {
    if a != [] {
      assert (a + b)[1..] == a[1..] + b;
      SumConcat(a[1..], b);
    } else {
      assert a + b == b;
    }
  }

  lemma {:induction false} SqDevConcat(a: seq<real>, b: seq<real>, c: real)
    ensures SqDev(a + b, c) == SqDev(a, c) + SqDev(b, c)
  {
    if a != [] {
      assert (a + b)[1..] == a[1..] + b;
      SqDevConcat(a[1..], b, c);
    } else {
      assert a + b == b;
    }
  }
}
