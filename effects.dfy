/** Effect sizes around the tier-comparison tests: eta-squared per (fps,
    metric) across the content tiers, and Cohen's d per tier pair at the key
    rates. The F and t statistics and their p-values are not modelled. */
module EffectSizes {
  import opened Stats
  import opened Frames

  // ---------------------------------------------------------------------------
  // Eta-squared
  // ---------------------------------------------------------------------------

  predicate AllNonEmpty(gs: seq<seq<real>>) {
    forall i :: 0 <= i < |gs| ==> gs[i] != []
  }

  /** `sum(len(g) * (np.mean(g) - grand_mean)**2 for g in groups)`. */
  function SsBetween(gs: seq<seq<real>>, gm: real): real
    requires AllNonEmpty(gs)
  {
    if gs == [] then 0.0
    else Spread(gs[0], gm) + SsBetween(gs[1..], gm)
  }

  /** The within-group sum of squares, each group about its own mean. */
  function SsWithin(gs: seq<seq<real>>): real
    requires AllNonEmpty(gs)
  {
    if gs == [] then 0.0 else SqDev(gs[0], Mean(gs[0])) + SsWithin(gs[1..])
  }

  lemma {:induction false} SsBetweenNonNegative(gs: seq<seq<real>>, gm: real)
    requires AllNonEmpty(gs)
    ensures SsBetween(gs, gm) >= 0.0
  {
    if gs != [] {
      SsBetweenNonNegative(gs[1..], gm);
      SpreadNonNegative(gs[0], gm);
    }
  }

  lemma {:induction false} SsWithinNonNegative(gs: seq<seq<real>>)
    requires AllNonEmpty(gs)
    ensures SsWithin(gs) >= 0.0
  {
    if gs != [] {
      SsWithinNonNegative(gs[1..]);
      SqDevNonNegative(gs[0], Mean(gs[0]));
    }
  }

  /** The ANOVA decomposition: about any centre, the total sum of squares of
      the pooled values is the within-group part plus the between-group part. */
  lemma {:induction false} TotalSumOfSquaresSplits(gs: seq<seq<real>>, c: real)
    requires AllNonEmpty(gs)
    ensures SqDev(Flatten(gs), c) == SsWithin(gs) + SsBetween(gs, c)
  {
    if gs != [] {
      var g := gs[0];
      var rest := gs[1..];
      TotalSumOfSquaresSplits(rest, c);
      assert Flatten(gs) == g + Flatten(rest);
      SqDevConcat(g, Flatten(rest), c);
      SqDevAroundMean(g, c);
      assert SqDev(g, c) == SqDev(g, Mean(g)) + Spread(g, c);
    }
  }

  lemma {:induction false} FlattenNonEmpty(gs: seq<seq<real>>)
    requires gs != [] && AllNonEmpty(gs)
    ensures Flatten(gs) != []
  {
    assert |Flatten(gs)| >= |gs[0]|;
  }

  /** `ss_between / ss_total if ss_total > 0 else 0`, always within [0, 1]. */
  function EtaSquared(gs: seq<seq<real>>): (eta: real)
    requires gs != [] && AllNonEmpty(gs)
    ensures 0.0 <= eta <= 1.0
    ensures SqDev(Flatten(gs), Mean(Flatten(gs))) == 0.0 ==> eta == 0.0
  {
    FlattenNonEmpty(gs);
    var all := Flatten(gs);
    var gm := Mean(all);
    var ssTotal := SqDev(all, gm);
    var ssBetween := SsBetween(gs, gm);
    TotalSumOfSquaresSplits(gs, gm);
    SsBetweenNonNegative(gs, gm);
    SsWithinNonNegative(gs);
    if ssTotal > 0.0 then
      DivideBounds(ssBetween, ssTotal, 0.0, 1.0);
      ssBetween / ssTotal
    else 0.0
  }

  /** The effect-size label of an eta-squared. */
  datatype EffectSize = Small | Medium | Large

  function Band(eta: real): (e: EffectSize)
    ensures e == Large <==> eta > 0.14
    ensures e == Small <==> eta <= 0.06
  {
    if eta > 0.14 then Large else if eta > 0.06 then Medium else Small
  }

  function Rank(e: EffectSize): nat {
    match e
    case Small => 0
    case Medium => 1
    case Large => 2
  }

  /** A larger eta-squared never gets a smaller label. */
  lemma BandMonotone(a: real, b: real)
    requires a <= b
    ensures Rank(Band(a)) <= Rank(Band(b))
  {
  }

  /** The measured metrics of the ANOVA table. */
  const AnovaMetrics: seq<string> :=
    ["scene_count", "unique_object_count", "person_count_mean", "intensity_mean", "change_score_mean", "temporal_density"]

  /** One row of `anova_results`, without the F statistic and p-value. */
  datatype AnovaRow = AnovaRow(fps: real, metric: string, etaSquared: real, effectSize: EffectSize)

  /** `fps_df[fps_df['tier'] == t][metric].dropna().values` per tier. */
  function TierGroups(fpsRows: seq<Sample>, metric: string, tiers: seq<string>): (gs: seq<seq<real>>)
    ensures |gs| == |tiers|
    ensures forall i :: 0 <= i < |tiers| ==> gs[i] == Present(Where(fpsRows, TierIs(tiers[i])), metric)
  {
    seq(|tiers|, i requires 0 <= i < |tiers| => Present(Where(fpsRows, TierIs(tiers[i])), metric))
  }

  /** `[g for g in groups if len(g) > 0]`. */
  function NonEmptyGroups(gs: seq<seq<real>>): (r: seq<seq<real>>)
    ensures AllNonEmpty(r)
    ensures |r| <= |gs|
    ensures forall g :: g in r <==> g in gs && g != []
  {
    if gs == [] then []
    else (if gs[0] != [] then [gs[0]] else []) + NonEmptyGroups(gs[1..])
  }

  /** The group filter keeps a single group exactly when it is non-empty, and
      distributes over concatenation: together these fix the kept groups,
      their order and their multiplicity. */
  lemma {:induction false} NonEmptyGroupsAppend(a: seq<seq<real>>, b: seq<seq<real>>)
    ensures |a| == 1 ==> NonEmptyGroups(a) == (if a[0] != [] then a else [])
    ensures NonEmptyGroups(a + b) == NonEmptyGroups(a) + NonEmptyGroups(b)
  {
    if a == [] {
      assert a + b == b;
    } else {
      assert (a + b)[0] == a[0];
      assert (a + b)[1..] == a[1..] + b;
      NonEmptyGroupsAppend(a[1..], b);
      if |a| == 1 {
        assert a[1..] == [];
      }
    }
  }

  /** The ANOVA row of one (fps, metric), present only with two or more
      non-empty tier groups. */
  function AnovaCell(fpsRows: seq<Sample>, fps: real, metric: string): seq<AnovaRow> {
    var gs := NonEmptyGroups(TierGroups(fpsRows, metric, ContentTiers));
    if |gs| < 2 then []
    else
      var eta := EtaSquared(gs);
      [AnovaRow(fps, metric, eta, Band(eta))]
  }

  function AnovaMetricsRows(fpsRows: seq<Sample>, fps: real, ms: seq<string>): seq<AnovaRow> {
    if ms == [] then []
    else AnovaMetricsRows(fpsRows, fps, ms[..|ms| - 1]) + AnovaCell(fpsRows, fps, ms[|ms| - 1])
  }

  function AnovaLevels(rows: seq<Sample>, levels: seq<real>): seq<AnovaRow> {
    if levels == [] then []
    else
      var fps := levels[|levels| - 1];
      AnovaLevels(rows, levels[..|levels| - 1]) + AnovaMetricsRows(Where(rows, FpsIs(fps)), fps, AnovaMetrics)
  }

  /** The ANOVA table over the sorted distinct rates. */
  function AnovaTable(rows: seq<Sample>): seq<AnovaRow> {
    AnovaLevels(rows, SortedDistinct(FpsOf(rows)))
  }

  /** One (fps, metric) cell: the tier groups, their filter and eta-squared. */
  method AnovaStep(fpsRows: seq<Sample>, fps: real, metric: string) returns (out: seq<AnovaRow>)
    ensures out == AnovaCell(fpsRows, fps, metric)
  {
    var groups := NonEmptyGroups(TierGroups(fpsRows, metric, ContentTiers));
    out := [];
    if |groups| >= 2 {
      var eta := EtaSquared(groups);
      out := [AnovaRow(fps, metric, eta, Band(eta))];
    }
  }

  lemma AnovaMetricsStep(fpsRows: seq<Sample>, fps: real, ms: seq<string>, k: nat)
    requires k < |ms|
    ensures AnovaMetricsRows(fpsRows, fps, ms[..k + 1]) == AnovaMetricsRows(fpsRows, fps, ms[..k]) + AnovaCell(fpsRows, fps, ms[k])
  {
    assert ms[..k + 1][..k] == ms[..k];
  }

  method AnovaLevel(fpsRows: seq<Sample>, fps: real, ms: seq<string>) returns (out: seq<AnovaRow>)
    ensures out == AnovaMetricsRows(fpsRows, fps, ms)
  {
    out := [];
    var k := 0;
    while k < |ms|
      invariant 0 <= k <= |ms|
      invariant out == AnovaMetricsRows(fpsRows, fps, ms[..k])
    {
      var more := AnovaStep(fpsRows, fps, ms[k]);
      AnovaMetricsStep(fpsRows, fps, ms, k);
      out := out + more;
      k := k + 1;
    }
    assert ms[..k] == ms;
  }

  /** `run_anova_tests`. */
  method RunAnovaTests(df: Frame) returns (results: seq<AnovaRow>)
    ensures results == AnovaTable(df.rows)
  {
    var levels := SortedDistinct(FpsOf(df.rows));
    results := [];
    var i := 0;
    while i < |levels|
      invariant 0 <= i <= |levels|
      invariant results == AnovaLevels(df.rows, levels[..i])
    {
      var fpsDf := Where(df.rows, FpsIs(levels[i]));
      var more := AnovaLevel(fpsDf, levels[i], AnovaMetrics);
      results := results + more;
      assert levels[..i + 1][..i] == levels[..i];
      i := i + 1;
    }
    assert levels[..i] == levels;
  }

  lemma {:induction false} AnovaMetricsRowsDescribed(fpsRows: seq<Sample>, fps: real, ms: seq<string>)
    ensures forall r :: r in AnovaMetricsRows(fpsRows, fps, ms) ==>
              r.fps == fps && r.metric in ms && 0.0 <= r.etaSquared <= 1.0 && r.effectSize == Band(r.etaSquared) &&
              |NonEmptyGroups(TierGroups(fpsRows, r.metric, ContentTiers))| >= 2
  {
    if ms != [] {
      AnovaMetricsRowsDescribed(fpsRows, fps, ms[..|ms| - 1]);
      assert forall m :: m in ms[..|ms| - 1] ==> m in ms;
    }
  }

  lemma {:induction false} AnovaLevelsDescribed(rows: seq<Sample>, levels: seq<real>)
    ensures forall r :: r in AnovaLevels(rows, levels) ==>
              r.fps in levels && r.metric in AnovaMetrics && 0.0 <= r.etaSquared <= 1.0 &&
              r.effectSize == Band(r.etaSquared) &&
              |NonEmptyGroups(TierGroups(Where(rows, FpsIs(r.fps)), r.metric, ContentTiers))| >= 2
  {
    if levels != [] {
      var fps := levels[|levels| - 1];
      AnovaLevelsDescribed(rows, levels[..|levels| - 1]);
      AnovaMetricsRowsDescribed(Where(rows, FpsIs(fps)), fps, AnovaMetrics);
      assert forall f :: f in levels[..|levels| - 1] ==> f in levels;
    }
  }

  /** Every ANOVA row is at a sampled rate, for one of the six metrics, has
      at least two non-empty tier groups behind it, an eta-squared within
      [0, 1] and the label of its band. */
  lemma AnovaTableDescribed(rows: seq<Sample>)
    ensures forall r :: r in AnovaTable(rows) ==>
              r.fps in FpsOf(rows) && r.metric in AnovaMetrics && 0.0 <= r.etaSquared <= 1.0 &&
              r.effectSize == Band(r.etaSquared) &&
              |NonEmptyGroups(TierGroups(Where(rows, FpsIs(r.fps)), r.metric, ContentTiers))| >= 2
  {
    AnovaLevelsDescribed(rows, SortedDistinct(FpsOf(rows)));
  }

  // ---------------------------------------------------------------------------
  // Cohen's d
  // ---------------------------------------------------------------------------

  /** `((n1 - 1) * np.std(g1)**2 + (n2 - 1) * np.std(g2)**2) / (n1 + n2 - 2)`,
      with numpy's population variance. */
  function PooledVariance(g1: seq<real>, g2: seq<real>): (v: real)
    requires |g1| > 1 && |g2| > 1
    ensures v >= 0.0
  {
    var w1 := (|g1| - 1) as real;
    var w2 := (|g2| - 1) as real;
    var num := w1 * Variance(g1) + w2 * Variance(g2);
    MulLeft(w1, 0.0, Variance(g1));
    MulLeft(w2, 0.0, Variance(g2));
    DivideBounds(num, w1 + w2, 0.0, num / (w1 + w2));
    num / (w1 + w2)
  }

  /** `diff / spread if spread > 0 else 0`. */
  function Standardised(diff: real, spread: real): (d: real)
    ensures spread <= 0.0 ==> d == 0.0
    ensures spread > 0.0 ==> d * spread == diff
    ensures spread > 0.0 ==> (d > 0.0 <==> diff > 0.0) && (d == 0.0 <==> diff == 0.0)
  {
    if spread > 0.0 then QuotientSign(diff, spread); diff / spread else 0.0
  }

  lemma QuotientSign(diff: real, s: real)
    requires s > 0.0
    ensures (diff / s) * s == diff
    ensures diff / s > 0.0 <==> diff > 0.0
    ensures diff / s == 0.0 <==> diff == 0.0
  {
    var d := diff / s;
    assert d * s == diff;
    if d > 0.0 { MulLeft(s, 0.0, d); }
    if d < 0.0 { MulLeft(s, d, 0.0); }
  }

  /** Cohen's d, `(mean1 - mean2) / pooled_std if pooled_std > 0 else 0`,
      with the square root passed in. */
  function CohensD(g1: seq<real>, g2: seq<real>, sqrt: real -> real): real
    requires |g1| > 1 && |g2| > 1
  {
    Standardised(Mean(g1) - Mean(g2), sqrt(PooledVariance(g1, g2)))
  }

  /** The zero guard: with no spread (and `sqrt(0) == 0`) d is 0; otherwise d
      is the mean difference in pooled standard deviations, of the same sign. */
  lemma CohensDGuard(g1: seq<real>, g2: seq<real>, sqrt: real -> real)
    requires |g1| > 1 && |g2| > 1
    ensures sqrt(0.0) == 0.0 && PooledVariance(g1, g2) == 0.0 ==> CohensD(g1, g2, sqrt) == 0.0
    ensures sqrt(PooledVariance(g1, g2)) <= 0.0 ==> CohensD(g1, g2, sqrt) == 0.0
    ensures sqrt(PooledVariance(g1, g2)) > 0.0 ==>
              (CohensD(g1, g2, sqrt) > 0.0 <==> Mean(g1) > Mean(g2)) &&
              (CohensD(g1, g2, sqrt) == 0.0 <==> Mean(g1) == Mean(g2))
  {
  }

  /** The rates and metrics of the pairwise comparisons. */
  const KeyFps: seq<real> := [1.0, 10.0, 24.0, 60.0]
  const PairMetrics: seq<string> := ["scene_count", "unique_object_count", "person_count_mean", "intensity_mean"]
  const TierPairs: seq<(string, string)> :=
    [("cinema", "produced_digital"), ("cinema", "web_ugc"), ("produced_digital", "web_ugc")]

  /** One row of `pairwise_comparisons`, without the t statistic and
      p-value; `comparison` is the pair of tiers. */
  datatype PairRow = PairRow(fps: real, metric: string, comparison: (string, string), cohensD: real, meanDiff: real)

  function TierValues(fpsRows: seq<Sample>, tier: string, metric: string): seq<real> {
    Present(Where(fpsRows, TierIs(tier)), metric)
  }

  /** The row of one pair, present only when both groups hold more than one value. */
  function PairCell(fpsRows: seq<Sample>, fps: real, metric: string, pair: (string, string), sqrt: real -> real): seq<PairRow> {
    var g1 := TierValues(fpsRows, pair.0, metric);
    var g2 := TierValues(fpsRows, pair.1, metric);
    if |g1| > 1 && |g2| > 1 then [PairRow(fps, metric, pair, CohensD(g1, g2, sqrt), Mean(g1) - Mean(g2))]
    else []
  }

  function PairsRows(fpsRows: seq<Sample>, fps: real, metric: string, pairs: seq<(string, string)>, sqrt: real -> real): seq<PairRow> {
    if pairs == [] then []
    else PairsRows(fpsRows, fps, metric, pairs[..|pairs| - 1], sqrt) + PairCell(fpsRows, fps, metric, pairs[|pairs| - 1], sqrt)
  }

  function PairMetricsRows(fpsRows: seq<Sample>, fps: real, ms: seq<string>, sqrt: real -> real): seq<PairRow> {
    if ms == [] then []
    else PairMetricsRows(fpsRows, fps, ms[..|ms| - 1], sqrt) + PairsRows(fpsRows, fps, ms[|ms| - 1], TierPairs, sqrt)
  }

  function PairLevels(rows: seq<Sample>, levels: seq<real>, sqrt: real -> real): seq<PairRow> {
    if levels == [] then []
    else
      var fps := levels[|levels| - 1];
      PairLevels(rows, levels[..|levels| - 1], sqrt) + PairMetricsRows(Where(rows, FpsIs(fps)), fps, PairMetrics, sqrt)
  }

  /** The pairwise table over the key rates. */
  function PairwiseTable(rows: seq<Sample>, sqrt: real -> real): seq<PairRow> {
    PairLevels(rows, KeyFps, sqrt)
  }

  method PairStep(fpsRows: seq<Sample>, fps: real, metric: string, pair: (string, string), sqrt: real -> real)
    returns (out: seq<PairRow>)
    ensures out == PairCell(fpsRows, fps, metric, pair, sqrt)
  {
    var g1 := TierValues(fpsRows, pair.0, metric);
    var g2 := TierValues(fpsRows, pair.1, metric);
    out := [];
    if |g1| > 1 && |g2| > 1 {
      var pooledStd := sqrt(PooledVariance(g1, g2));
      var cohensD := 0.0;
      if pooledStd > 0.0 {
        cohensD := (Mean(g1) - Mean(g2)) / pooledStd;
      }
      assert cohensD == CohensD(g1, g2, sqrt);
      out := [PairRow(fps, metric, pair, cohensD, Mean(g1) - Mean(g2))];
    }
  }

  lemma PairsStep(fpsRows: seq<Sample>, fps: real, metric: string, pairs: seq<(string, string)>, k: nat, sqrt: real -> real)
    requires k < |pairs|
    ensures PairsRows(fpsRows, fps, metric, pairs[..k + 1], sqrt)
         == PairsRows(fpsRows, fps, metric, pairs[..k], sqrt) + PairCell(fpsRows, fps, metric, pairs[k], sqrt)
  {
    assert pairs[..k + 1][..k] == pairs[..k];
  }

  method PairsLoop(fpsRows: seq<Sample>, fps: real, metric: string, pairs: seq<(string, string)>, sqrt: real -> real)
    returns (out: seq<PairRow>)
    ensures out == PairsRows(fpsRows, fps, metric, pairs, sqrt)
  {
    out := [];
    var k := 0;
    while k < |pairs|
      invariant 0 <= k <= |pairs|
      invariant out == PairsRows(fpsRows, fps, metric, pairs[..k], sqrt)
    {
      var more := PairStep(fpsRows, fps, metric, pairs[k], sqrt);
      PairsStep(fpsRows, fps, metric, pairs, k, sqrt);
      out := out + more;
      k := k + 1;
    }
    assert pairs[..k] == pairs;
  }

  lemma PairMetricsStep(fpsRows: seq<Sample>, fps: real, ms: seq<string>, k: nat, sqrt: real -> real)
    requires k < |ms|
    ensures PairMetricsRows(fpsRows, fps, ms[..k + 1], sqrt)
         == PairMetricsRows(fpsRows, fps, ms[..k], sqrt) + PairsRows(fpsRows, fps, ms[k], TierPairs, sqrt)
  {
    assert ms[..k + 1][..k] == ms[..k];
  }

  method PairMetricsLoop(fpsRows: seq<Sample>, fps: real, ms: seq<string>, sqrt: real -> real)
    returns (out: seq<PairRow>)
    ensures out == PairMetricsRows(fpsRows, fps, ms, sqrt)
  {
    out := [];
    var k := 0;
    while k < |ms|
      invariant 0 <= k <= |ms|
      invariant out == PairMetricsRows(fpsRows, fps, ms[..k], sqrt)
    {
      var more := PairsLoop(fpsRows, fps, ms[k], TierPairs, sqrt);
      PairMetricsStep(fpsRows, fps, ms, k, sqrt);
      out := out + more;
      k := k + 1;
    }
    assert ms[..k] == ms;
  }

  /** `run_pairwise_comparisons`. */
  method RunPairwiseComparisons(df: Frame, sqrt: real -> real) returns (results: seq<PairRow>)
    ensures results == PairwiseTable(df.rows, sqrt)
  {
    results := PairLevelsLoop(df.rows, KeyFps, sqrt);
  }

  method PairLevelsLoop(rows: seq<Sample>, levels: seq<real>, sqrt: real -> real) returns (out: seq<PairRow>)
    ensures out == PairLevels(rows, levels, sqrt)
  {
    out := [];
    var i := 0;
    while i < |levels|
      invariant 0 <= i <= |levels|
      invariant out == PairLevels(rows, levels[..i], sqrt)
    {
      var fpsDf := Where(rows, FpsIs(levels[i]));
      var more := PairMetricsLoop(fpsDf, levels[i], PairMetrics, sqrt);
      assert levels[..i + 1][..i] == levels[..i];
      out := out + more;
      i := i + 1;
    }
    assert levels[..i] == levels;
  }

  lemma {:induction false} PairsRowsDescribed(fpsRows: seq<Sample>, fps: real, metric: string, pairs: seq<(string, string)>, sqrt: real -> real)
    ensures forall r :: r in PairsRows(fpsRows, fps, metric, pairs, sqrt) ==>
              r.fps == fps && r.metric == metric && r.comparison in pairs &&
              var g1 := TierValues(fpsRows, r.comparison.0, metric);
              var g2 := TierValues(fpsRows, r.comparison.1, metric);
              |g1| > 1 && |g2| > 1 && r.meanDiff == Mean(g1) - Mean(g2) && r.cohensD == CohensD(g1, g2, sqrt)
  {
    if pairs != [] {
      PairsRowsDescribed(fpsRows, fps, metric, pairs[..|pairs| - 1], sqrt);
      assert forall p :: p in pairs[..|pairs| - 1] ==> p in pairs;
    }
  }

  lemma {:induction false} PairMetricsRowsDescribed(fpsRows: seq<Sample>, fps: real, ms: seq<string>, sqrt: real -> real)
    ensures forall r :: r in PairMetricsRows(fpsRows, fps, ms, sqrt) ==>
              r.fps == fps && r.metric in ms && r.comparison in TierPairs &&
              var g1 := TierValues(fpsRows, r.comparison.0, r.metric);
              var g2 := TierValues(fpsRows, r.comparison.1, r.metric);
              |g1| > 1 && |g2| > 1 && r.meanDiff == Mean(g1) - Mean(g2) && r.cohensD == CohensD(g1, g2, sqrt)
  {
    if ms != [] {
      PairMetricsRowsDescribed(fpsRows, fps, ms[..|ms| - 1], sqrt);
      PairsRowsDescribed(fpsRows, fps, ms[|ms| - 1], TierPairs, sqrt);
      assert forall m :: m in ms[..|ms| - 1] ==> m in ms;
    }
  }

  lemma {:induction false} PairLevelsDescribed(rows: seq<Sample>, levels: seq<real>, sqrt: real -> real)
    ensures forall r :: r in PairLevels(rows, levels, sqrt) ==>
              r.fps in levels && r.metric in PairMetrics && r.comparison in TierPairs &&
              var g1 := TierValues(Where(rows, FpsIs(r.fps)), r.comparison.0, r.metric);
              var g2 := TierValues(Where(rows, FpsIs(r.fps)), r.comparison.1, r.metric);
              |g1| > 1 && |g2| > 1 && r.meanDiff == Mean(g1) - Mean(g2) && r.cohensD == CohensD(g1, g2, sqrt)
  {
    if levels != [] {
      var fps := levels[|levels| - 1];
      PairLevelsDescribed(rows, levels[..|levels| - 1], sqrt);
      PairMetricsRowsDescribed(Where(rows, FpsIs(fps)), fps, PairMetrics, sqrt);
      assert forall f :: f in levels[..|levels| - 1] ==> f in levels;
    }
  }

  /** Every pairwise row is at a key rate, for one of the four metrics and
      one of the three tier pairs, both of whose groups hold more than one
      value; it carries their mean difference and their Cohen's d. */
  lemma PairwiseTableDescribed(rows: seq<Sample>, sqrt: real -> real)
    ensures forall r :: r in PairwiseTable(rows, sqrt) ==>
              r.fps in KeyFps && r.metric in PairMetrics && r.comparison in TierPairs &&
              var g1 := TierValues(Where(rows, FpsIs(r.fps)), r.comparison.0, r.metric);
              var g2 := TierValues(Where(rows, FpsIs(r.fps)), r.comparison.1, r.metric);
              |g1| > 1 && |g2| > 1 && r.meanDiff == Mean(g1) - Mean(g2) && r.cohensD == CohensD(g1, g2, sqrt)
  {
    PairLevelsDescribed(rows, KeyFps, sqrt);
  }
}
