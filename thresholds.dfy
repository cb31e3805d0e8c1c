/** FPS thresholds per (tier, metric) curve and the publication summary that
    averages them per tier. */
module Thresholds {
  import opened Wrappers
  import opened Stats
  import opened Frames
  import opened Scans

  /** The metrics whose thresholds are derived. */
  const ThresholdMetrics: seq<string> :=
    ["scene_count", "unique_object_count", "person_count_mean", "intensity_mean", "change_score_mean"]

  /** `min_val + 0.9 * (max_val - min_val)`. */
  function Target90(lo: real, hi: real): (t: real)
    requires lo <= hi
    ensures lo <= t <= hi
  {
    lo + 0.9 * (hi - lo)
  }

  /** The 90% threshold of an ascending curve: the rate of the first point
      whose mean reaches 90% of the way from the least mean to the greatest;
      on a constant curve, the lowest sampled rate. */
  function Fps90(c: seq<Point>): real
    requires c != []
  {
    var lo := Min(Means(c));
    var hi := Max(Means(c));
    var last := c[|c| - 1].fps;
    if hi > lo then
      match FirstAtLeast(Means(c), Target90(lo, hi))
      case Some(k) => c[k].fps
      case None => last
    else c[0].fps
  }

  /** The diminishing-returns threshold: the rate of the first point whose
      relative change from the previous one is below 5%, or the highest rate. */
  function DiminishingFps(c: seq<Point>): real
    requires c != []
  {
    StableFps(Means(c), Fpses(c))
  }

  /** When the curve is not constant, `optimal_fps_90` is the rate of a point
      that reaches the target, every earlier point falls short of it, and the
      for/else fallback is never taken. */
  lemma Fps90FirstReaching(c: seq<Point>)
    requires c != []
    requires Min(Means(c)) < Max(Means(c))
    ensures var t := Target90(Min(Means(c)), Max(Means(c)));
            FirstAtLeast(Means(c), t).Some? &&
            exists k :: 0 <= k < |c| && Fps90(c) == c[k].fps && c[k].mean >= t &&
                        forall j :: 0 <= j < k ==> c[j].mean < t
  {
    var ms := Means(c);
    var t := Target90(Min(ms), Max(ms));
    var top :| 0 <= top < |ms| && ms[top] == Max(ms);
    FirstAtLeastWithin(ms, t, top);
    var k := FirstAtLeast(ms, t).value;
    assert Fps90(c) == c[k].fps;
  }

  /** On a constant curve `optimal_fps_90` is the lowest sampled rate. */
  lemma Fps90Constant(c: seq<Point>)
    requires c != []
    requires Min(Means(c)) == Max(Means(c))
    ensures Fps90(c) == c[0].fps
  {
  }

  /** The 90% threshold is one of the curve's sampled rates, so on an
      ascending curve it lies between the lowest and highest rate. */
  lemma Fps90Sampled(c: seq<Point>)
    requires c != [] && Ascending(c)
    ensures exists k :: 0 <= k < |c| && Fps90(c) == c[k].fps
    ensures c[0].fps <= Fps90(c) <= c[|c| - 1].fps
  {
    var lo := Min(Means(c));
    var hi := Max(Means(c));
    if hi > lo {
      Fps90FirstReaching(c);
    }
    var k :| 0 <= k < |c| && Fps90(c) == c[k].fps;
    assert k > 0 ==> c[0].fps < c[k].fps;
    assert k < |c| - 1 ==> c[k].fps < c[|c| - 1].fps;
  }

  /** The diminishing-returns threshold of an ascending curve with at least
      two points is never its lowest rate. */
  lemma DiminishingAboveLowest(c: seq<Point>)
    requires |c| >= 2 && Ascending(c)
    ensures c[0].fps < DiminishingFps(c)
  {
    StableFpsAboveLowest(Means(c), Fpses(c));
  }

  /** One row of `fps_thresholds`. */
  datatype ThresholdRow = ThresholdRow(
    tier: string,
    metric: string,
    optimalFps90: real,
    optimalFpsDiminishing: real,
    maxValue: real,
    minValue: real,
    range: real)

  function ThresholdOf(tier: string, metric: string, c: seq<Point>): ThresholdRow
    requires c != []
  {
    var hi := Max(Means(c));
    var lo := Min(Means(c));
    ThresholdRow(tier, metric, Fps90(c), DiminishingFps(c), hi, lo, hi - lo)
  }

  /** The threshold row of a curve carries the curve's extreme means and a
      non-negative range between them. */
  lemma ThresholdRange(tier: string, metric: string, c: seq<Point>)
    requires c != []
    ensures var r := ThresholdOf(tier, metric, c);
            r.minValue <= r.maxValue && r.range == r.maxValue - r.minValue && r.range >= 0.0 &&
            forall i :: 0 <= i < |c| ==> r.minValue <= c[i].mean <= r.maxValue
  {
    var ms := Means(c);
    assert ms[0] == c[0].mean;
    assert Min(ms) <= ms[0] <= Max(ms);
  }

  /** The curve of one metric within one tier. */
  function TierCurve(rows: seq<Sample>, tier: string, metric: string): seq<Point> {
    Curve(Where(rows, TierIs(tier)), metric)
  }

  /** The threshold row of one metric of one tier, absent below two rates. */
  function MetricThreshold(rows: seq<Sample>, tier: string, metric: string): seq<ThresholdRow> {
    var c := TierCurve(rows, tier, metric);
    if |c| < 2 then [] else [ThresholdOf(tier, metric, c)]
  }

  function MetricThresholds(rows: seq<Sample>, tier: string, ms: seq<string>): seq<ThresholdRow> {
    if ms == [] then []
    else MetricThresholds(rows, tier, ms[..|ms| - 1]) + MetricThreshold(rows, tier, ms[|ms| - 1])
  }

  function TierThresholds(rows: seq<Sample>, tiers: seq<string>, ms: seq<string>): seq<ThresholdRow> {
    if tiers == [] then []
    else TierThresholds(rows, tiers[..|tiers| - 1], ms) + MetricThresholds(rows, tiers[|tiers| - 1], ms)
  }

  /** The whole `fps_thresholds` table, tiers in order of first appearance. */
  function ThresholdTable(rows: seq<Sample>): seq<ThresholdRow> {
    TierThresholds(rows, Distinct(TiersOf(rows)), ThresholdMetrics)
  }

  /** The 90% and diminishing-returns scans of one curve. */
  method CurveThresholds(tier: string, metric: string, c: seq<Point>) returns (row: ThresholdRow)
    requires |c| >= 2
    ensures row == ThresholdOf(tier, metric, c)
  {
    var means := Means(c);
    var maxVal := Max(means);
    var minVal := Min(means);
    var optimal90 := c[0].fps;
    if maxVal > minVal {
      var k := ScanAtLeast(means, Target90(minVal, maxVal));
      var last := c[|c| - 1].fps;
      optimal90 := if k.Some? then c[k.value].fps else last;
    }
    var diminishing := ScanStable(means, Fpses(c));
    row := ThresholdRow(tier, metric, optimal90, diminishing, maxVal, minVal, maxVal - minVal);
  }

  lemma MetricThresholdsStep(rows: seq<Sample>, tier: string, ms: seq<string>, k: nat)
    requires k < |ms|
    ensures MetricThresholds(rows, tier, ms[..k + 1]) == MetricThresholds(rows, tier, ms[..k]) + MetricThreshold(rows, tier, ms[k])
  {
    assert ms[..k + 1][..k] == ms[..k];
  }

  /** One metric of one tier: the curve's thresholds, or nothing below two rates. */
  method MetricStep(rows: seq<Sample>, tier: string, metric: string) returns (out: seq<ThresholdRow>)
    ensures out == MetricThreshold(rows, tier, metric)
  {
    var c := TierCurve(rows, tier, metric);
    out := [];
    if |c| >= 2 {
      var row := CurveThresholds(tier, metric, c);
      out := [row];
    }
  }

  /** The loop over the metrics of one tier, skipping curves below two rates. */
  method TierLoop(rows: seq<Sample>, tier: string, ms: seq<string>) returns (out: seq<ThresholdRow>)
    ensures out == MetricThresholds(rows, tier, ms)
  {
    out := [];
    var k := 0;
    while k < |ms|
      invariant 0 <= k <= |ms|
      invariant out == MetricThresholds(rows, tier, ms[..k])
    {
      var more := MetricStep(rows, tier, ms[k]);
      MetricThresholdsStep(rows, tier, ms, k);
      out := out + more;
      k := k + 1;
    }
    assert ms[..k] == ms;
  }

  /** `analyze_fps_thresholds`. */
  method AnalyzeFpsThresholds(df: Frame) returns (results: seq<ThresholdRow>)
    ensures results == ThresholdTable(df.rows)
  {
    results := ThresholdLoop(df.rows, Distinct(TiersOf(df.rows)), ThresholdMetrics);
  }

  /** The loop over the tiers, each contributing its metrics' rows in turn. */
  method ThresholdLoop(rows: seq<Sample>, tiers: seq<string>, ms: seq<string>) returns (results: seq<ThresholdRow>)
    ensures results == TierThresholds(rows, tiers, ms)
  {
    results := [];
    var i := 0;
    while i < |tiers|
      invariant 0 <= i <= |tiers|
      invariant results == TierThresholds(rows, tiers[..i], ms)
    {
      var more := TierLoop(rows, tiers[i], ms);
      results := results + more;
      assert tiers[..i + 1][..i] == tiers[..i];
      i := i + 1;
    }
    assert tiers[..i] == tiers;
  }

  lemma {:induction false} MetricThresholdsDescribed(rows: seq<Sample>, tier: string, ms: seq<string>)
    ensures forall r :: r in MetricThresholds(rows, tier, ms) ==>
              r.tier == tier && r.metric in ms && |TierCurve(rows, tier, r.metric)| >= 2 &&
              r == ThresholdOf(tier, r.metric, TierCurve(rows, tier, r.metric))
  {
    if ms != [] {
      MetricThresholdsDescribed(rows, tier, ms[..|ms| - 1]);
      assert forall m :: m in ms[..|ms| - 1] ==> m in ms;
    }
  }

  lemma {:induction false} TierThresholdsDescribed(rows: seq<Sample>, tiers: seq<string>, ms: seq<string>)
    ensures forall r :: r in TierThresholds(rows, tiers, ms) ==>
              r.tier in tiers && r.metric in ms && |TierCurve(rows, r.tier, r.metric)| >= 2 &&
              r == ThresholdOf(r.tier, r.metric, TierCurve(rows, r.tier, r.metric))
  {
    if tiers != [] {
      TierThresholdsDescribed(rows, tiers[..|tiers| - 1], ms);
      MetricThresholdsDescribed(rows, tiers[|tiers| - 1], ms);
      assert forall t :: t in tiers[..|tiers| - 1] ==> t in tiers;
    }
  }

  /** Every threshold row comes from a tier of the corpus and one of the five
      metrics whose curve has at least two rates, and is that curve's
      thresholds; hence its diminishing-returns rate is above the curve's
      lowest rate. */
  lemma ThresholdTableDescribed(rows: seq<Sample>)
    ensures forall r :: r in ThresholdTable(rows) ==>
              r.tier in TiersOf(rows) && r.metric in ThresholdMetrics &&
              |TierCurve(rows, r.tier, r.metric)| >= 2 &&
              r == ThresholdOf(r.tier, r.metric, TierCurve(rows, r.tier, r.metric)) &&
              TierCurve(rows, r.tier, r.metric)[0].fps < r.optimalFpsDiminishing
  {
    TierThresholdsDescribed(rows, Distinct(TiersOf(rows)), ThresholdMetrics);
    forall r | r in ThresholdTable(rows)
      ensures TierCurve(rows, r.tier, r.metric)[0].fps < r.optimalFpsDiminishing
    {
      DiminishingAboveLowest(TierCurve(rows, r.tier, r.metric));
    }
  }

  /** A curve sampled at 1, 10, 24 and 60 FPS rising 2, 8, 9, 9.2 reaches its
      90% target (8.48) at 24 FPS and levels off (a 2.2% change) at 60 FPS. */
  lemma ExampleCurve()
    ensures var c := [Point(1.0, 2.0), Point(10.0, 8.0), Point(24.0, 9.0), Point(60.0, 9.2)];
            Fps90(c) == 24.0 && DiminishingFps(c) == 60.0
  {
    var c := [Point(1.0, 2.0), Point(10.0, 8.0), Point(24.0, 9.0), Point(60.0, 9.2)];
    var ms := [2.0, 8.0, 9.0, 9.2];
    assert Means(c) == ms;
    ExampleExtremes(ms);
    ExampleScans(ms);
  }

  lemma ExampleExtremes(ms: seq<real>)
    requires ms == [2.0, 8.0, 9.0, 9.2]
    ensures Min(ms) == 2.0 && Max(ms) == 9.2
  {
    assert Min(ms) <= ms[0] && Min(ms) in ms;
    assert Max(ms) >= ms[3] && Max(ms) in ms;
  }

  lemma ExampleScans(ms: seq<real>)
    requires ms == [2.0, 8.0, 9.0, 9.2]
    ensures FirstAtLeast(ms, Target90(2.0, 9.2)) == Some(2)
    ensures FirstSteady(ms) == Some(3)
  {
    var t := Target90(2.0, 9.2);
    assert t == 8.48;
    assert FirstAtLeastFrom(ms, t, 2) == Some(2);
    assert FirstAtLeastFrom(ms, t, 1) == Some(2);
    assert FirstAtLeastFrom(ms, t, 0) == Some(2);
    assert Steady(ms[2], ms[3]) by { assert Abs(ms[3] - ms[2]) == 0.2; }
    assert !Steady(ms[1], ms[2]) by { assert Abs(ms[2] - ms[1]) == 1.0; }
    assert !Steady(ms[0], ms[1]) by { assert Abs(ms[1] - ms[0]) == 6.0; }
    assert FirstSteadyFrom(ms, 3) == Some(3);
    assert FirstSteadyFrom(ms, 2) == Some(3);
  }

  // ---------------------------------------------------------------------------
  // Publication summary
  // ---------------------------------------------------------------------------

  /** Python's `max(a, b)`: the first argument unless the second is greater. */
  function PyMax(a: real, b: real): (m: real)
    ensures m >= a && m >= b && (m == a || m == b)
  {
    if b > a then b else a
  }

  /** A pandas column mean: `None` (NaN) over no rows. */
  function ColumnMean(xs: seq<real>): (m: Option<real>)
    ensures m.None? <==> xs == []
    ensures m.Some? ==> Min(xs) <= m.value <= Max(xs)
  {
    if xs == [] then None else MeanBetween(xs); Some(Mean(xs))
  }

  /** One row of `publication_summary`. */
  datatype SummaryRow = SummaryRow(
    tier: string,
    videos: nat,
    records: nat,
    avg90: Option<real>,
    avgDiminishing: Option<real>,
    recommended: Option<real>)

  function TierRowsOf(table: seq<ThresholdRow>, tier: string): (r: seq<ThresholdRow>)
    ensures forall x :: x in r <==> x in table && x.tier == tier
  {
    if table == [] then []
    else (if table[0].tier == tier then [table[0]] else []) + TierRowsOf(table[1..], tier)
  }

  function Fps90s(ts: seq<ThresholdRow>): (r: seq<real>)
    ensures |r| == |ts| && forall i :: 0 <= i < |ts| ==> r[i] == ts[i].optimalFps90
  {
    seq(|ts|, i requires 0 <= i < |ts| => ts[i].optimalFps90)
  }

  function DiminishingFpss(ts: seq<ThresholdRow>): (r: seq<real>)
    ensures |r| == |ts| && forall i :: 0 <= i < |ts| ==> r[i] == ts[i].optimalFpsDiminishing
  {
    seq(|ts|, i requires 0 <= i < |ts| => ts[i].optimalFpsDiminishing)
  }

  /** `max(avg_90pct, avg_diminishing)`; NaN in the first argument wins, as
      Python's `max` keeps its first argument when nothing compares greater. */
  function Recommended(avg90: Option<real>, avgDiminishing: Option<real>): Option<real> {
    match avg90
    case None => None
    case Some(a) =>
      match avgDiminishing
      case None => Some(a)
      case Some(b) => Some(PyMax(a, b))
  }

  function SummaryOf(rows: seq<Sample>, table: seq<ThresholdRow>, tier: string): SummaryRow {
    var ts := TierRowsOf(table, tier);
    var tierRows := Where(rows, TierIs(tier));
    var avg90 := ColumnMean(Fps90s(ts));
    var avgDim := ColumnMean(DiminishingFpss(ts));
    SummaryRow(tier, |Distinct(VideosOf(tierRows))|, |tierRows|, avg90, avgDim, Recommended(avg90, avgDim))
  }

  /** The summary rows of the given tiers, one per tier and in their order. */
  function SummaryRows(rows: seq<Sample>, table: seq<ThresholdRow>, tiers: seq<string>): (out: seq<SummaryRow>)
    ensures |out| == |tiers|
    ensures forall i :: 0 <= i < |tiers| ==> out[i] == SummaryOf(rows, table, tiers[i])
  {
    if tiers == [] then []
    else SummaryRows(rows, table, tiers[..|tiers| - 1]) + [SummaryOf(rows, table, tiers[|tiers| - 1])]
  }

  /** The outcome of `generate_summary_table` over the given tiers. A
      threshold table built from no rows has no columns, so its first
      `threshold_df['tier']` raises KeyError. */
  function SummaryOver(rows: seq<Sample>, table: seq<ThresholdRow>, tiers: seq<string>): Result<seq<SummaryRow>> {
    if table == [] then Err("KeyError: tier") else Ok(SummaryRows(rows, table, tiers))
  }

  /** `generate_summary_table` raises exactly on an empty threshold table and
      otherwise gives one row per tier, in order, each the summary of its tier. */
  lemma SummaryOverDescribed(rows: seq<Sample>, table: seq<ThresholdRow>, tiers: seq<string>)
    ensures SummaryOver(rows, table, tiers).Err? <==> table == []
    ensures SummaryOver(rows, table, tiers).Ok? ==>
              var out := SummaryOver(rows, table, tiers).value;
              |out| == |tiers| &&
              forall i :: 0 <= i < |tiers| ==> out[i].tier == tiers[i] && out[i] == SummaryOf(rows, table, tiers[i])
  {
  }

  /** `generate_summary_table`: one row per content tier, or the KeyError of
      an empty threshold table. */
  method GenerateSummaryTable(df: Frame, thresholds: seq<ThresholdRow>) returns (summary: Result<seq<SummaryRow>>)
    ensures summary == SummaryOver(df.rows, thresholds, ContentTiers)
  {
    if thresholds == [] {
      summary := Err("KeyError: tier");
    } else {
      var rowsOut := SummaryLoop(df.rows, thresholds, ContentTiers);
      summary := Ok(rowsOut);
    }
  }

  method SummaryLoop(rows: seq<Sample>, thresholds: seq<ThresholdRow>, tiers: seq<string>) returns (summary: seq<SummaryRow>)
    ensures summary == SummaryRows(rows, thresholds, tiers)
  {
    summary := [];
    var i := 0;
    while i < |tiers|
      invariant 0 <= i <= |tiers|
      invariant summary == SummaryRows(rows, thresholds, tiers[..i])
    {
      var tierThresholds := TierRowsOf(thresholds, tiers[i]);
      var avg90 := ColumnMean(Fps90s(tierThresholds));
      var avgDiminishing := ColumnMean(DiminishingFpss(tierThresholds));
      var tierDf := Where(rows, TierIs(tiers[i]));
      var nVideos := |Distinct(VideosOf(tierDf))|;
      var nRecords := |tierDf|;
      summary := summary + [SummaryRow(tiers[i], nVideos, nRecords, avg90, avgDiminishing, Recommended(avg90, avgDiminishing))];
      assert tiers[..i + 1][..i] == tiers[..i];
      i := i + 1;
    }
    assert tiers[..i] == tiers;
  }

  lemma {:induction false} DistinctNoLonger<T(!new)>(xs: seq<T>)
    ensures |Distinct(xs)| <= |xs|
  {
    if xs != [] {
      DistinctNoLonger(xs[..|xs| - 1]);
    }
  }

  /** Each summary row counts no more videos than records; the threshold
      averages are absent exactly when the tier has no threshold rows, and
      the recommended rate is then absent too, and otherwise is the larger of
      the two averages. */
  lemma SummaryFacts(rows: seq<Sample>, table: seq<ThresholdRow>, tier: string)
    ensures var s := SummaryOf(rows, table, tier);
            s.videos <= s.records &&
            (s.avg90.None? <==> TierRowsOf(table, tier) == []) &&
            (s.avgDiminishing.None? <==> TierRowsOf(table, tier) == []) &&
            (s.recommended.None? <==> TierRowsOf(table, tier) == []) &&
            (s.recommended.Some? ==>
               s.recommended.value >= s.avg90.value && s.recommended.value >= s.avgDiminishing.value &&
               (s.recommended.value == s.avg90.value || s.recommended.value == s.avgDiminishing.value))
  {
    DistinctNoLonger(VideosOf(Where(rows, TierIs(tier))));
  }
}
