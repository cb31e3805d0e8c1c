/** The first AD-tier mapping (range-referenced targets, the lowest rate for
    the signals known to fall with FPS, the highest rate as default) and the
    raw comparison of the validation set against the core study. */
module CompleteGaps {
  import opened Wrappers
  import opened Stats
  import opened Frames
  import opened TierScan

  // ---------------------------------------------------------------------------
  // AD-tier mapping
  // ---------------------------------------------------------------------------

  const Compliance: AdTier :=
    AdTier("Compliance AD", ["scene_count", "person_count_mean", "unique_object_count"], 0.70)
  const Enhanced: AdTier :=
    AdTier("Enhanced AD",
      ["scene_count", "person_count_mean", "unique_object_count", "brightness_mean", "intensity_mean", "transition_count"],
      0.85)
  const AudioCinema: AdTier :=
    AdTier("Audio Cinema",
      ["scene_count", "person_count_mean", "unique_object_count", "brightness_mean", "intensity_mean", "transition_count",
       "temporal_density", "change_score_mean"],
      0.95)

  /** `ad_tier_requirements`, in its declared order. */
  const AdTierRequirements: seq<AdTier> := [Compliance, Enhanced, AudioCinema]

  /** The signals treated as falling with FPS. */
  const DecreasingSignals: seq<string> := ["intensity_mean", "change_score_mean"]

  /** One row of the mapping; `breakdown` is `min_fps_per_signal` in
      insertion order. */
  datatype TierMapping = TierMapping(
    adTier: string,
    contentTier: string,
    requiredFps: real,
    threshold: real,
    signalsChecked: nat,
    breakdown: seq<(string, real)>)

  /** `min_val + threshold * (max_val - min_val)` over a tier's curve. */
  function RangeTarget(c: seq<Point>, t: real): real
    requires c != []
  {
    Interpolate(Min(Means(c)), Max(Means(c)), t)
  }

  /** The rate one signal needs. A decreasing signal gets the lowest level.
      An empty content tier has a NaN target that no level reaches, so it
      gets the highest level, as does a target no level reaches. */
  function SignalLevel(tierRows: seq<Sample>, levels: seq<real>, signal: string, t: real): real
    requires levels != []
  {
    if signal in DecreasingSignals then levels[0]
    else if tierRows == [] then levels[|levels| - 1]
    else CurveLevel(Curve(tierRows, signal), levels, t)
  }

  /** The first level whose mean reaches the range target, else the highest level. */
  function CurveLevel(c: seq<Point>, levels: seq<real>, t: real): real
    requires c != [] && levels != []
  {
    match FirstReaching(c, levels, RangeTarget(c, t))
    case Some(k) => levels[k]
    case None => levels[|levels| - 1]
  }

  /** `min_fps_per_signal` for the signals that are columns. */
  function Breakdown(tierRows: seq<Sample>, levels: seq<real>, signals: seq<string>, t: real): (b: seq<(string, real)>)
    requires levels != []
    ensures |b| == |signals|
    ensures forall i :: 0 <= i < |signals| ==> b[i] == (signals[i], SignalLevel(tierRows, levels, signals[i], t))
  {
    MapSeq(LevelOf(tierRows, levels, t), signals)
  }

  /** A signal paired with the level it needs, as a function. */
  function LevelOf(tierRows: seq<Sample>, levels: seq<real>, t: real): string --> (string, real) {
    s requires levels != [] => (s, SignalLevel(tierRows, levels, s, t))
  }

  function Rates(b: seq<(string, real)>): (r: seq<real>)
    ensures |r| == |b| && forall i :: 0 <= i < |b| ==> r[i] == b[i].1
  {
    seq(|b|, i requires 0 <= i < |b| => b[i].1)
  }

  /** The row of one (AD tier, content tier). With no sampled rate at all
      Python raises an IndexError (`fps_levels[0]` or `fps_levels[-1]`). */
  function RangeRequirement(df: Frame, levels: seq<real>, ad: AdTier, content: string): Result<TierMapping> {
    if levels == [] then Err("list index out of range")
    else
      var b := Breakdown(Where(df.rows, TierIs(content)), levels, PresentSignals(ad.signals, df.columns), ad.threshold);
      Ok(TierMapping(ad.name, content, MaxOr(Rates(b), levels[|levels| - 1]), ad.threshold, |ad.signals|, b))
  }

  function ContentMappings(df: Frame, levels: seq<real>, ad: AdTier, contents: seq<string>): Result<seq<TierMapping>> {
    AllOk(seq(|contents|, j requires 0 <= j < |contents| => RangeRequirement(df, levels, ad, contents[j])))
  }

  function AdMappings(df: Frame, levels: seq<real>, ads: seq<AdTier>, contents: seq<string>): Result<seq<TierMapping>> {
    Concat(seq(|ads|, i requires 0 <= i < |ads| => ContentMappings(df, levels, ads[i], contents)))
  }

  /** `map_ad_tiers`, over the sorted distinct rates of the corpus. */
  function RangeMapping(df: Frame): Result<seq<TierMapping>> {
    AdMappings(df, SortedDistinct(FpsOf(df.rows)), AdTierRequirements, ContentTiers)
  }

  /** The target and the level scan for one increasing signal of a non-empty tier. */
  method IncreasingStep(fpsMeans: seq<Point>, levels: seq<real>, t: real) returns (fps: real)
    requires fpsMeans != [] && levels != []
    ensures fps == CurveLevel(fpsMeans, levels, t)
  {
    var maxVal := Max(Means(fpsMeans));
    var minVal := Min(Means(fpsMeans));
    var target := minVal + t * (maxVal - minVal);
    assert target == Interpolate(minVal, maxVal, t);
    assert target == RangeTarget(fpsMeans, t);
    var found := ScanLevels(fpsMeans, levels, target);
    fps := if found.Some? then levels[found.value] else levels[|levels| - 1];
  }

  method SignalStep(tierDf: seq<Sample>, levels: seq<real>, signal: string, t: real) returns (fps: real)
    requires levels != []
    ensures fps == SignalLevel(tierDf, levels, signal, t)
  {
    if signal in DecreasingSignals {
      fps := levels[0];
    } else if tierDf == [] {
      fps := levels[|levels| - 1];
    } else {
      fps := IncreasingStep(Curve(tierDf, signal), levels, t);
    }
  }

  lemma BreakdownStep(tierRows: seq<Sample>, levels: seq<real>, signals: seq<string>, s: string, t: real)
    requires levels != []
    ensures Breakdown(tierRows, levels, signals + [s], t) ==
            Breakdown(tierRows, levels, signals, t) + [(s, SignalLevel(tierRows, levels, s, t))]
  {
    MapSeqSnoc(LevelOf(tierRows, levels, t), signals, s);
  }

  /** The signal loop of one (AD tier, content tier). */
  method RequirementStep(df: Frame, levels: seq<real>, ad: AdTier, content: string) returns (r: Result<TierMapping>)
    ensures r == RangeRequirement(df, levels, ad, content)
  {
    var tierDf := Where(df.rows, TierIs(content));
    var minFpsPerSignal: seq<(string, real)> := [];
    ghost var present: seq<string> := [];
    var k := 0;
    while k < |ad.signals|
      invariant 0 <= k <= |ad.signals|
      invariant present == PresentSignals(ad.signals[..k], df.columns)
      invariant present != [] ==> levels != []
      invariant levels != [] ==> minFpsPerSignal == Breakdown(tierDf, levels, present, ad.threshold)
    {
      var signal := ad.signals[k];
      PresentSignalsStep(ad.signals, df.columns, k);
      if signal in df.columns {
        if levels == [] {
          return Err("list index out of range");
        }
        var fps := SignalStep(tierDf, levels, signal, ad.threshold);
        BreakdownStep(tierDf, levels, present, signal, ad.threshold);
        minFpsPerSignal := minFpsPerSignal + [(signal, fps)];
        present := present + [signal];
      }
      k := k + 1;
    }
    assert ad.signals[..k] == ad.signals;
    if levels == [] {
      return Err("list index out of range");
    }
    var requiredFps := if minFpsPerSignal != [] then Max(Rates(minFpsPerSignal)) else levels[|levels| - 1];
    r := Ok(TierMapping(ad.name, content, requiredFps, ad.threshold, |ad.signals|, minFpsPerSignal));
  }

  method ContentLoop(df: Frame, levels: seq<real>, ad: AdTier, contents: seq<string>) returns (r: Result<seq<TierMapping>>)
    ensures r == ContentMappings(df, levels, ad, contents)
  {
    ghost var cells := seq(|contents|, j requires 0 <= j < |contents| => RangeRequirement(df, levels, ad, contents[j]));
    var rows: seq<TierMapping> := [];
    var j := 0;
    while j < |contents|
      invariant 0 <= j <= |contents|
      invariant AllOk(cells[..j]) == Ok(rows)
    {
      var step := RequirementStep(df, levels, ad, contents[j]);
      assert step == cells[j];
      AllOkStep(cells, j);
      if step.Err? {
        AllOkStopsAtError(cells, j + 1);
        return Err(step.error);
      }
      rows := rows + [step.value];
      j := j + 1;
    }
    assert cells[..j] == cells;
    r := Ok(rows);
  }

  method AdLoop(df: Frame, levels: seq<real>, ads: seq<AdTier>, contents: seq<string>) returns (r: Result<seq<TierMapping>>)
    ensures r == AdMappings(df, levels, ads, contents)
  {
    ghost var parts := seq(|ads|, i requires 0 <= i < |ads| => ContentMappings(df, levels, ads[i], contents));
    var results: seq<TierMapping> := [];
    var i := 0;
    while i < |ads|
      invariant 0 <= i <= |ads|
      invariant Concat(parts[..i]) == Ok(results)
    {
      var more := ContentLoop(df, levels, ads[i], contents);
      assert more == parts[i];
      ConcatStep(parts, i);
      if more.Err? {
        ConcatStopsAtError(parts, i + 1);
        return Err(more.error);
      }
      results := results + more.value;
      i := i + 1;
    }
    assert parts[..i] == parts;
    r := Ok(results);
  }

  /** `map_ad_tiers`: AD tiers in declared order, then content tiers. */
  method MapAdTiers(df: Frame) returns (r: Result<seq<TierMapping>>)
    ensures r == RangeMapping(df)
  {
    var fpsLevels := SortedDistinct(FpsOf(df.rows));
    r := AdLoop(df, fpsLevels, AdTierRequirements, ContentTiers);
  }

  // ----- properties ---------------------------------------------------------

  /** Every signal's rate is one of the levels; a decreasing signal always
      gets the lowest one, whatever its data. */
  lemma SignalLevelIsLevel(tierRows: seq<Sample>, levels: seq<real>, signal: string, t: real)
    requires levels != []
    ensures SignalLevel(tierRows, levels, signal, t) in levels
    ensures signal in DecreasingSignals ==> SignalLevel(tierRows, levels, signal, t) == levels[0]
    ensures tierRows == [] && signal !in DecreasingSignals ==> SignalLevel(tierRows, levels, signal, t) == levels[|levels| - 1]
  {
  }

  /** With every rate of the curve among the levels and a fraction within
      [0, 1], the target lies between the least and the greatest mean, the
      greatest mean reaches it, so the highest-level default is never used,
      and the rate is the first level whose mean reaches the target. */
  lemma CurveLevelFirstReaching(c: seq<Point>, levels: seq<real>, t: real)
    requires c != [] && Ascending(c) && Increasing(levels) && 0.0 <= t <= 1.0
    requires forall i :: 0 <= i < |c| ==> c[i].fps in levels
    ensures var target := RangeTarget(c, t);
            Min(Means(c)) <= target <= Max(Means(c)) &&
            FirstReaching(c, levels, target).Some? &&
            CurveLevel(c, levels, t) == levels[FirstReaching(c, levels, target).value] &&
            MeanAt(c, CurveLevel(c, levels, t)) >= target &&
            forall i :: 0 <= i < |levels| && levels[i] < CurveLevel(c, levels, t) ==> MeanAt(c, levels[i]) < target
  {
    RangeTargetReached(c, levels, t);
    var target := RangeTarget(c, t);
    var k := FirstReaching(c, levels, target).value;
    assert MeansAt(c, levels)[k] >= target;
    forall i | 0 <= i < |levels| && levels[i] < levels[k] ensures MeanAt(c, levels[i]) < target {
      assert i < k;
      assert MeansAt(c, levels)[i] < target;
    }
  }

  lemma RangeTargetReached(c: seq<Point>, levels: seq<real>, t: real)
    requires c != [] && Ascending(c) && Increasing(levels) && 0.0 <= t <= 1.0
    requires forall i :: 0 <= i < |c| ==> c[i].fps in levels
    ensures Min(Means(c)) <= RangeTarget(c, t) <= Max(Means(c))
    ensures FirstReaching(c, levels, RangeTarget(c, t)).Some?
  {
    var lo := Min(Means(c));
    var hi := Max(Means(c));
    var j :| 0 <= j < |c| && Means(c)[j] == hi;
    assert lo <= hi;
    Interpolation(lo, hi, t);
    assert c[j].mean == hi;
    ReachedBySampledPoint(c, levels, RangeTarget(c, t), j);
  }

  /** For an increasing signal of a non-empty content tier of the corpus, the
      rate is the first corpus level at which the tier's mean reaches the
      range target; every lower level falls short of it. */
  lemma IncreasingSignalLevel(df: Frame, content: string, signal: string, t: real)
    requires Where(df.rows, TierIs(content)) != [] && signal !in DecreasingSignals && 0.0 <= t <= 1.0
    ensures var levels := SortedDistinct(FpsOf(df.rows));
            var c := Curve(Where(df.rows, TierIs(content)), signal);
            levels != [] &&
            var f := SignalLevel(Where(df.rows, TierIs(content)), levels, signal, t);
            MeanAt(c, f) >= RangeTarget(c, t) &&
            forall i :: 0 <= i < |levels| && levels[i] < f ==> MeanAt(c, levels[i]) < RangeTarget(c, t)
  {
    var tierRows := Where(df.rows, TierIs(content));
    var levels := SortedDistinct(FpsOf(df.rows));
    assert tierRows[0] in df.rows;
    var r :| 0 <= r < |df.rows| && df.rows[r] == tierRows[0];
    assert FpsOf(df.rows)[r] in levels;
    CurveRatesAreLevels(df.rows, content, signal);
    CurveLevelFirstReaching(Curve(tierRows, signal), levels, t);
  }

  /** A higher fraction never asks for a lower rate. */
  lemma CurveLevelMonotone(c: seq<Point>, levels: seq<real>, lower: real, higher: real)
    requires c != [] && levels != [] && Increasing(levels) && lower <= higher
    ensures CurveLevel(c, levels, lower) <= CurveLevel(c, levels, higher)
  {
    var lo := Min(Means(c));
    var hi := Max(Means(c));
    assert lo <= hi by { assert hi in Means(c); }
    InterpolationMonotone(lo, hi, lower, higher);
    var last := levels[|levels| - 1];
    if FirstReaching(c, levels, RangeTarget(c, higher)).Some? {
      FirstReachingMonotone(c, levels, RangeTarget(c, lower), RangeTarget(c, higher));
    } else {
      var a := FirstReaching(c, levels, RangeTarget(c, lower));
      assert a.Some? ==> levels[a.value] <= last;
    }
  }

  lemma SignalLevelMonotone(tierRows: seq<Sample>, levels: seq<real>, signal: string, lower: real, higher: real)
    requires levels != [] && Increasing(levels) && lower <= higher
    ensures SignalLevel(tierRows, levels, signal, lower) <= SignalLevel(tierRows, levels, signal, higher)
  {
    if signal !in DecreasingSignals && tierRows != [] {
      CurveLevelMonotone(Curve(tierRows, signal), levels, lower, higher);
    }
  }

  /** The mapping row fails exactly when the corpus has no sampled rate. An
      ok row reports the configured signal count, lists the signals that are
      columns in configured order, and requires the greatest of their rates,
      or the highest level when none is a column. */
  lemma RequirementOutcome(df: Frame, levels: seq<real>, ad: AdTier, content: string)
    ensures RangeRequirement(df, levels, ad, content).Err? <==> levels == []
    ensures RangeRequirement(df, levels, ad, content).Ok? ==>
            var r := RangeRequirement(df, levels, ad, content).value;
            var present := PresentSignals(ad.signals, df.columns);
            r.adTier == ad.name && r.contentTier == content && r.threshold == ad.threshold &&
            r.signalsChecked == |ad.signals| &&
            |r.breakdown| == |present| &&
            (forall i :: 0 <= i < |present| ==> r.breakdown[i].0 == present[i]) &&
            (present == [] ==> r.requiredFps == levels[|levels| - 1]) &&
            (forall i :: 0 <= i < |present| ==> r.breakdown[i].1 <= r.requiredFps) &&
            (present != [] ==> exists i :: 0 <= i < |present| && r.breakdown[i].1 == r.requiredFps)
  {
    if levels != [] {
      var r := RangeRequirement(df, levels, ad, content).value;
      var rates := Rates(r.breakdown);
      if rates != [] {
        var i :| 0 <= i < |rates| && rates[i] == Max(rates);
        assert r.breakdown[i].1 == r.requiredFps;
      }
    }
  }

  /** The required rate is one of the levels, at most the highest. */
  lemma RequiredIsLevel(df: Frame, levels: seq<real>, ad: AdTier, content: string)
    requires levels != [] && Increasing(levels)
    ensures RangeRequirement(df, levels, ad, content).Ok?
    ensures RangeRequirement(df, levels, ad, content).value.requiredFps in levels
  {
    var r := RangeRequirement(df, levels, ad, content).value;
    var rates := Rates(r.breakdown);
    forall i | 0 <= i < |rates| ensures rates[i] in levels {
      SignalLevelIsLevel(Where(df.rows, TierIs(content)), levels, PresentSignals(ad.signals, df.columns)[i], ad.threshold);
    }
  }

  /** The required rate is at least the rate of every signal that is a column. */
  lemma RequiredCoversSignal(df: Frame, levels: seq<real>, ad: AdTier, content: string, s: string)
    requires levels != [] && s in ad.signals && s in df.columns
    ensures SignalLevel(Where(df.rows, TierIs(content)), levels, s, ad.threshold) <= RangeRequirement(df, levels, ad, content).value.requiredFps
  {
    var present := PresentSignals(ad.signals, df.columns);
    assert s in present;
    var i :| 0 <= i < |present| && present[i] == s;
    var b := Breakdown(Where(df.rows, TierIs(content)), levels, present, ad.threshold);
    assert Rates(b)[i] == SignalLevel(Where(df.rows, TierIs(content)), levels, s, ad.threshold);
  }

  /** When some signal is a column, the required rate is the rate of one of them. */
  lemma RequiredIsSomeSignal(df: Frame, levels: seq<real>, ad: AdTier, content: string) returns (s: string)
    requires levels != [] && PresentSignals(ad.signals, df.columns) != []
    ensures s in ad.signals && s in df.columns
    ensures RangeRequirement(df, levels, ad, content).value.requiredFps == SignalLevel(Where(df.rows, TierIs(content)), levels, s, ad.threshold)
  {
    var present := PresentSignals(ad.signals, df.columns);
    var rates := Rates(Breakdown(Where(df.rows, TierIs(content)), levels, present, ad.threshold));
    var i :| 0 <= i < |rates| && rates[i] == MaxOr(rates, levels[|levels| - 1]);
    s := present[i];
    assert s in present;
  }

  /** Under two AD tiers whose signals nest and whose fractions rise, the
      higher tier never needs a lower rate, provided the lower one has a
      signal among the columns. */
  lemma RequirementMonotone(df: Frame, low: AdTier, high: AdTier, content: string)
    requires forall s :: s in low.signals ==> s in high.signals
    requires low.threshold <= high.threshold
    requires PresentSignals(low.signals, df.columns) != []
    requires df.rows != []
    ensures var levels := SortedDistinct(FpsOf(df.rows));
            RangeRequirement(df, levels, low, content).Ok? && RangeRequirement(df, levels, high, content).Ok? &&
            RangeRequirement(df, levels, low, content).value.requiredFps <= RangeRequirement(df, levels, high, content).value.requiredFps
  {
    var levels := SortedDistinct(FpsOf(df.rows));
    assert df.rows[0].fps in FpsOf(df.rows);
    var s := RequiredIsSomeSignal(df, levels, low, content);
    SignalLevelMonotone(Where(df.rows, TierIs(content)), levels, s, low.threshold, high.threshold);
    RequiredCoversSignal(df, levels, high, content, s);
  }

  lemma TiersNest()
    ensures forall s :: s in Compliance.signals ==> s in Enhanced.signals
    ensures forall s :: s in Enhanced.signals ==> s in AudioCinema.signals
    ensures Compliance.threshold <= Enhanced.threshold <= AudioCinema.threshold
  {
  }

  /** For every content tier the required rate does not fall from Compliance
      AD to Enhanced AD to Audio Cinema, once a Compliance signal is a column. */
  lemma RangeTiersOrdered(df: Frame, content: string)
    requires df.rows != []
    requires PresentSignals(Compliance.signals, df.columns) != []
    ensures var levels := SortedDistinct(FpsOf(df.rows));
            var c := RangeRequirement(df, levels, Compliance, content);
            var e := RangeRequirement(df, levels, Enhanced, content);
            var a := RangeRequirement(df, levels, AudioCinema, content);
            c.Ok? && e.Ok? && a.Ok? &&
            c.value.requiredFps <= e.value.requiredFps <= a.value.requiredFps
  {
    TiersNest();
    RequirementMonotone(df, Compliance, Enhanced, content);
    assert PresentSignals(Compliance.signals, df.columns)[0] in PresentSignals(Enhanced.signals, df.columns);
    RequirementMonotone(df, Enhanced, AudioCinema, content);
  }

  lemma ContentMappingsShape(df: Frame, levels: seq<real>, ad: AdTier, contents: seq<string>)
    ensures ContentMappings(df, levels, ad, contents).Err? <==>
            exists j :: 0 <= j < |contents| && RangeRequirement(df, levels, ad, contents[j]).Err?
    ensures ContentMappings(df, levels, ad, contents).Ok? ==>
            var rs := ContentMappings(df, levels, ad, contents).value;
            |rs| == |contents| &&
            forall j :: 0 <= j < |contents| ==> RangeRequirement(df, levels, ad, contents[j]) == Ok(rs[j])
  {
    var cells := seq(|contents|, j requires 0 <= j < |contents| => RangeRequirement(df, levels, ad, contents[j]));
    AllOkShape(cells);
    assert forall j :: 0 <= j < |contents| ==> cells[j] == RangeRequirement(df, levels, ad, contents[j]);
  }

  lemma AdMappingsShape(df: Frame, levels: seq<real>, ads: seq<AdTier>, contents: seq<string>)
    ensures AdMappings(df, levels, ads, contents).Err? <==>
            exists i, j :: 0 <= i < |ads| && 0 <= j < |contents| && RangeRequirement(df, levels, ads[i], contents[j]).Err?
    ensures AdMappings(df, levels, ads, contents).Ok? ==>
            var rs := AdMappings(df, levels, ads, contents).value;
            |rs| == |contents| * |ads| &&
            forall i, j :: 0 <= i < |ads| && 0 <= j < |contents| ==>
              RangeRequirement(df, levels, ads[i], contents[j]).Ok? && RangeRequirement(df, levels, ads[i], contents[j]).value in rs
  {
    var parts := seq(|ads|, i requires 0 <= i < |ads| => ContentMappings(df, levels, ads[i], contents));
    forall i | 0 <= i < |ads| {
      ContentMappingsShape(df, levels, ads[i], contents);
    }
    ConcatShape(parts, |contents|);
    if AdMappings(df, levels, ads, contents).Ok? {
      var rs := AdMappings(df, levels, ads, contents).value;
      forall i, j | 0 <= i < |ads| && 0 <= j < |contents|
        ensures RangeRequirement(df, levels, ads[i], contents[j]).Ok? && RangeRequirement(df, levels, ads[i], contents[j]).value in rs
      {
        assert parts[i].Ok?;
        assert parts[i].value[j] in parts[i].value;
      }
    }
  }

  /** The mapping fails exactly on an empty corpus; otherwise it has nine
      rows, one per (AD tier, content tier). */
  lemma RangeMappingShape(df: Frame)
    ensures RangeMapping(df).Err? <==> df.rows == []
    ensures RangeMapping(df).Ok? ==>
            |RangeMapping(df).value| == 9 &&
            forall i, j :: 0 <= i < 3 && 0 <= j < 3 ==>
              RangeRequirement(df, SortedDistinct(FpsOf(df.rows)), AdTierRequirements[i], ContentTiers[j]).value in RangeMapping(df).value
  {
    var levels := SortedDistinct(FpsOf(df.rows));
    AdMappingsShape(df, levels, AdTierRequirements, ContentTiers);
    RequirementOutcome(df, levels, Compliance, ContentTiers[0]);
    if df.rows != [] {
      assert df.rows[0].fps in FpsOf(df.rows);
    }
    assert levels == [] ==> RangeRequirement(df, levels, AdTierRequirements[0], ContentTiers[0]).Err?;
  }

  // ---------------------------------------------------------------------------
  // Validation-set comparison
  // ---------------------------------------------------------------------------

  /** `metrics` of the comparison. */
  const ValidationMetrics: seq<string> := ["scene_count", "unique_object_count", "person_count_mean", "intensity_mean"]

  datatype ValidationRow = ValidationRow(fps: real, metric: string, coreMean: real, valMean: real, difference: real, pctDiff: real)

  /** One (rate, metric): kept when both studies hold more than one value. */
  function ValidationCell(core: seq<Sample>, val: seq<Sample>, fps: real, metric: string): seq<ValidationRow> {
    var c := Present(Where(core, FpsIs(fps)), metric);
    var v := Present(Where(val, FpsIs(fps)), metric);
    if |c| > 1 && |v| > 1 then [Compared(fps, metric, Mean(c), Mean(v))] else []
  }

  function ValidationCells(core: seq<Sample>, val: seq<Sample>): (real, string) -> seq<ValidationRow> {
    (fps: real, metric: string) => ValidationCell(core, val, fps, metric)
  }

  /** The first metric that is not a column. */
  function FirstMissing(ms: seq<string>, columns: set<string>): (r: Option<string>)
    ensures r.None? <==> forall m :: m in ms ==> m in columns
    ensures r.Some? ==> r.value in ms && r.value !in columns
  {
    if ms == [] then None
    else if ms[0] !in columns then Some(ms[0])
    else FirstMissing(ms[1..], columns)
  }

  /** `analyze_validation_set`: `None` without validation rows; a KeyError
      from the first metric that is not a column; the rows otherwise. */
  function ValidationOutcome(df: Frame): Result<Option<seq<ValidationRow>>> {
    ValidationOver(df, ComparisonRates, ValidationMetrics)
  }

  /** The comparison over the given key rates and metrics. */
  function ValidationOver(df: Frame, rates: seq<real>, ms: seq<string>): Result<Option<seq<ValidationRow>>> {
    var core := Where(df.rows, StudyIs("core"));
    var val := Where(df.rows, StudyIs("validation"));
    if val == [] then Ok(None)
    else
      match FirstMissing(ms, df.columns)
      case Some(m) => Err("KeyError: " + m)
      case None => Ok(Some(Grid(ValidationCells(core, val), rates, ms)))
  }

  /** The column check that the plotting loop performs before the
      comparison. */
  method CheckColumns(ms: seq<string>, columns: set<string>) returns (missing: Option<string>)
    ensures missing == FirstMissing(ms, columns)
  {
    var k := 0;
    while k < |ms|
      invariant 0 <= k <= |ms|
      invariant FirstMissing(ms, columns) == FirstMissing(ms[k..], columns)
    {
      assert ms[k..][1..] == ms[k + 1..];
      if ms[k] !in columns {
        return Some(ms[k]);
      }
      k := k + 1;
    }
    return None;
  }

  method AnalyzeValidationSet(df: Frame) returns (outcome: Result<Option<seq<ValidationRow>>>)
    ensures outcome == ValidationOutcome(df)
  {
    var coreDf := Where(df.rows, StudyIs("core"));
    var valDf := Where(df.rows, StudyIs("validation"));
    if |valDf| == 0 {
      return Ok(None);
    }
    var missing := CheckColumns(ValidationMetrics, df.columns);
    if missing.Some? {
      return Err("KeyError: " + missing.value);
    }
    var rows := GridLoop(ValidationCells(coreDf, valDf), ComparisonRates, ValidationMetrics);
    outcome := Ok(Some(rows));
  }

  /** A (rate, metric) pair yields a row exactly when both studies hold more
      than one value there, carrying their two means. */
  lemma ValidationCellDescribed(core: seq<Sample>, val: seq<Sample>, fps: real, metric: string, r: ValidationRow)
    ensures r in ValidationCell(core, val, fps, metric) <==>
            var c := Present(Where(core, FpsIs(fps)), metric);
            var v := Present(Where(val, FpsIs(fps)), metric);
            |c| > 1 && |v| > 1 && r == Compared(fps, metric, Mean(c), Mean(v))
  {
  }

  /** The row of two means. */
  function Compared(fps: real, metric: string, coreMean: real, valMean: real): ValidationRow {
    ValidationRow(fps, metric, coreMean, valMean, valMean - coreMean, PctDiff(coreMean, valMean))
  }

  /** The difference and the percentage difference of a row: the first adds
      back to the validation mean; the second recovers it from a non-zero
      core mean, is zero against a zero core mean and, against a positive
      one, has the sign of the difference. */
  lemma ComparedArithmetic(fps: real, metric: string, coreMean: real, valMean: real)
    ensures var r := Compared(fps, metric, coreMean, valMean);
            r.coreMean + r.difference == r.valMean &&
            (r.coreMean != 0.0 ==> r.coreMean + r.pctDiff * r.coreMean / 100.0 == r.valMean) &&
            (r.coreMean == 0.0 ==> r.pctDiff == 0.0) &&
            (r.coreMean > 0.0 ==> (r.pctDiff > 0.0 <==> r.difference > 0.0))
  {
    PctDiffInverse(coreMean, valMean);
    if coreMean > 0.0 {
      PctDiffSign(coreMean, valMean);
    }
  }

  /** No validation rows gives `None`; a missing metric column an error;
      otherwise at most one row per key rate and metric, each produced by its
      (rate, metric) cell. */
  lemma ValidationOutcomeDescribed(df: Frame)
    ensures ValidationOutcome(df) == Ok(None) <==> Where(df.rows, StudyIs("validation")) == []
    ensures ValidationOutcome(df).Err? <==>
            Where(df.rows, StudyIs("validation")) != [] && exists m :: m in ValidationMetrics && m !in df.columns
    ensures ValidationOutcome(df).Ok? && ValidationOutcome(df).value.Some? ==>
            var rows := ValidationOutcome(df).value.value;
            var core := Where(df.rows, StudyIs("core"));
            var val := Where(df.rows, StudyIs("validation"));
            |rows| <= 16 &&
            forall r :: r in rows <==>
              r.fps in ComparisonRates && r.metric in ValidationMetrics && r in ValidationCell(core, val, r.fps, r.metric)
  {
    ValidationOverDescribed(df, ComparisonRates, ValidationMetrics);
  }

  lemma ValidationOverDescribed(df: Frame, rates: seq<real>, ms: seq<string>)
    ensures ValidationOver(df, rates, ms) == Ok(None) <==> Where(df.rows, StudyIs("validation")) == []
    ensures ValidationOver(df, rates, ms).Err? <==>
            Where(df.rows, StudyIs("validation")) != [] && exists m :: m in ms && m !in df.columns
    ensures ValidationOver(df, rates, ms).Ok? && ValidationOver(df, rates, ms).value.Some? ==>
            var rows := ValidationOver(df, rates, ms).value.value;
            var core := Where(df.rows, StudyIs("core"));
            var val := Where(df.rows, StudyIs("validation"));
            |rows| <= |rates| * |ms| &&
            forall r :: r in rows <==>
              r.fps in rates && r.metric in ms && r in ValidationCell(core, val, r.fps, r.metric)
  {
    var core := Where(df.rows, StudyIs("core"));
    var val := Where(df.rows, StudyIs("validation"));
    var cell := ValidationCells(core, val);
    GridMembers(cell, rates, ms);
    GridSize(cell, rates, ms, 1);
  }
}
