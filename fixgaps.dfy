/** The revised AD-tier mapping (plateau-referenced targets over increasing
    signals only, 60 FPS as default) and the duration-normalised comparison
    of the validation set against the core study. */
module FixGaps {
  import opened Wrappers
  import opened Stats
  import opened Frames
  import opened TierScan

  // ---------------------------------------------------------------------------
  // AD-tier mapping
  // ---------------------------------------------------------------------------

  const Compliance: AdTier := AdTier("Compliance AD", ["scene_count", "unique_object_count"], 0.80)
  const Enhanced: AdTier :=
    AdTier("Enhanced AD", ["scene_count", "unique_object_count", "transition_count", "temporal_density"], 0.90)
  const AudioCinema: AdTier :=
    AdTier("Audio Cinema", ["scene_count", "unique_object_count", "transition_count", "temporal_density"], 0.95)

  /** `increasing_signals`, in its declared order. */
  const IncreasingSignals: seq<AdTier> := [Compliance, Enhanced, AudioCinema]

  /** One row of the mapping. */
  datatype Requirement = Requirement(adTier: string, contentTier: string, requiredFps: real, threshold: real)

  /** The plateau reference: 60 FPS when the curve has it, else its highest rate. */
  function PlateauFps(c: seq<Point>): real
    requires c != []
  {
    if 60.0 in Fpses(c) then 60.0 else c[|c| - 1].fps
  }

  /** `min_val + threshold * (plateau_val - min_val)`. */
  function PlateauTarget(c: seq<Point>, t: real): real
    requires c != []
  {
    Interpolate(Min(Means(c)), MeanAt(c, PlateauFps(c)), t)
  }

  /** The rate a signal needs: the first global level reaching the target,
      or 60 when none does. */
  function SignalFps(c: seq<Point>, levels: seq<real>, t: real): real
    requires c != []
  {
    match FirstReaching(c, levels, PlateauTarget(c, t))
    case Some(k) => levels[k]
    case None => 60.0
  }

  /** The rate one signal needs in one content tier. */
  function SignalRate(tierRows: seq<Sample>, levels: seq<real>, signal: string, t: real): real
    requires tierRows != []
  {
    SignalFps(Curve(tierRows, signal), levels, t)
  }

  /** The rate of a signal in a non-empty content tier, as a function. */
  function RateOf(tierRows: seq<Sample>, levels: seq<real>, t: real): string --> real {
    s requires tierRows != [] => SignalRate(tierRows, levels, s, t)
  }

  /** `signal_fps`: the rate of each present signal, in configured order. */
  function Collected(tierRows: seq<Sample>, levels: seq<real>, signals: seq<string>, t: real): (r: seq<real>)
    requires signals == [] || tierRows != []
    ensures |r| == |signals|
    ensures forall i :: 0 <= i < |signals| ==> r[i] == SignalRate(tierRows, levels, signals[i], t)
  {
    MapSeq(RateOf(tierRows, levels, t), signals)
  }

  /** The row of one (AD tier, content tier). Python raises an IndexError
      (`fps_means.index[-1]` on an empty index) when the content tier has no
      rows and one of the signals is a column. */
  function FixedRequirement(df: Frame, levels: seq<real>, ad: AdTier, content: string): Result<Requirement> {
    var tierRows := Where(df.rows, TierIs(content));
    var present := PresentSignals(ad.signals, df.columns);
    if present == [] then Ok(Requirement(ad.name, content, 60.0, ad.threshold))
    else if tierRows == [] then Err("index -1 is out of bounds")
    else Ok(Requirement(ad.name, content, MaxOr(Collected(tierRows, levels, present, ad.threshold), 60.0), ad.threshold))
  }

  /** The rows of one AD tier, one per content tier. */
  function ContentRequirements(df: Frame, levels: seq<real>, ad: AdTier, contents: seq<string>): Result<seq<Requirement>> {
    AllOk(seq(|contents|, j requires 0 <= j < |contents| => FixedRequirement(df, levels, ad, contents[j])))
  }

  /** The rows of every AD tier, AD tier by AD tier. */
  function AdRequirements(df: Frame, levels: seq<real>, ads: seq<AdTier>, contents: seq<string>): Result<seq<Requirement>> {
    Concat(seq(|ads|, i requires 0 <= i < |ads| => ContentRequirements(df, levels, ads[i], contents)))
  }

  /** `map_ad_tiers_fixed`, over the sorted distinct rates of the corpus. */
  function FixedMapping(df: Frame): Result<seq<Requirement>> {
    AdRequirements(df, SortedDistinct(FpsOf(df.rows)), IncreasingSignals, ContentTiers)
  }

  /** The plateau, the target and the level scan for one present signal. */
  method SignalStep(fpsMeans: seq<Point>, levels: seq<real>, t: real) returns (fps: real)
    requires fpsMeans != []
    ensures fps == SignalFps(fpsMeans, levels, t)
  {
    var plateauFps := if 60.0 in Fpses(fpsMeans) then 60.0 else fpsMeans[|fpsMeans| - 1].fps;
    var plateauVal := MeanAt(fpsMeans, plateauFps);
    var minVal := Min(Means(fpsMeans));
    var target := minVal + t * (plateauVal - minVal);
    assert plateauFps == PlateauFps(fpsMeans);
    assert target == PlateauTarget(fpsMeans, t);
    var found := ScanLevels(fpsMeans, levels, target);
    fps := if found.Some? then levels[found.value] else 60.0;
  }

  lemma CollectedStep(tierRows: seq<Sample>, levels: seq<real>, signals: seq<string>, s: string, t: real)
    requires tierRows != []
    ensures Collected(tierRows, levels, signals + [s], t) == Collected(tierRows, levels, signals, t) + [SignalRate(tierRows, levels, s, t)]
  {
    MapSeqSnoc(RateOf(tierRows, levels, t), signals, s);
  }

  /** The signal loop of one (AD tier, content tier). */
  method RequirementStep(df: Frame, levels: seq<real>, ad: AdTier, content: string) returns (r: Result<Requirement>)
    ensures r == FixedRequirement(df, levels, ad, content)
  {
    var tierDf := Where(df.rows, TierIs(content));
    var signalFps: seq<real> := [];
    ghost var present: seq<string> := [];
    var k := 0;
    while k < |ad.signals|
      invariant 0 <= k <= |ad.signals|
      invariant present == PresentSignals(ad.signals[..k], df.columns)
      invariant present != [] ==> tierDf != []
      invariant signalFps == Collected(tierDf, levels, present, ad.threshold)
    {
      var signal := ad.signals[k];
      PresentSignalsStep(ad.signals, df.columns, k);
      if signal in df.columns {
        if tierDf == [] {
          assert signal in PresentSignals(ad.signals, df.columns);
          return Err("index -1 is out of bounds");
        }
        var fps := SignalStep(Curve(tierDf, signal), levels, ad.threshold);
        CollectedStep(tierDf, levels, present, signal, ad.threshold);
        signalFps := signalFps + [fps];
        present := present + [signal];
      }
      k := k + 1;
    }
    assert ad.signals[..k] == ad.signals;
    r := Ok(Requirement(ad.name, content, MaxOr(signalFps, 60.0), ad.threshold));
  }

  method ContentLoop(df: Frame, levels: seq<real>, ad: AdTier, contents: seq<string>) returns (r: Result<seq<Requirement>>)
    ensures r == ContentRequirements(df, levels, ad, contents)
  {
    ghost var cells := seq(|contents|, j requires 0 <= j < |contents| => FixedRequirement(df, levels, ad, contents[j]));
    var rows: seq<Requirement> := [];
    var j := 0;
    while j < |contents|
      invariant 0 <= j <= |contents|
      invariant AllOk(cells[..j]) == Ok(rows)
    {
      var step := RequirementStep(df, levels, ad, contents[j]);
      assert step == cells[j];
      AllOkStep(cells, j);
      if step.Err? {
        AllOkStopsAtError(cells, j + 1);
        return Err(step.error);
      }
      rows := rows + [step.value];
      j := j + 1;
    }
    assert cells[..j] == cells;
    r := Ok(rows);
  }

  method AdLoop(df: Frame, levels: seq<real>, ads: seq<AdTier>, contents: seq<string>) returns (r: Result<seq<Requirement>>)
    ensures r == AdRequirements(df, levels, ads, contents)
  {
    ghost var parts := seq(|ads|, i requires 0 <= i < |ads| => ContentRequirements(df, levels, ads[i], contents));
    var results: seq<Requirement> := [];
    var i := 0;
    while i < |ads|
      invariant 0 <= i <= |ads|
      invariant Concat(parts[..i]) == Ok(results)
    {
      var more := ContentLoop(df, levels, ads[i], contents);
      assert more == parts[i];
      ConcatStep(parts, i);
      if more.Err? {
        ConcatStopsAtError(parts, i + 1);
        return Err(more.error);
      }
      results := results + more.value;
      i := i + 1;
    }
    assert parts[..i] == parts;
    r := Ok(results);
  }

  /** `map_ad_tiers_fixed`: AD tiers in declared order, then content tiers. */
  method MapAdTiersFixed(df: Frame) returns (r: Result<seq<Requirement>>)
    ensures r == FixedMapping(df)
  {
    var fpsLevels := SortedDistinct(FpsOf(df.rows));
    r := AdLoop(df, fpsLevels, IncreasingSignals, ContentTiers);
  }

  // ----- properties ---------------------------------------------------------

  /** The plateau rate is a sampled rate: 60 when sampled, else the highest. */
  lemma PlateauIsSampled(c: seq<Point>)
    requires c != []
    ensures PlateauFps(c) in Fpses(c)
    ensures 60.0 in Fpses(c) <==> PlateauFps(c) == 60.0
    ensures 60.0 !in Fpses(c) ==> PlateauFps(c) == c[|c| - 1].fps
  {
    assert Fpses(c)[|c| - 1] == c[|c| - 1].fps;
  }

  /** For a fraction within [0, 1] the target lies between the least mean and
      the plateau mean. */
  lemma TargetBetweenMinAndPlateau(c: seq<Point>, t: real)
    requires c != [] && Ascending(c) && 0.0 <= t <= 1.0
    ensures Min(Means(c)) <= PlateauTarget(c, t) <= MeanAt(c, PlateauFps(c))
  {
    var j := PlateauIndex(c);
    var lo := Min(Means(c));
    var p := MeanAt(c, PlateauFps(c));
    assert Means(c)[j] == p;
    assert lo <= p;
    Interpolation(lo, p, t);
  }

  /** The position of the plateau on the curve. */
  lemma PlateauIndex(c: seq<Point>) returns (j: nat)
    requires c != [] && Ascending(c)
    ensures j < |c| && c[j].fps == PlateauFps(c) && MeanAt(c, PlateauFps(c)) == c[j].mean
  {
    PlateauIsSampled(c);
    j :| 0 <= j < |c| && Fpses(c)[j] == PlateauFps(c);
    MeanAtPoint(c, j);
  }

  /** When every rate of the curve is a global level, the plateau rate
      reaches the target, so the scan stops at or before it and the 60 FPS
      default is never used. */
  lemma SignalFpsAtMostPlateau(c: seq<Point>, levels: seq<real>, t: real)
    requires c != [] && Ascending(c) && Increasing(levels) && 0.0 <= t <= 1.0
    requires forall i :: 0 <= i < |c| ==> c[i].fps in levels
    ensures FirstReaching(c, levels, PlateauTarget(c, t)).Some?
    ensures SignalFps(c, levels, t) <= PlateauFps(c)
    ensures SignalFps(c, levels, t) in levels
  {
    var j := PlateauIndex(c);
    TargetBetweenMinAndPlateau(c, t);
    ReachedBySampledPoint(c, levels, PlateauTarget(c, t), j);
  }

  /** A higher fraction never asks for a lower rate. */
  lemma SignalFpsMonotone(c: seq<Point>, levels: seq<real>, lower: real, higher: real)
    requires c != [] && Ascending(c) && Increasing(levels) && 0.0 <= lower <= higher <= 1.0
    requires forall i :: 0 <= i < |c| ==> c[i].fps in levels
    ensures SignalFps(c, levels, lower) <= SignalFps(c, levels, higher)
  {
    SignalFpsAtMostPlateau(c, levels, higher);
    var j := PlateauIndex(c);
    var lo := Min(Means(c));
    var p := MeanAt(c, PlateauFps(c));
    assert p == Means(c)[j];
    assert lo <= p;
    InterpolationMonotone(lo, p, lower, higher);
    FirstReachingMonotone(c, levels, PlateauTarget(c, lower), PlateauTarget(c, higher));
  }

  /** The row fails exactly when a signal is a column but the content tier
      has no rows; an ok row carries the tier names and the fraction, and
      60 when no signal is a column. */
  lemma RequirementOutcome(df: Frame, levels: seq<real>, ad: AdTier, content: string)
    ensures var r := FixedRequirement(df, levels, ad, content);
            var present := PresentSignals(ad.signals, df.columns);
            (r.Err? <==> present != [] && Where(df.rows, TierIs(content)) == []) &&
            (r.Ok? ==> r.value.adTier == ad.name && r.value.contentTier == content && r.value.threshold == ad.threshold) &&
            (present == [] ==> r == Ok(Requirement(ad.name, content, 60.0, ad.threshold)))
  {
  }

  /** The required rate is at least the rate of every signal that is a column. */
  lemma RequiredCoversSignal(df: Frame, levels: seq<real>, ad: AdTier, content: string, s: string)
    requires s in ad.signals && s in df.columns
    requires FixedRequirement(df, levels, ad, content).Ok?
    ensures Where(df.rows, TierIs(content)) != []
    ensures SignalRate(Where(df.rows, TierIs(content)), levels, s, ad.threshold) <= FixedRequirement(df, levels, ad, content).value.requiredFps
  {
    var tierRows := Where(df.rows, TierIs(content));
    var present := PresentSignals(ad.signals, df.columns);
    assert s in present;
    var i :| 0 <= i < |present| && present[i] == s;
    var rates := Collected(tierRows, levels, present, ad.threshold);
    assert rates[i] == SignalRate(tierRows, levels, s, ad.threshold);
    assert FixedRequirement(df, levels, ad, content).value.requiredFps == MaxOr(rates, 60.0);
  }

  /** When some signal is a column, the required rate is the rate of one of them. */
  lemma RequiredIsSomeSignal(df: Frame, levels: seq<real>, ad: AdTier, content: string) returns (s: string)
    requires PresentSignals(ad.signals, df.columns) != []
    requires FixedRequirement(df, levels, ad, content).Ok?
    ensures s in ad.signals && s in df.columns && Where(df.rows, TierIs(content)) != []
    ensures FixedRequirement(df, levels, ad, content).value.requiredFps == SignalRate(Where(df.rows, TierIs(content)), levels, s, ad.threshold)
  {
    var tierRows := Where(df.rows, TierIs(content));
    var present := PresentSignals(ad.signals, df.columns);
    var rates := Collected(tierRows, levels, present, ad.threshold);
    assert FixedRequirement(df, levels, ad, content).value.requiredFps == MaxOr(rates, 60.0);
    var i :| 0 <= i < |rates| && rates[i] == MaxOr(rates, 60.0);
    s := present[i];
    assert s in present;
  }

  /** Under two AD tiers whose signals nest and whose fractions rise, the
      higher tier never needs a lower rate, provided the lower one has a
      signal among the columns. */
  lemma RequirementMonotone(df: Frame, low: AdTier, high: AdTier, content: string)
    requires forall s :: s in low.signals ==> s in high.signals
    requires 0.0 <= low.threshold <= high.threshold <= 1.0
    requires PresentSignals(low.signals, df.columns) != []
    requires Where(df.rows, TierIs(content)) != []
    ensures var levels := SortedDistinct(FpsOf(df.rows));
            FixedRequirement(df, levels, low, content).Ok? && FixedRequirement(df, levels, high, content).Ok? &&
            FixedRequirement(df, levels, low, content).value.requiredFps <= FixedRequirement(df, levels, high, content).value.requiredFps
  {
    var levels := SortedDistinct(FpsOf(df.rows));
    var tierRows := Where(df.rows, TierIs(content));
    RequirementOutcome(df, levels, low, content);
    RequirementOutcome(df, levels, high, content);
    var s := RequiredIsSomeSignal(df, levels, low, content);
    CurveRatesAreLevels(df.rows, content, s);
    SignalFpsMonotone(Curve(tierRows, s), levels, low.threshold, high.threshold);
    RequiredCoversSignal(df, levels, high, content, s);
  }

  lemma ComplianceWithinEnhanced()
    ensures forall s :: s in Compliance.signals ==> s in Enhanced.signals
    ensures Enhanced.signals == AudioCinema.signals
  {
  }

  /** For every non-empty content tier, Audio Cinema needs at least the rate
      of Enhanced AD, and Enhanced AD at least that of Compliance AD once a
      Compliance signal is a column. */
  lemma FixedTiersOrdered(df: Frame, content: string)
    requires Where(df.rows, TierIs(content)) != []
    ensures var levels := SortedDistinct(FpsOf(df.rows));
            var c := FixedRequirement(df, levels, Compliance, content);
            var e := FixedRequirement(df, levels, Enhanced, content);
            var a := FixedRequirement(df, levels, AudioCinema, content);
            c.Ok? && e.Ok? && a.Ok? && e.value.requiredFps <= a.value.requiredFps &&
            (PresentSignals(Compliance.signals, df.columns) != [] ==> c.value.requiredFps <= e.value.requiredFps)
  {
    ComplianceWithinEnhanced();
    if PresentSignals(Enhanced.signals, df.columns) != [] {
      RequirementMonotone(df, Enhanced, AudioCinema, content);
    }
    if PresentSignals(Compliance.signals, df.columns) != [] {
      RequirementMonotone(df, Compliance, Enhanced, content);
    }
  }

  lemma ContentRequirementsShape(df: Frame, levels: seq<real>, ad: AdTier, contents: seq<string>)
    ensures ContentRequirements(df, levels, ad, contents).Err? <==>
            exists j :: 0 <= j < |contents| && FixedRequirement(df, levels, ad, contents[j]).Err?
    ensures ContentRequirements(df, levels, ad, contents).Ok? ==>
            var rs := ContentRequirements(df, levels, ad, contents).value;
            |rs| == |contents| &&
            forall j :: 0 <= j < |contents| ==> FixedRequirement(df, levels, ad, contents[j]) == Ok(rs[j])
  {
    var cells := seq(|contents|, j requires 0 <= j < |contents| => FixedRequirement(df, levels, ad, contents[j]));
    AllOkShape(cells);
    assert forall j :: 0 <= j < |contents| ==> cells[j] == FixedRequirement(df, levels, ad, contents[j]);
  }

  lemma AdRequirementsShape(df: Frame, levels: seq<real>, ads: seq<AdTier>, contents: seq<string>)
    ensures AdRequirements(df, levels, ads, contents).Err? <==>
            exists i, j :: 0 <= i < |ads| && 0 <= j < |contents| && FixedRequirement(df, levels, ads[i], contents[j]).Err?
    ensures AdRequirements(df, levels, ads, contents).Ok? ==>
            var rs := AdRequirements(df, levels, ads, contents).value;
            |rs| == |contents| * |ads| &&
            forall i, j :: 0 <= i < |ads| && 0 <= j < |contents| ==>
              FixedRequirement(df, levels, ads[i], contents[j]).Ok? && FixedRequirement(df, levels, ads[i], contents[j]).value in rs
  {
    var parts := seq(|ads|, i requires 0 <= i < |ads| => ContentRequirements(df, levels, ads[i], contents));
    forall i | 0 <= i < |ads| {
      ContentRequirementsShape(df, levels, ads[i], contents);
    }
    ConcatShape(parts, |contents|);
    if AdRequirements(df, levels, ads, contents).Ok? {
      var rs := AdRequirements(df, levels, ads, contents).value;
      forall i, j | 0 <= i < |ads| && 0 <= j < |contents|
        ensures FixedRequirement(df, levels, ads[i], contents[j]).Ok? && FixedRequirement(df, levels, ads[i], contents[j]).value in rs
      {
        assert parts[i].Ok?;
        assert parts[i].value[j] in parts[i].value;
      }
    }
  }

  /** The mapping fails exactly when some content tier has no rows while a
      signal is a column; otherwise it has nine rows, one per (AD tier,
      content tier). */
  lemma FixedMappingShape(df: Frame)
    ensures FixedMapping(df).Err? <==>
            (PresentSignals(Compliance.signals, df.columns) != [] || PresentSignals(Enhanced.signals, df.columns) != []) &&
            exists j :: 0 <= j < |ContentTiers| && Where(df.rows, TierIs(ContentTiers[j])) == []
    ensures FixedMapping(df).Ok? ==>
            |FixedMapping(df).value| == 9 &&
            forall i, j :: 0 <= i < 3 && 0 <= j < 3 ==>
              FixedRequirement(df, SortedDistinct(FpsOf(df.rows)), IncreasingSignals[i], ContentTiers[j]).value in FixedMapping(df).value
  {
    var levels := SortedDistinct(FpsOf(df.rows));
    AdRequirementsShape(df, levels, IncreasingSignals, ContentTiers);
    RequirementsFail(df, levels, IncreasingSignals, ContentTiers);
    SomeFixedTierPresent(df);
  }

  /** Some row fails exactly when some AD tier has a signal among the columns
      and some content tier has no rows. */
  lemma RequirementsFail(df: Frame, levels: seq<real>, ads: seq<AdTier>, contents: seq<string>)
    ensures (exists i, j :: 0 <= i < |ads| && 0 <= j < |contents| && FixedRequirement(df, levels, ads[i], contents[j]).Err?) <==>
            (exists i :: 0 <= i < |ads| && PresentSignals(ads[i].signals, df.columns) != []) &&
            (exists j :: 0 <= j < |contents| && Where(df.rows, TierIs(contents[j])) == [])
  {
    forall i, j | 0 <= i < |ads| && 0 <= j < |contents| {
      RequirementOutcome(df, levels, ads[i], contents[j]);
    }
    if (exists i :: 0 <= i < |ads| && PresentSignals(ads[i].signals, df.columns) != []) &&
       (exists j :: 0 <= j < |contents| && Where(df.rows, TierIs(contents[j])) == []) {
      var i :| 0 <= i < |ads| && PresentSignals(ads[i].signals, df.columns) != [];
      var j :| 0 <= j < |contents| && Where(df.rows, TierIs(contents[j])) == [];
      assert FixedRequirement(df, levels, ads[i], contents[j]).Err?;
    }
  }

  /** Some configured AD tier has a signal among the columns exactly when
      Compliance AD or Enhanced AD has one. */
  lemma SomeFixedTierPresent(df: Frame)
    ensures (exists i :: 0 <= i < |IncreasingSignals| && PresentSignals(IncreasingSignals[i].signals, df.columns) != []) <==>
            PresentSignals(Compliance.signals, df.columns) != [] || PresentSignals(Enhanced.signals, df.columns) != []
  {
    ComplianceWithinEnhanced();
    if PresentSignals(Compliance.signals, df.columns) != [] {
      assert PresentSignals(Compliance.signals, df.columns)[0] in PresentSignals(Enhanced.signals, df.columns);
    }
    if PresentSignals(Enhanced.signals, df.columns) != [] {
      assert IncreasingSignals[1] == Enhanced;
    }
  }

  // ---------------------------------------------------------------------------
  // Duration-normalised comparison
  // ---------------------------------------------------------------------------

  /** `count_metrics`: the count-based metrics divided by clip duration. */
  const CountMetrics: seq<string> := ["scene_count", "unique_object_count", "transition_count"]

  function PerSecond(m: string): string {
    m + "_per_sec"
  }

  lemma PerSecondInjective(a: string, b: string)
    requires PerSecond(a) == PerSecond(b)
    ensures a == b
  {
    assert a == PerSecond(a)[..|a|];
    assert b == PerSecond(b)[..|b|];
  }

  /** No metric of the list is the per-second name of one of them. */
  predicate Unclashing(ms: seq<string>) {
    forall a, b :: a in ms && b in ms ==> a != PerSecond(b)
  }

  lemma CountMetricsUnclashing()
    ensures Unclashing(CountMetrics)
  {
    forall a, b | a in CountMetrics && b in CountMetrics
      ensures a != PerSecond(b)
    {
      assert |a| < |PerSecond(b)| || a[0] != PerSecond(b)[0];
    }
  }

  /** A row with `m_per_sec` set to `m / duration`. A missing cell (NaN)
      stays missing, and so, in this model, does a zero duration. */
  function RowPerSecond(s: Sample, m: string): (r: Sample)
    ensures r.(values := s.values) == s
  {
    if m in s.values && s.duration != 0.0 then s.(values := s.values[PerSecond(m) := s.values[m] / s.duration])
    else s.(values := s.values - {PerSecond(m)})
  }

  /** `df[f'{m}_per_sec'] = df[m] / df['duration']`. */
  function AddPerSecond(df: Frame, m: string): (r: Frame)
    ensures r.columns == df.columns + {PerSecond(m)}
    ensures |r.rows| == |df.rows|
    ensures forall i :: 0 <= i < |df.rows| ==> r.rows[i] == RowPerSecond(df.rows[i], m)
  {
    Frame(df.columns + {PerSecond(m)}, seq(|df.rows|, i requires 0 <= i < |df.rows| => RowPerSecond(df.rows[i], m)))
  }

  /** The loop over the count metrics, each one guarded by its presence
      among the columns. */
  function Normalised(df: Frame, ms: seq<string>): (r: Frame)
    ensures |r.rows| == |df.rows| && df.columns <= r.columns
    ensures forall i :: 0 <= i < |df.rows| ==> r.rows[i].(values := df.rows[i].values) == df.rows[i]
  {
    if ms == [] then df
    else
      var prev := Normalised(df, ms[..|ms| - 1]);
      var m := ms[|ms| - 1];
      if m in prev.columns then AddPerSecond(prev, m) else prev
  }

  /** The new columns are exactly the per-second names of the listed metrics
      that were columns. */
  lemma {:induction false} NormalisedColumns(df: Frame, ms: seq<string>)
    requires Unclashing(ms)
    ensures forall k :: k in Normalised(df, ms).columns <==>
              k in df.columns || exists m :: m in ms && m in df.columns && k == PerSecond(m)
  {
    if ms != [] {
      var init := ms[..|ms| - 1];
      var last := ms[|ms| - 1];
      assert forall x :: x in init ==> x in ms;
      NormalisedColumns(df, init);
      assert last in ms;
      forall m | m in init ensures last != PerSecond(m) {
        assert m in ms;
      }
    }
  }

  /** A cell whose column is not one of the new names keeps its value. */
  lemma {:induction false} NormalisedKeeps(df: Frame, ms: seq<string>, i: nat, k: string)
    requires i < |df.rows|
    requires forall m :: m in ms ==> k != PerSecond(m)
    ensures var r := Normalised(df, ms).rows[i];
            (k in r.values <==> k in df.rows[i].values) && (k in r.values ==> r.values[k] == df.rows[i].values[k])
  {
    if ms != [] {
      var init := ms[..|ms| - 1];
      assert forall x :: x in init ==> x in ms;
      NormalisedKeeps(df, init, i, k);
    }
  }

  /** Each listed metric that was a column gets its per-second cell exactly
      where the metric has a value and the duration is not zero. */
  lemma {:induction false} NormalisedPerSecond(df: Frame, ms: seq<string>, i: nat, m: string)
    requires Unclashing(ms) && i < |df.rows| && m in ms && m in df.columns
    ensures var s := df.rows[i];
            var r := Normalised(df, ms).rows[i];
            (PerSecond(m) in r.values <==> m in s.values && s.duration != 0.0) &&
            (PerSecond(m) in r.values ==> r.values[PerSecond(m)] == s.values[m] / s.duration)
  {
    var init := ms[..|ms| - 1];
    var last := ms[|ms| - 1];
    assert forall x :: x in init ==> x in ms;
    if last == m {
      NormalisedKeeps(df, init, i, m);
    } else {
      assert m in init;
      NormalisedPerSecond(df, init, i, m);
      if PerSecond(m) == PerSecond(last) {
        PerSecondInjective(m, last);
      }
    }
  }

  /** `core_df[...] = ...; val_df[...] = ...` for each count metric. */
  method NormaliseByDuration(coreDf: Frame, valDf: Frame, ms: seq<string>) returns (core: Frame, val: Frame)
    requires coreDf.columns == valDf.columns
    ensures core == Normalised(coreDf, ms) && val == Normalised(valDf, ms)
  {
    core, val := coreDf, valDf;
    var k := 0;
    while k < |ms|
      invariant 0 <= k <= |ms|
      invariant core == Normalised(coreDf, ms[..k]) && val == Normalised(valDf, ms[..k])
      invariant core.columns == val.columns
    {
      var metric := ms[k];
      assert ms[..k + 1][..k] == ms[..k];
      if metric in core.columns {
        core := AddPerSecond(core, metric);
        val := AddPerSecond(val, metric);
      }
      k := k + 1;
    }
    assert ms[..k] == ms;
  }

  /** `metrics_to_compare`. */
  const NormalisedMetrics: seq<string> :=
    ["scene_count_per_sec", "unique_object_count_per_sec", "person_count_mean", "intensity_mean"]

  datatype NormalisedComparison = NormalisedComparison(fps: real, metric: string, coreMean: real, valMean: real, pctDiff: real)

  /** One (rate, metric) of the comparison: skipped when the metric is not a
      column, kept when both studies hold more than one value there. */
  function NormalisedCell(core: Frame, val: Frame, fps: real, metric: string): seq<NormalisedComparison> {
    if metric !in core.columns then []
    else
      var c := Present(Where(core.rows, FpsIs(fps)), metric);
      var v := Present(Where(val.rows, FpsIs(fps)), metric);
      if |c| > 1 && |v| > 1 then [NormalisedComparison(fps, metric, Mean(c), Mean(v), PctDiff(Mean(c), Mean(v)))]
      else []
  }

  function NormalisedCells(core: Frame, val: Frame): (real, string) -> seq<NormalisedComparison> {
    (fps: real, metric: string) => NormalisedCell(core, val, fps, metric)
  }

  /** The core study and the validation set, each normalised by duration. */
  function CoreStudy(df: Frame): Frame {
    Normalised(Frame(df.columns, Where(df.rows, StudyIs("core"))), CountMetrics)
  }

  function ValidationStudy(df: Frame): Frame {
    Normalised(Frame(df.columns, Where(df.rows, StudyIs("validation"))), CountMetrics)
  }

  function NormalisedComparisons(df: Frame): seq<NormalisedComparison> {
    Grid(NormalisedCells(CoreStudy(df), ValidationStudy(df)), ComparisonRates, NormalisedMetrics)
  }

  /** The outcome of the comparison. A frame built from no comparison rows has
      no columns, so the `comparison_df['significant']` that follows the CSV
      write raises KeyError; there is no guard against this. */
  function NormalisedOutcome(df: Frame): Result<seq<NormalisedComparison>> {
    var rows := NormalisedComparisons(df);
    if rows == [] then Err("KeyError: significant") else Ok(rows)
  }

  /** `analyze_validation_normalized` without its plots and t-tests. */
  method AnalyzeValidationNormalized(df: Frame) returns (outcome: Result<seq<NormalisedComparison>>)
    ensures outcome == NormalisedOutcome(df)
  {
    var coreDf := Frame(df.columns, Where(df.rows, StudyIs("core")));
    var valDf := Frame(df.columns, Where(df.rows, StudyIs("validation")));
    coreDf, valDf := NormaliseByDuration(coreDf, valDf, CountMetrics);
    var results := GridLoop(NormalisedCells(coreDf, valDf), ComparisonRates, NormalisedMetrics);
    if results == [] {
      outcome := Err("KeyError: significant");
    } else {
      outcome := Ok(results);
    }
  }

  /** A (rate, metric) pair yields a row exactly when the metric is a column
      and both studies hold more than one value there; that row carries the
      two means and a percentage difference that recovers the validation
      mean from a non-zero core mean. */
  lemma NormalisedCellDescribed(core: Frame, val: Frame, fps: real, metric: string, r: NormalisedComparison)
    ensures r in NormalisedCell(core, val, fps, metric) <==>
            var c := Present(Where(core.rows, FpsIs(fps)), metric);
            var v := Present(Where(val.rows, FpsIs(fps)), metric);
            metric in core.columns && |c| > 1 && |v| > 1 &&
            r == NormalisedComparison(fps, metric, Mean(c), Mean(v), PctDiff(Mean(c), Mean(v)))
    ensures r in NormalisedCell(core, val, fps, metric) ==>
            (r.coreMean != 0.0 ==> r.coreMean + r.pctDiff * r.coreMean / 100.0 == r.valMean) &&
            (r.coreMean == 0.0 ==> r.pctDiff == 0.0)
  {
    if r in NormalisedCell(core, val, fps, metric) {
      PctDiffInverse(r.coreMean, r.valMean);
    }
  }

  /** The comparison has at most one row per key rate and metric, and a row
      is in it exactly when its (rate, metric) cell produced it. */
  lemma NormalisedComparisonsDescribed(df: Frame)
    ensures |NormalisedComparisons(df)| <= 16
    ensures forall r :: r in NormalisedComparisons(df) <==>
              r.fps in ComparisonRates && r.metric in NormalisedMetrics &&
              r in NormalisedCell(CoreStudy(df), ValidationStudy(df), r.fps, r.metric)
  {
    var cell := NormalisedCells(CoreStudy(df), ValidationStudy(df));
    GridMembers(cell, ComparisonRates, NormalisedMetrics);
    GridSize(cell, ComparisonRates, NormalisedMetrics, 1);
  }

  /** The comparison raises exactly when no key rate and compared metric
      yields a row; otherwise it gives the comparison rows. */
  lemma NormalisedOutcomeDescribed(df: Frame)
    ensures NormalisedOutcome(df).Err? <==>
              forall i, j :: 0 <= i < |ComparisonRates| && 0 <= j < |NormalisedMetrics| ==>
                NormalisedCell(CoreStudy(df), ValidationStudy(df), ComparisonRates[i], NormalisedMetrics[j]) == []
    ensures NormalisedOutcome(df).Ok? ==> NormalisedOutcome(df).value == NormalisedComparisons(df)
  {
    GridEmpty(NormalisedCells(CoreStudy(df), ValidationStudy(df)), ComparisonRates, NormalisedMetrics);
  }

  /** A corpus without validation rows makes the comparison raise. */
  lemma NoValidationRaises(df: Frame)
    requires forall i :: 0 <= i < |df.rows| ==> df.rows[i].studyType != "validation"
    ensures NormalisedOutcome(df).Err?
  {
    WhereNone(df.rows, StudyIs("validation"));
    var val := ValidationStudy(df);
    assert val.rows == [];
    var cell := NormalisedCells(CoreStudy(df), val);
    forall f, m ensures |cell(f, m)| <= 0 {
      assert Where(val.rows, FpsIs(f)) == [];
    }
    GridSize(cell, ComparisonRates, NormalisedMetrics, 0);
  }

  /** After normalisation the per-second metrics are columns exactly when
      their count metric was one. */
  lemma PerSecondColumns(df: Frame)
    ensures "scene_count_per_sec" in CoreStudy(df).columns <==>
            "scene_count_per_sec" in df.columns || "scene_count" in df.columns
    ensures "unique_object_count_per_sec" in CoreStudy(df).columns <==>
            "unique_object_count_per_sec" in df.columns || "unique_object_count" in df.columns
  {
    CountMetricsUnclashing();
    NormalisedColumns(Frame(df.columns, Where(df.rows, StudyIs("core"))), CountMetrics);
    assert PerSecond("scene_count") == "scene_count_per_sec";
    assert PerSecond("unique_object_count") == "unique_object_count_per_sec";
    forall m | m in CountMetrics && m != "scene_count" ensures PerSecond(m) != "scene_count_per_sec" {
      if PerSecond(m) == PerSecond("scene_count") { PerSecondInjective(m, "scene_count"); }
    }
    forall m | m in CountMetrics && m != "unique_object_count" ensures PerSecond(m) != "unique_object_count_per_sec" {
      if PerSecond(m) == PerSecond("unique_object_count") { PerSecondInjective(m, "unique_object_count"); }
    }
  }
}
