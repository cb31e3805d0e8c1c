/** The FPS aggregator: per-(tier, fps) group means with a row count, and the
    per-video stability table (coefficient of variation and stabilisation
    rate of each metric across a video's sampled rates). */
module Aggregates {
  import opened Stats
  import opened Frames
  import opened Scans

  // ---------------------------------------------------------------------------
  // Per-(tier, fps) means
  // ---------------------------------------------------------------------------

  /** The columns averaged by `compute_fps_aggregates`. */
  const AggColumns: set<string> := {
    "frame_count", "scene_count", "transition_count", "person_count_mean",
    "unique_object_count", "objects_per_frame_mean", "intensity_mean",
    "character_consistency"}

  type Key = (string, real)

  function KeyOf(s: Sample): Key {
    (s.tier, s.fps)
  }

  /** The rows of one (tier, fps) group, in corpus order. */
  function GroupOf(rows: seq<Sample>, k: Key): (g: seq<Sample>)
    ensures |g| <= |rows|
    ensures forall s :: s in g <==> s in rows && KeyOf(s) == k
  {
    if rows == [] then []
    else (if KeyOf(rows[0]) == k then [rows[0]] else []) + GroupOf(rows[1..], k)
  }

  /** The distinct (tier, fps) keys, in order of first appearance. */
  function GroupKeys(rows: seq<Sample>): (ks: seq<Key>)
    ensures NoDuplicates(ks)
    ensures forall k :: k in ks <==> exists i :: 0 <= i < |rows| && KeyOf(rows[i]) == k
  {
    var all := seq(|rows|, i requires 0 <= i < |rows| => KeyOf(rows[i]));
    assert forall k :: k in all <==> exists i :: 0 <= i < |rows| && KeyOf(rows[i]) == k by {
      forall k | k in all ensures exists i :: 0 <= i < |rows| && KeyOf(rows[i]) == k {
        var i :| 0 <= i < |all| && all[i] == k;
      }
      forall k | (exists i :: 0 <= i < |rows| && KeyOf(rows[i]) == k) ensures k in all {
        var i :| 0 <= i < |rows| && KeyOf(rows[i]) == k;
        assert all[i] == k;
      }
    }
    Distinct(all)
  }

  /** One row of `metrics_by_fps`: the group key, the mean of each averaged
      column and the number of records in the group (`video_count`). */
  datatype AggRow = AggRow(tier: string, fps: real, means: map<string, real>, videoCount: nat)

  function AggregateGroup(rows: seq<Sample>, k: Key): (r: AggRow)
    ensures (r.tier, r.fps) == k
    ensures r.means.Keys == AggColumns
  {
    var g := GroupOf(rows, k);
    // A key taken from the corpus always has a non-empty group.
    AggRow(k.0, k.1, map m | m in AggColumns :: if g == [] then 0.0 else Mean(Column(g, m)), |g|)
  }

  function AggregatesOver(rows: seq<Sample>, ks: seq<Key>): (out: seq<AggRow>)
    ensures |out| == |ks|
    ensures forall i :: 0 <= i < |ks| ==> out[i] == AggregateGroup(rows, ks[i])
  {
    if ks == [] then [] else [AggregateGroup(rows, ks[0])] + AggregatesOver(rows, ks[1..])
  }

  /** `df.groupby(['tier', 'fps']).agg(...)`: one row per distinct key. */
  function FpsAggregates(rows: seq<Sample>): seq<AggRow> {
    AggregatesOver(rows, GroupKeys(rows))
  }

  /** Each aggregate row is keyed by a distinct (tier, fps) pair that occurs in
      the corpus, counts exactly the records with that key, and averages every
      aggregated column of those records; every record's key has a row. */
  lemma AggregateRowsDescribeGroups(rows: seq<Sample>)
    ensures var out := FpsAggregates(rows);
            forall i, j :: 0 <= i < j < |out| ==> (out[i].tier, out[i].fps) != (out[j].tier, out[j].fps)
    ensures var out := FpsAggregates(rows);
            forall i :: 0 <= i < |out| ==>
              var g := GroupOf(rows, (out[i].tier, out[i].fps));
              g != [] && out[i].videoCount == |g| && out[i].means.Keys == AggColumns &&
              forall m :: m in AggColumns ==> out[i].means[m] == Mean(Column(g, m))
    ensures var out := FpsAggregates(rows);
            forall i :: 0 <= i < |rows| ==> exists j :: 0 <= j < |out| && (out[j].tier, out[j].fps) == KeyOf(rows[i])
  {
    AggregateKeysDistinct(rows);
    AggregateRowsAreGroups(rows);
    RecordsHaveRows(rows);
  }

  lemma AggregateKeysDistinct(rows: seq<Sample>)
    ensures var out := FpsAggregates(rows);
            forall i, j :: 0 <= i < j < |out| ==> (out[i].tier, out[i].fps) != (out[j].tier, out[j].fps)
  {
    var out := FpsAggregates(rows);
    var ks := GroupKeys(rows);
    forall i, j | 0 <= i < j < |out|
      ensures (out[i].tier, out[i].fps) != (out[j].tier, out[j].fps)
    {
      assert (out[i].tier, out[i].fps) == ks[i];
      assert (out[j].tier, out[j].fps) == ks[j];
    }
  }

  lemma AggregateRowsAreGroups(rows: seq<Sample>)
    ensures var out := FpsAggregates(rows);
            forall i :: 0 <= i < |out| ==>
              var g := GroupOf(rows, (out[i].tier, out[i].fps));
              g != [] && out[i].videoCount == |g| && out[i].means.Keys == AggColumns &&
              forall m :: m in AggColumns ==> out[i].means[m] == Mean(Column(g, m))
  {
    var out := FpsAggregates(rows);
    var ks := GroupKeys(rows);
    forall i | 0 <= i < |out|
      ensures GroupOf(rows, (out[i].tier, out[i].fps)) != []
      ensures out[i] == AggregateGroup(rows, (out[i].tier, out[i].fps))
    {
      assert (out[i].tier, out[i].fps) == ks[i];
      assert ks[i] in ks;
      var r :| 0 <= r < |rows| && KeyOf(rows[r]) == ks[i];
      assert rows[r] in GroupOf(rows, ks[i]);
    }
  }

  lemma RecordsHaveRows(rows: seq<Sample>)
    ensures var out := FpsAggregates(rows);
            forall i :: 0 <= i < |rows| ==> exists j :: 0 <= j < |out| && (out[j].tier, out[j].fps) == KeyOf(rows[i])
  {
    var out := FpsAggregates(rows);
    var ks := GroupKeys(rows);
    forall i | 0 <= i < |rows|
      ensures exists j :: 0 <= j < |out| && (out[j].tier, out[j].fps) == KeyOf(rows[i])
    {
      assert KeyOf(rows[i]) in ks;
      var j :| 0 <= j < |ks| && ks[j] == KeyOf(rows[i]);
      assert (out[j].tier, out[j].fps) == ks[j];
    }
  }

  /** Each aggregated mean lies between the group's least and greatest value. */
  lemma AggregateMeansBounded(rows: seq<Sample>, i: nat, m: string)
    requires i < |FpsAggregates(rows)| && m in AggColumns
    ensures var row := FpsAggregates(rows)[i];
            var col := Column(GroupOf(rows, (row.tier, row.fps)), m);
            col != [] && Min(col) <= row.means[m] <= Max(col)
  {
    AggregateRowsDescribeGroups(rows);
    var row := FpsAggregates(rows)[i];
    MeanBetween(Column(GroupOf(rows, (row.tier, row.fps)), m));
  }

  function TotalCount(out: seq<AggRow>): nat {
    if out == [] then 0 else out[0].videoCount + TotalCount(out[1..])
  }

  /** The `video_count` column sums to the number of records in the corpus. */
  lemma VideoCountsSumToCorpus(rows: seq<Sample>)
    ensures TotalCount(FpsAggregates(rows)) == |rows|
  {
    CountsOverAllKeys(rows, GroupKeys(rows));
  }

  /** How many times `k` occurs in `ks`. */
  function Occurrences(ks: seq<Key>, k: Key): nat {
    if ks == [] then 0 else (if ks[0] == k then 1 else 0) + Occurrences(ks[1..], k)
  }

  lemma {:induction false} OccursOnce(ks: seq<Key>, k: Key)
    requires NoDuplicates(ks) && k in ks
    ensures Occurrences(ks, k) == 1
  {
    if ks[0] == k {
      NeverOccurs(ks[1..], k);
    } else {
      OccursOnce(ks[1..], k);
    }
  }

  lemma {:induction false} NeverOccurs(ks: seq<Key>, k: Key)
    requires k !in ks
    ensures Occurrences(ks, k) == 0
  {
    if ks != [] {
      NeverOccurs(ks[1..], k);
    }
  }

  lemma {:induction false} CountsOfCons(r: Sample, rest: seq<Sample>, ks: seq<Key>)
    ensures TotalCount(AggregatesOver([r] + rest, ks)) == Occurrences(ks, KeyOf(r)) + TotalCount(AggregatesOver(rest, ks))
  {
    if ks != [] {
      CountsOfCons(r, rest, ks[1..]);
      assert ([r] + rest)[1..] == rest;
    }
  }

  lemma {:induction false} CountsOfEmpty(ks: seq<Key>)
    ensures TotalCount(AggregatesOver([], ks)) == 0
  {
    if ks != [] {
      CountsOfEmpty(ks[1..]);
    }
  }

  /** Over duplicate-free keys covering the corpus, the group sizes add up to
      the corpus size: each record falls in exactly one group. */
  lemma {:induction false} CountsOverAllKeys(rows: seq<Sample>, ks: seq<Key>)
    requires NoDuplicates(ks)
    requires forall i :: 0 <= i < |rows| ==> KeyOf(rows[i]) in ks
    ensures TotalCount(AggregatesOver(rows, ks)) == |rows|
  {
    if rows == [] {
      CountsOfEmpty(ks);
    } else {
      var rest := rows[1..];
      assert rows == [rows[0]] + rest;
      CountsOverAllKeys(rest, ks);
      CountsOfCons(rows[0], rest, ks);
      OccursOnce(ks, KeyOf(rows[0]));
    }
  }

  // ---------------------------------------------------------------------------
  // Per-video stability
  // ---------------------------------------------------------------------------

  /** The metrics whose stability is measured. */
  const StabilityMetrics: seq<string> :=
    ["scene_count", "transition_count", "unique_object_count", "person_count_mean", "intensity_mean"]

  predicate SortedByFps(rows: seq<Sample>) {
    forall i, j :: 0 <= i < j < |rows| ==> rows[i].fps <= rows[j].fps
  }

  function InsertByFps(s: Sample, rows: seq<Sample>): (r: seq<Sample>)
    ensures |r| == |rows| + 1
    ensures multiset(r) == multiset(rows) + multiset{s}
  {
    if rows == [] then [s]
    else if s.fps < rows[0].fps then [s] + rows
    else
      assert rows == [rows[0]] + rows[1..];
      [rows[0]] + InsertByFps(s, rows[1..])
  }

  lemma {:induction false} InsertKeepsOrder(s: Sample, rows: seq<Sample>)
    requires SortedByFps(rows)
    ensures SortedByFps(InsertByFps(s, rows))
  {
    var r := InsertByFps(s, rows);
    if rows == [] {
    } else if s.fps < rows[0].fps {
      assert forall j :: 0 < j < |r| ==> r[j] == rows[j - 1];
    } else {
      var tail := InsertByFps(s, rows[1..]);
      InsertKeepsOrder(s, rows[1..]);
      assert forall j :: 0 < j < |r| ==> r[j] == tail[j - 1];
      forall j | 0 < j < |r| ensures rows[0].fps <= r[j].fps {
        assert r[j] in multiset(tail);
        assert r[j] in multiset(rows[1..]) || r[j] == s;
      }
    }
  }

  /** `sort_values('fps')`: the rows in ascending order of rate. */
  function SortByFps(rows: seq<Sample>): (r: seq<Sample>)
    ensures SortedByFps(r)
    ensures multiset(r) == multiset(rows)
    ensures |r| == |rows|
  {
    if rows == [] then []
    else
      var init := rows[..|rows| - 1];
      assert rows == init + [rows[|rows| - 1]];
      var r := InsertByFps(rows[|rows| - 1], SortByFps(init));
      InsertKeepsOrder(rows[|rows| - 1], SortByFps(init));
      assert |multiset(r)| == |multiset(rows)|;
      r
  }

  /** One row of `signal_stability`. */
  datatype StabilityRow = StabilityRow(
    tier: string,
    videoId: string,
    metric: string,
    cv: real,
    stableFps: real,
    minValue: real,
    maxValue: real)

  /** The coefficient of variation `np.std(values) / mean`, 0 when the mean is
      not positive. `np.std` is the square root of the population variance;
      the square root is numpy's, passed in as `sqrt`. */
  function Cv(values: seq<real>, sqrt: real -> real): (cv: real)
    requires values != []
    requires forall x :: 0.0 <= x ==> 0.0 <= sqrt(x)
    ensures cv >= 0.0
    ensures Mean(values) <= 0.0 ==> cv == 0.0
  {
    var mean := Mean(values);
    if mean > 0.0 then NonNegativeQuotient(sqrt(Variance(values)), mean); sqrt(Variance(values)) / mean
    else 0.0
  }

  lemma NonNegativeQuotient(a: real, b: real)
    requires a >= 0.0 && b > 0.0
    ensures a / b >= 0.0
  {
    DivideBounds(a, b, 0.0, a / b);
  }

  /** A video's rows for one tier, sorted by rate. */
  function VideoFrame(tierRows: seq<Sample>, video: string): seq<Sample> {
    SortByFps(Where(tierRows, VideoIs(video)))
  }

  function MetricRow(tier: string, video: string, g: seq<Sample>, m: string, sqrt: real -> real): StabilityRow
    requires g != []
    requires forall x :: 0.0 <= x ==> 0.0 <= sqrt(x)
  {
    var values := Column(g, m);
    StabilityRow(tier, video, m, Cv(values, sqrt), StableFps(values, FpsOf(g)), Min(values), Max(values))
  }

  function MetricRows(tier: string, video: string, g: seq<Sample>, ms: seq<string>, sqrt: real -> real): (out: seq<StabilityRow>)
    requires g != []
    requires forall x :: 0.0 <= x ==> 0.0 <= sqrt(x)
    ensures |out| == |ms|
  {
    if ms == [] then []
    else MetricRows(tier, video, g, ms[..|ms| - 1], sqrt) + [MetricRow(tier, video, g, ms[|ms| - 1], sqrt)]
  }

  /** The rows for one (tier, video) group: none below two samples, otherwise
      one per stability metric. */
  function VideoRows(tierRows: seq<Sample>, tier: string, video: string, ms: seq<string>, sqrt: real -> real): seq<StabilityRow>
    requires forall x :: 0.0 <= x ==> 0.0 <= sqrt(x)
  {
    var g := VideoFrame(tierRows, video);
    if |g| < 2 then [] else MetricRows(tier, video, g, ms, sqrt)
  }

  function VideosRows(tierRows: seq<Sample>, tier: string, videos: seq<string>, ms: seq<string>, sqrt: real -> real): seq<StabilityRow>
    requires forall x :: 0.0 <= x ==> 0.0 <= sqrt(x)
  {
    if videos == [] then []
    else VideosRows(tierRows, tier, videos[..|videos| - 1], ms, sqrt) + VideoRows(tierRows, tier, videos[|videos| - 1], ms, sqrt)
  }

  function TierRows(rows: seq<Sample>, tier: string, ms: seq<string>, sqrt: real -> real): seq<StabilityRow>
    requires forall x :: 0.0 <= x ==> 0.0 <= sqrt(x)
  {
    var tierRows := Where(rows, TierIs(tier));
    VideosRows(tierRows, tier, Distinct(VideosOf(tierRows)), ms, sqrt)
  }

  function TiersRows(rows: seq<Sample>, tiers: seq<string>, ms: seq<string>, sqrt: real -> real): seq<StabilityRow>
    requires forall x :: 0.0 <= x ==> 0.0 <= sqrt(x)
  {
    if tiers == [] then []
    else TiersRows(rows, tiers[..|tiers| - 1], ms, sqrt) + TierRows(rows, tiers[|tiers| - 1], ms, sqrt)
  }

  /** The whole stability table, tier by tier in order of first appearance. */
  function StabilityTable(rows: seq<Sample>, sqrt: real -> real): seq<StabilityRow>
    requires forall x :: 0.0 <= x ==> 0.0 <= sqrt(x)
  {
    TiersRows(rows, Distinct(TiersOf(rows)), StabilityMetrics, sqrt)
  }

  /** One metric of one video: the coefficient of variation, the
      stabilisation scan and the value range. */
  method MetricStability(tier: string, video: string, videoDf: seq<Sample>, metric: string, sqrt: real -> real)
    returns (row: StabilityRow)
    requires videoDf != []
    requires forall x :: 0.0 <= x ==> 0.0 <= sqrt(x)
    ensures row == MetricRow(tier, video, videoDf, metric, sqrt)
  {
    var values := Column(videoDf, metric);
    var fpsLevels := FpsOf(videoDf);
    var meanVal := Mean(values);
    var cv := 0.0;
    if meanVal > 0.0 {
      cv := sqrt(Variance(values)) / meanVal;
    }
    var stableFps := ScanStable(values, fpsLevels);
    row := StabilityRow(tier, video, metric, cv, stableFps, Min(values), Max(values));
  }

  /** The inner loop of `compute_signal_stability`: one row per metric of
      `ms` for a video with at least two sampled rates. */
  method VideoStability(tier: string, video: string, videoDf: seq<Sample>, ms: seq<string>, sqrt: real -> real)
    returns (rows: seq<StabilityRow>)
    requires |videoDf| >= 2
    requires forall x :: 0.0 <= x ==> 0.0 <= sqrt(x)
    ensures rows == MetricRows(tier, video, videoDf, ms, sqrt)
  {
    rows := [];
    var k := 0;
    while k < |ms|
      invariant 0 <= k <= |ms|
      invariant rows == MetricRows(tier, video, videoDf, ms[..k], sqrt)
    {
      var row := MetricStability(tier, video, videoDf, ms[k], sqrt);
      MetricRowsStep(tier, video, videoDf, ms, k, sqrt);
      rows := rows + [row];
      k := k + 1;
    }
    assert ms[..k] == ms;
  }

  lemma MetricRowsStep(tier: string, video: string, g: seq<Sample>, ms: seq<string>, k: nat, sqrt: real -> real)
    requires g != [] && k < |ms|
    requires forall x :: 0.0 <= x ==> 0.0 <= sqrt(x)
    ensures MetricRows(tier, video, g, ms[..k + 1], sqrt) == MetricRows(tier, video, g, ms[..k], sqrt) + [MetricRow(tier, video, g, ms[k], sqrt)]
  {
    assert ms[..k + 1][..k] == ms[..k];
  }

  /** One video of a tier: its rows sorted by rate, skipped below two. */
  method VideoStep(tierDf: seq<Sample>, tier: string, video: string, ms: seq<string>, sqrt: real -> real)
    returns (rows: seq<StabilityRow>)
    requires forall x :: 0.0 <= x ==> 0.0 <= sqrt(x)
    ensures rows == VideoRows(tierDf, tier, video, ms, sqrt)
  {
    var videoDf := VideoFrame(tierDf, video);
    rows := [];
    if |videoDf| >= 2 {
      rows := VideoStability(tier, video, videoDf, ms, sqrt);
    }
  }

  /** The loop over one tier's videos. */
  method TierStability(tierDf: seq<Sample>, tier: string, ms: seq<string>, sqrt: real -> real) returns (rows: seq<StabilityRow>)
    requires forall x :: 0.0 <= x ==> 0.0 <= sqrt(x)
    ensures rows == VideosRows(tierDf, tier, Distinct(VideosOf(tierDf)), ms, sqrt)
  {
    var videos := Distinct(VideosOf(tierDf));
    rows := [];
    var j := 0;
    while j < |videos|
      invariant 0 <= j <= |videos|
      invariant rows == VideosRows(tierDf, tier, videos[..j], ms, sqrt)
    {
      var more := VideoStep(tierDf, tier, videos[j], ms, sqrt);
      rows := rows + more;
      assert videos[..j + 1][..j] == videos[..j];
      j := j + 1;
    }
    assert videos[..j] == videos;
  }

  /** `compute_signal_stability`: tiers in order of first appearance, then
      their videos, then the stability metrics. */
  method ComputeSignalStability(df: Frame, sqrt: real -> real) returns (results: seq<StabilityRow>)
    requires forall x :: 0.0 <= x ==> 0.0 <= sqrt(x)
    ensures results == StabilityTable(df.rows, sqrt)
  {
    results := StabilityLoop(df.rows, Distinct(TiersOf(df.rows)), StabilityMetrics, sqrt);
  }

  /** The loop over the tiers. */
  method StabilityLoop(rows: seq<Sample>, tiers: seq<string>, ms: seq<string>, sqrt: real -> real) returns (results: seq<StabilityRow>)
    requires forall x :: 0.0 <= x ==> 0.0 <= sqrt(x)
    ensures results == TiersRows(rows, tiers, ms, sqrt)
  {
    results := [];
    var i := 0;
    while i < |tiers|
      invariant 0 <= i <= |tiers|
      invariant results == TiersRows(rows, tiers[..i], ms, sqrt)
    {
      var tierDf := Where(rows, TierIs(tiers[i]));
      var more := TierStability(tierDf, tiers[i], ms, sqrt);
      results := results + more;
      assert tiers[..i + 1][..i] == tiers[..i];
      i := i + 1;
    }
    assert tiers[..i] == tiers;
  }

  /** A stability row as the source fills it: a non-negative coefficient of
      variation, a value range in order, and one of the five metrics. */
  predicate WellFormedRow(r: StabilityRow) {
    r.cv >= 0.0 && r.minValue <= r.maxValue && r.metric in StabilityMetrics
  }

  /** The row of one metric: its range brackets every value, and its
      stabilisation rate is one of the video's sampled rates. */
  lemma MetricRowFacts(tier: string, video: string, g: seq<Sample>, m: string, sqrt: real -> real)
    requires g != []
    requires forall x :: 0.0 <= x ==> 0.0 <= sqrt(x)
    ensures var r := MetricRow(tier, video, g, m, sqrt);
            r.tier == tier && r.videoId == video && r.metric == m && r.cv >= 0.0 &&
            (forall i :: 0 <= i < |g| ==> r.minValue <= Cell(g[i], m) <= r.maxValue) &&
            r.minValue <= r.maxValue &&
            exists i :: 0 <= i < |g| && r.stableFps == g[i].fps
  {
    var values := Column(g, m);
    var fps := FpsOf(g);
    match FirstSteady(values)
    case Some(k) =>
      assert fps[k] == g[k].fps;
    case None =>
      assert fps[|fps| - 1] == g[|g| - 1].fps;
  }

  lemma {:induction false} MetricRowsWellFormed(tier: string, video: string, g: seq<Sample>, ms: seq<string>, sqrt: real -> real)
    requires g != []
    requires forall x :: 0.0 <= x ==> 0.0 <= sqrt(x)
    requires forall m :: m in ms ==> m in StabilityMetrics
    ensures forall r :: r in MetricRows(tier, video, g, ms, sqrt) ==> WellFormedRow(r) && r.tier == tier
  {
    if ms != [] {
      MetricRowsWellFormed(tier, video, g, ms[..|ms| - 1], sqrt);
      MetricRowFacts(tier, video, g, ms[|ms| - 1], sqrt);
    }
  }

  /** A video yields no rows below two samples and one row per stability
      metric otherwise. */
  lemma VideoRowCount(tierRows: seq<Sample>, tier: string, video: string, ms: seq<string>, sqrt: real -> real)
    requires forall x :: 0.0 <= x ==> 0.0 <= sqrt(x)
    ensures var n := |Where(tierRows, VideoIs(video))|;
            |VideoRows(tierRows, tier, video, ms, sqrt)| == if n < 2 then 0 else |ms|
  {
  }

  lemma {:induction false} VideosRowsWellFormed(tierRows: seq<Sample>, tier: string, videos: seq<string>, ms: seq<string>, sqrt: real -> real)
    requires forall x :: 0.0 <= x ==> 0.0 <= sqrt(x)
    requires forall m :: m in ms ==> m in StabilityMetrics
    ensures forall r :: r in VideosRows(tierRows, tier, videos, ms, sqrt) ==> WellFormedRow(r) && r.tier == tier
  {
    if videos != [] {
      VideosRowsWellFormed(tierRows, tier, videos[..|videos| - 1], ms, sqrt);
      var v := videos[|videos| - 1];
      var g := VideoFrame(tierRows, v);
      if |g| >= 2 {
        MetricRowsWellFormed(tier, v, g, ms, sqrt);
      }
    }
  }

  lemma {:induction false} TiersRowsWellFormed(rows: seq<Sample>, tiers: seq<string>, ms: seq<string>, sqrt: real -> real)
    requires forall x :: 0.0 <= x ==> 0.0 <= sqrt(x)
    requires forall m :: m in ms ==> m in StabilityMetrics
    ensures forall r :: r in TiersRows(rows, tiers, ms, sqrt) ==> WellFormedRow(r) && r.tier in tiers
  {
    if tiers != [] {
      var init := tiers[..|tiers| - 1];
      TiersRowsWellFormed(rows, init, ms, sqrt);
      var t := tiers[|tiers| - 1];
      var tierRows := Where(rows, TierIs(t));
      VideosRowsWellFormed(tierRows, t, Distinct(VideosOf(tierRows)), ms, sqrt);
      assert forall x :: x in init ==> x in tiers;
    }
  }

  /** Every row of the stability table is well formed and belongs to a tier
      of the corpus. */
  lemma StabilityTableWellFormed(rows: seq<Sample>, sqrt: real -> real)
    requires forall x :: 0.0 <= x ==> 0.0 <= sqrt(x)
    ensures forall r :: r in StabilityTable(rows, sqrt) ==>
              WellFormedRow(r) && exists i :: 0 <= i < |rows| && rows[i].tier == r.tier
  {
    var tiers := Distinct(TiersOf(rows));
    TiersRowsWellFormed(rows, tiers, StabilityMetrics, sqrt);
    forall r | r in StabilityTable(rows, sqrt)
      ensures exists i :: 0 <= i < |rows| && rows[i].tier == r.tier
    {
      assert r.tier in TiersOf(rows);
      var i :| 0 <= i < |rows| && TiersOf(rows)[i] == r.tier;
    }
  }
}
