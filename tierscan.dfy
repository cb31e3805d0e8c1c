/** What the two AD-tier mappings and the two validation comparisons share:
    reading a tier's per-FPS means at the global rate levels, the scan for
    the first level that reaches a target, the signals present among the
    columns, the maximum over the collected rates and the percentage
    difference. */
module TierScan {
  import opened Wrappers
  import opened Stats
  import opened Frames
  import opened Scans

  /** An audio-description quality tier: the signals it needs and the
      fraction of the way from the least mean to the reference mean that
      each must reach. */
  datatype AdTier = AdTier(name: string, signals: seq<string>, threshold: real)

  /** `fps_means.get(fps, 0)` at every global level. */
  function MeansAt(c: seq<Point>, levels: seq<real>): (r: seq<real>)
    ensures |r| == |levels|
    ensures forall i :: 0 <= i < |levels| ==> r[i] == MeanAt(c, levels[i])
  {
    seq(|levels|, i requires 0 <= i < |levels| => MeanAt(c, levels[i]))
  }

  /** The position of the first global level whose tier mean reaches `target`. */
  function FirstReaching(c: seq<Point>, levels: seq<real>, target: real): Option<nat> {
    FirstAtLeast(MeansAt(c, levels), target)
  }

  /** `for fps in fps_levels: if fps_means.get(fps, 0) >= target: ...; break`. */
  method ScanLevels(c: seq<Point>, levels: seq<real>, target: real) returns (k: Option<nat>)
    ensures k == FirstReaching(c, levels, target)
  {
    ghost var vs := MeansAt(c, levels);
    k := None;
    var i := 0;
    while i < |levels|
      invariant 0 <= i <= |levels|
      invariant FirstAtLeast(vs, target) == FirstAtLeastFrom(vs, target, i)
    {
      if MeanAt(c, levels[i]) >= target {
        k := Some(i);
        return;
      }
      i := i + 1;
    }
  }

  /** A sampled point that reaches the target, at a rate among the global
      levels, guarantees the scan stops, and no later than that rate. */
  lemma ReachedBySampledPoint(c: seq<Point>, levels: seq<real>, target: real, j: nat)
    requires Ascending(c) && Increasing(levels)
    requires j < |c| && c[j].fps in levels && c[j].mean >= target
    ensures FirstReaching(c, levels, target).Some?
    ensures levels[FirstReaching(c, levels, target).value] <= c[j].fps
  {
    var p :| 0 <= p < |levels| && levels[p] == c[j].fps;
    MeanAtPoint(c, j);
    FirstAtLeastWithin(MeansAt(c, levels), target, p);
    var k := FirstReaching(c, levels, target).value;
    assert k <= p;
    assert k < p ==> levels[k] < levels[p];
  }

  /** A higher target never stops the scan at an earlier level. */
  lemma FirstReachingMonotone(c: seq<Point>, levels: seq<real>, lower: real, higher: real)
    requires Increasing(levels) && lower <= higher
    requires FirstReaching(c, levels, higher).Some?
    ensures FirstReaching(c, levels, lower).Some?
    ensures levels[FirstReaching(c, levels, lower).value] <= levels[FirstReaching(c, levels, higher).value]
  {
    FirstAtLeastMonotone(MeansAt(c, levels), lower, higher);
    var a := FirstReaching(c, levels, lower).value;
    var b := FirstReaching(c, levels, higher).value;
    assert a < b ==> levels[a] < levels[b];
  }

  /** The configured signals that are columns of the frame, in their
      configured order (`if signal not in tier_df.columns: continue`). */
  function PresentSignals(signals: seq<string>, columns: set<string>): (r: seq<string>)
    ensures |r| <= |signals|
    ensures forall s :: s in r <==> s in signals && s in columns
  {
    if signals == [] then []
    else
      var init := PresentSignals(signals[..|signals| - 1], columns);
      var last := signals[|signals| - 1];
      assert signals == signals[..|signals| - 1] + [last];
      if last in columns then init + [last] else init
  }

  /** The signal filter keeps a single signal exactly when it is a column, and
      distributes over concatenation: together these fix the kept signals,
      their order and their multiplicity. */
  lemma {:induction false} PresentSignalsAppend(a: seq<string>, b: seq<string>, columns: set<string>)
    ensures |a| == 1 ==> PresentSignals(a, columns) == (if a[0] in columns then a else [])
    ensures PresentSignals(a + b, columns) == PresentSignals(a, columns) + PresentSignals(b, columns)
  {
    if b == [] {
      assert a + b == a;
    } else {
      var init := b[..|b| - 1];
      assert (a + b)[..|a + b| - 1] == a + init;
      assert (a + b)[|a + b| - 1] == b[|b| - 1];
      PresentSignalsAppend(a, init, columns);
    }
  }

  lemma PresentSignalsStep(signals: seq<string>, columns: set<string>, k: nat)
    requires k < |signals|
    ensures PresentSignals(signals[..k + 1], columns) ==
            PresentSignals(signals[..k], columns) + (if signals[k] in columns then [signals[k]] else [])
  {
    assert signals[..k + 1][..k] == signals[..k];
  }

  /** `max(values) if values else default`. */
  function MaxOr(xs: seq<real>, default: real): (m: real)
    ensures xs == [] ==> m == default
    ensures xs != [] ==> m in xs && forall i :: 0 <= i < |xs| ==> xs[i] <= m
  {
    if xs == [] then default else Max(xs)
  }

  /** `(val - core) / core * 100 if core != 0 else 0`. */
  function PctDiff(core: real, val: real): real {
    if core != 0.0 then (val - core) / core * 100.0 else 0.0
  }

  /** The percentage difference recovers the validation mean from the core
      mean whenever the core mean is not zero, and is zero when it is. */
  lemma PctDiffInverse(core: real, val: real)
    ensures core != 0.0 ==> core + PctDiff(core, val) * core / 100.0 == val
    ensures core == 0.0 ==> PctDiff(core, val) == 0.0
  {
    if core != 0.0 {
      var q := (val - core) / core;
      assert q * core == val - core;
      assert PctDiff(core, val) * core / 100.0 == q * core;
    }
  }

  /** Against a positive core mean the percentage difference has the sign of
      the difference; equal means give zero. */
  lemma PctDiffSign(core: real, val: real)
    requires core > 0.0
    ensures PctDiff(core, val) > 0.0 <==> val > core
    ensures PctDiff(core, val) == 0.0 <==> val == core
  {
    var q := (val - core) / core;
    assert q * core == val - core;
    if q > 0.0 { MulLeft(core, 0.0, q); }
    if q < 0.0 { MulLeft(core, q, 0.0); }
  }

  /** Every rate of a tier's curve is one of the corpus's sorted levels. */
  lemma CurveRatesAreLevels(rows: seq<Sample>, tier: string, m: string)
    ensures var c := Curve(Where(rows, TierIs(tier)), m);
            forall i :: 0 <= i < |c| ==> c[i].fps in SortedDistinct(FpsOf(rows))
  {
    var tierRows := Where(rows, TierIs(tier));
    var c := Curve(tierRows, m);
    forall i | 0 <= i < |c| ensures c[i].fps in SortedDistinct(FpsOf(rows)) {
      var k :| 0 <= k < |tierRows| && FpsOf(tierRows)[k] == c[i].fps;
      assert tierRows[k] in rows;
      var r :| 0 <= r < |rows| && rows[r] == tierRows[k];
      assert FpsOf(rows)[r] == c[i].fps;
    }
  }

  /** `[f(x) for x in xs]` */
  function MapSeq<A, B>(f: A --> B, xs: seq<A>): (r: seq<B>)
    requires forall i :: 0 <= i < |xs| ==> f.requires(xs[i])
    ensures |r| == |xs| && forall i :: 0 <= i < |xs| ==> r[i] == f(xs[i])
  {
    seq(|xs|, i requires 0 <= i < |xs| => f(xs[i]))
  }

  /** Mapping one more element appends its image. */
  lemma MapSeqSnoc<A, B>(f: A --> B, xs: seq<A>, x: A)
    requires forall i :: 0 <= i < |xs| ==> f.requires(xs[i])
    requires f.requires(x)
    ensures MapSeq(f, xs + [x]) == MapSeq(f, xs) + [f(x)]
  {
    var a := MapSeq(f, xs + [x]);
    var b := MapSeq(f, xs) + [f(x)];
    forall i | 0 <= i < |a| ensures a[i] == b[i] {
      if i < |xs| {
        assert (xs + [x])[i] == xs[i];
      }
    }
  }

  /** A list of outcomes made into one: the first error, else every value in
      order (a loop that appends each row and stops at the first exception). */
  function AllOk<T>(rs: seq<Result<T>>): Result<seq<T>> {
    if rs == [] then Ok([])
    else
      match AllOk(rs[..|rs| - 1])
      case Err(e) => Err(e)
      case Ok(vs) =>
        match rs[|rs| - 1]
        case Err(e) => Err(e)
        case Ok(v) => Ok(vs + [v])
  }

  lemma AllOkStep<T>(rs: seq<Result<T>>, j: nat)
    requires j < |rs|
    ensures AllOk(rs[..j + 1]) ==
            match AllOk(rs[..j])
            case Err(e) => Err(e)
            case Ok(vs) =>
              match rs[j]
              case Err(e) => Err(e)
              case Ok(v) => Ok(vs + [v])
  {
    assert rs[..j + 1][..j] == rs[..j];
  }

  /** Once a prefix has failed, the whole list fails the same way. */
  lemma {:induction false} AllOkStopsAtError<T>(rs: seq<Result<T>>, j: nat)
    requires j <= |rs| && AllOk(rs[..j]).Err?
    ensures AllOk(rs) == AllOk(rs[..j])
    decreases |rs| - j
  {
    if j < |rs| {
      AllOkStep(rs, j);
      AllOkStopsAtError(rs, j + 1);
    } else {
      assert rs[..j] == rs;
    }
  }

  /** The outcome fails exactly when some element does; otherwise it holds
      every value, in order. */
  lemma {:induction false} AllOkShape<T>(rs: seq<Result<T>>)
    ensures AllOk(rs).Err? <==> exists j :: 0 <= j < |rs| && rs[j].Err?
    ensures AllOk(rs).Ok? ==>
              |AllOk(rs).value| == |rs| && forall j :: 0 <= j < |rs| ==> rs[j] == Ok(AllOk(rs).value[j])
  {
    if rs != [] {
      var init := rs[..|rs| - 1];
      AllOkShape(init);
      assert forall j :: 0 <= j < |init| ==> rs[j] == init[j];
    }
  }

  /** Lists of rows made into one: the first error, else all rows in order. */
  function Concat<T>(rss: seq<Result<seq<T>>>): Result<seq<T>> {
    if rss == [] then Ok([])
    else
      match Concat(rss[..|rss| - 1])
      case Err(e) => Err(e)
      case Ok(vs) =>
        match rss[|rss| - 1]
        case Err(e) => Err(e)
        case Ok(more) => Ok(vs + more)
  }

  lemma ConcatStep<T>(rss: seq<Result<seq<T>>>, i: nat)
    requires i < |rss|
    ensures Concat(rss[..i + 1]) ==
            match Concat(rss[..i])
            case Err(e) => Err(e)
            case Ok(vs) =>
              match rss[i]
              case Err(e) => Err(e)
              case Ok(more) => Ok(vs + more)
  {
    assert rss[..i + 1][..i] == rss[..i];
  }

  lemma {:induction false} ConcatStopsAtError<T>(rss: seq<Result<seq<T>>>, i: nat)
    requires i <= |rss| && Concat(rss[..i]).Err?
    ensures Concat(rss) == Concat(rss[..i])
    decreases |rss| - i
  {
    if i < |rss| {
      ConcatStep(rss, i);
      ConcatStopsAtError(rss, i + 1);
    } else {
      assert rss[..i] == rss;
    }
  }

  /** The concatenation fails exactly when some list does; otherwise, when
      every list has `n` rows, it has `n` rows per list and holds exactly
      their rows. */
  lemma {:induction false} ConcatShape<T>(rss: seq<Result<seq<T>>>, n: nat)
    requires forall i :: 0 <= i < |rss| && rss[i].Ok? ==> |rss[i].value| == n
    ensures Concat(rss).Err? <==> exists i :: 0 <= i < |rss| && rss[i].Err?
    ensures Concat(rss).Ok? ==>
              |Concat(rss).value| == n * |rss| &&
              forall x :: x in Concat(rss).value <==> exists i :: 0 <= i < |rss| && x in rss[i].value
  {
    if rss != [] {
      var init := rss[..|rss| - 1];
      assert forall i :: 0 <= i < |init| ==> rss[i] == init[i];
      ConcatShape(init, n);
      assert n * |rss| == n * |init| + n;
    }
  }

  /** The key rates `[1, 10, 24, 60]` at which both validation comparisons
      compare the two studies. */
  const ComparisonRates: seq<real> := [1.0, 10.0, 24.0, 60.0]

  /** `for fps in rates: for metric in metrics: results += cell(fps, metric)`. */
  function Grid<R>(cell: (real, string) -> seq<R>, rates: seq<real>, metrics: seq<string>): seq<R> {
    if rates == [] then []
    else Grid(cell, rates[..|rates| - 1], metrics) + GridRow(cell, rates[|rates| - 1], metrics)
  }

  function GridRow<R>(cell: (real, string) -> seq<R>, fps: real, metrics: seq<string>): seq<R> {
    if metrics == [] then []
    else GridRow(cell, fps, metrics[..|metrics| - 1]) + cell(fps, metrics[|metrics| - 1])
  }

  method GridRowLoop<R>(cell: (real, string) -> seq<R>, fps: real, metrics: seq<string>) returns (out: seq<R>)
    ensures out == GridRow(cell, fps, metrics)
  {
    out := [];
    var k := 0;
    while k < |metrics|
      invariant 0 <= k <= |metrics|
      invariant out == GridRow(cell, fps, metrics[..k])
    {
      assert metrics[..k + 1][..k] == metrics[..k];
      out := out + cell(fps, metrics[k]);
      k := k + 1;
    }
    assert metrics[..k] == metrics;
  }

  /** The nested loop over rates and metrics. */
  method GridLoop<R>(cell: (real, string) -> seq<R>, rates: seq<real>, metrics: seq<string>) returns (out: seq<R>)
    ensures out == Grid(cell, rates, metrics)
  {
    out := [];
    var i := 0;
    while i < |rates|
      invariant 0 <= i <= |rates|
      invariant out == Grid(cell, rates[..i], metrics)
    {
      var more := GridRowLoop(cell, rates[i], metrics);
      assert rates[..i + 1][..i] == rates[..i];
      out := out + more;
      i := i + 1;
    }
    assert rates[..i] == rates;
  }

  lemma {:induction false} GridRowMembers<R>(cell: (real, string) -> seq<R>, fps: real, metrics: seq<string>)
    ensures forall r :: r in GridRow(cell, fps, metrics) <==> exists j :: 0 <= j < |metrics| && r in cell(fps, metrics[j])
  {
    if metrics != [] {
      var init := metrics[..|metrics| - 1];
      GridRowMembers(cell, fps, init);
      assert forall j :: 0 <= j < |init| ==> init[j] == metrics[j];
    }
  }

  /** A row is in the grid exactly when one of its cells produced it. */
  lemma {:induction false} GridMembers<R>(cell: (real, string) -> seq<R>, rates: seq<real>, metrics: seq<string>)
    ensures forall r :: r in Grid(cell, rates, metrics) <==>
              exists i, j :: 0 <= i < |rates| && 0 <= j < |metrics| && r in cell(rates[i], metrics[j])
  {
    if rates != [] {
      var init := rates[..|rates| - 1];
      GridMembers(cell, init, metrics);
      GridRowMembers(cell, rates[|rates| - 1], metrics);
      assert forall i :: 0 <= i < |init| ==> init[i] == rates[i];
    }
  }

  /** A row of the grid is empty exactly when each of its cells is. */
  lemma {:induction false} GridRowEmpty<R>(cell: (real, string) -> seq<R>, fps: real, metrics: seq<string>)
    ensures GridRow(cell, fps, metrics) == [] <==>
              forall j :: 0 <= j < |metrics| ==> cell(fps, metrics[j]) == []
  {
    if metrics != [] {
      var init := metrics[..|metrics| - 1];
      GridRowEmpty(cell, fps, init);
      assert forall j :: 0 <= j < |init| ==> init[j] == metrics[j];
    }
  }

  /** The grid is empty exactly when each of its cells is. */
  lemma {:induction false} GridEmpty<R>(cell: (real, string) -> seq<R>, rates: seq<real>, metrics: seq<string>)
    ensures Grid(cell, rates, metrics) == [] <==>
              forall i, j :: 0 <= i < |rates| && 0 <= j < |metrics| ==> cell(rates[i], metrics[j]) == []
  {
    if rates != [] {
      var init := rates[..|rates| - 1];
      GridEmpty(cell, init, metrics);
      GridRowEmpty(cell, rates[|rates| - 1], metrics);
      assert forall i :: 0 <= i < |init| ==> init[i] == rates[i];
    }
  }

  /** The grid holds at most `n` rows per cell when no cell yields more. */
  lemma {:induction false} GridSize<R>(cell: (real, string) -> seq<R>, rates: seq<real>, metrics: seq<string>, n: nat)
    requires forall f, m :: |cell(f, m)| <= n
    ensures |Grid(cell, rates, metrics)| <= |rates| * (n * |metrics|)
  {
    if rates != [] {
      var b := n * |metrics|;
      GridSize(cell, rates[..|rates| - 1], metrics, n);
      GridRowSize(cell, rates[|rates| - 1], metrics, n);
      assert |rates| * b == (|rates| - 1) * b + b;
    }
  }

  lemma {:induction false} GridRowSize<R>(cell: (real, string) -> seq<R>, fps: real, metrics: seq<string>, n: nat)
    requires forall f, m :: |cell(f, m)| <= n
    ensures |GridRow(cell, fps, metrics)| <= n * |metrics|
  {
    if metrics != [] {
      GridRowSize(cell, fps, metrics[..|metrics| - 1], n);
    }
  }
}
