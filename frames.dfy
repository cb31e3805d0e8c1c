/** The analysis-ready corpus (the pandas DataFrame of normalised records) and
    the selections and group-bys the analysis stages perform on it. */
module Frames {
  import opened Stats

  /** One row of the corpus: one video measured at one sampling rate. Metric
      columns are held by name. */
  datatype Sample = Sample(
    videoId: string,
    fps: real,
    duration: real,
    tier: string,
    studyType: string,
    values: map<string, real>)

  /** A table: its column names and its rows. */
  datatype Frame = Frame(columns: set<string>, rows: seq<Sample>)

  /** The sample's value in column `m`. A metric the sample lacks reads as 0,
      the default the normaliser writes for every absent metric. */
  function Cell(s: Sample, m: string): real {
    if m in s.values then s.values[m] else 0.0
  }

  /** `df[m].values` */
  function Column(rows: seq<Sample>, m: string): (c: seq<real>)
    ensures |c| == |rows|
    ensures forall i :: 0 <= i < |rows| ==> c[i] == Cell(rows[i], m)
  {
    seq(|rows|, i requires 0 <= i < |rows| => Cell(rows[i], m))
  }

  /** `df[m].dropna()`: the cells of the rows that carry a value in `m`. */
  function Present(rows: seq<Sample>, m: string): (c: seq<real>)
    ensures |c| <= |rows|
  {
    if rows == [] then []
    else (if m in rows[0].values then [rows[0].values[m]] else []) + Present(rows[1..], m)
  }

  function FpsOf(rows: seq<Sample>): (c: seq<real>)
    ensures |c| == |rows| && forall i :: 0 <= i < |rows| ==> c[i] == rows[i].fps
  {
    seq(|rows|, i requires 0 <= i < |rows| => rows[i].fps)
  }

  function TiersOf(rows: seq<Sample>): (c: seq<string>)
    ensures |c| == |rows| && forall i :: 0 <= i < |rows| ==> c[i] == rows[i].tier
  {
    seq(|rows|, i requires 0 <= i < |rows| => rows[i].tier)
  }

  function VideosOf(rows: seq<Sample>): (c: seq<string>)
    ensures |c| == |rows| && forall i :: 0 <= i < |rows| ==> c[i] == rows[i].videoId
  {
    seq(|rows|, i requires 0 <= i < |rows| => rows[i].videoId)
  }

  /** The boolean masks `df[df[key] == value]` used by the analysis. */
  datatype Criterion =
    | TierIs(tier: string)
    | FpsIs(fps: real)
    | VideoIs(videoId: string)
    | StudyIs(studyType: string)

  predicate Matches(s: Sample, c: Criterion) {
    match c
    case TierIs(t) => s.tier == t
    case FpsIs(f) => s.fps == f
    case VideoIs(v) => s.videoId == v
    case StudyIs(st) => s.studyType == st
  }

  /** The rows that satisfy a mask, in their original order. */
  function Where(rows: seq<Sample>, c: Criterion): (r: seq<Sample>)
    ensures |r| <= |rows|
    ensures forall s :: s in r <==> s in rows && Matches(s, c)
  {
    if rows == [] then []
    else (if Matches(rows[0], c) then [rows[0]] else []) + Where(rows[1..], c)
  }

  /** A mask keeps a single row exactly when it matches. */
  lemma WhereOne(s: Sample, c: Criterion)
    ensures Where([s], c) == (if Matches(s, c) then [s] else [])
  {
    assert [s][1..] == [];
  }

  /** A mask distributes over concatenation; with `WhereOne` this fixes the
      kept rows, their order and their multiplicity. */
  lemma {:induction false} WhereAppend(a: seq<Sample>, b: seq<Sample>, c: Criterion)
    ensures Where(a + b, c) == Where(a, c) + Where(b, c)
  {
    if a == [] {
      assert a + b == b;
    } else {
      var ab := a + b;
      var tail := a[1..];
      assert ab[0] == a[0] && ab[1..] == tail + b;
      WhereAppend(tail, b, c);
      WhereUnfold(ab, c);
      WhereUnfold(a, c);
      var head := if Matches(a[0], c) then [a[0]] else [];
      Associative(head, Where(tail, c), Where(b, c));
    }
  }

  lemma Associative<T>(x: seq<T>, y: seq<T>, z: seq<T>)
    ensures x + (y + z) == (x + y) + z
  {
  }

  lemma WhereUnfold(rows: seq<Sample>, c: Criterion)
    requires rows != []
    ensures Where(rows, c) == (if Matches(rows[0], c) then [rows[0]] else []) + Where(rows[1..], c)
  {
  }

  /** A mask that no row matches keeps nothing. */
  lemma {:induction false} WhereNone(rows: seq<Sample>, c: Criterion)
    requires forall i :: 0 <= i < |rows| ==> !Matches(rows[i], c)
    ensures Where(rows, c) == []
  {
    if rows != [] {
      WhereNone(rows[1..], c);
    }
  }

  lemma WhereNonEmpty(rows: seq<Sample>, c: Criterion, i: nat)
    requires i < |rows| && Matches(rows[i], c)
    ensures Where(rows, c) != []
  {
    assert rows[i] in rows;
    assert rows[i] in Where(rows, c);
  }

  predicate NoDuplicates<T(==)>(xs: seq<T>) {
    forall i, j :: 0 <= i < j < |xs| ==> xs[i] != xs[j]
  }

  /** `Series.unique()`: each value once, in order of first appearance. */
  function Distinct<T(==,!new)>(xs: seq<T>): (d: seq<T>)
    ensures NoDuplicates(d)
    ensures forall x :: x in d <==> x in xs
  {
    if xs == [] then []
    else
      var init := Distinct(xs[..|xs| - 1]);
      var last := xs[|xs| - 1];
      assert xs == xs[..|xs| - 1] + [last];
      if last in init then init else init + [last]
  }

  predicate Increasing(xs: seq<real>) {
    forall i, j :: 0 <= i < j < |xs| ==> xs[i] < xs[j]
  }

  function InsertSorted(x: real, s: seq<real>): (r: seq<real>)
    requires Increasing(s)
    ensures Increasing(r)
    ensures forall y :: y in r <==> y == x || y in s
  {
    if s == [] then [x]
    else if x < s[0] then
      HeadBelow(x, s);
      ConsIncreasing(x, s);
      [x] + s
    else if x == s[0] then s
    else
      var tail := InsertSorted(x, s[1..]);
      HeadBelow(s[0], s[1..]);
      ConsIncreasing(s[0], tail);
      [s[0]] + tail
  }

  /** In an increasing sequence, a value below the first element is below all. */
  lemma HeadBelow(h: real, t: seq<real>)
    requires Increasing(t)
    requires t != [] ==> h < t[0]
    ensures forall y :: y in t ==> h < y
  {
  }

  lemma ConsIncreasing(h: real, t: seq<real>)
    requires Increasing(t)
    requires forall y :: y in t ==> h < y
    ensures Increasing([h] + t)
  {
    var r := [h] + t;
    forall i, j | 0 <= i < j < |r| ensures r[i] < r[j] {
      assert r[j] == t[j - 1];
      if i > 0 {
        assert r[i] == t[i - 1];
      } else {
        assert t[j - 1] in t;
      }
    }
  }

  /** `sorted(series.unique())`: the distinct values in ascending order. */
  function SortedDistinct(xs: seq<real>): (r: seq<real>)
    ensures Increasing(r)
    ensures forall y :: y in r <==> y in xs
  {
    if xs == [] then []
    else
      var last := xs[|xs| - 1];
      assert xs == xs[..|xs| - 1] + [last];
      InsertSorted(last, SortedDistinct(xs[..|xs| - 1]))
  }

  /** The three content tiers, in the order the analyses list them. */
  const ContentTiers: seq<string> := ["cinema", "produced_digital", "web_ugc"]

  /** One entry of `groupby('fps')[m].mean()`. */
  datatype Point = Point(fps: real, mean: real)

  /** A per-FPS mean curve with its index in strictly ascending order. */
  predicate Ascending(c: seq<Point>) {
    forall i, j :: 0 <= i < j < |c| ==> c[i].fps < c[j].fps
  }

  function Fpses(c: seq<Point>): (r: seq<real>)
    ensures |r| == |c| && forall i :: 0 <= i < |c| ==> r[i] == c[i].fps
  {
    seq(|c|, i requires 0 <= i < |c| => c[i].fps)
  }

  function Means(c: seq<Point>): (r: seq<real>)
    ensures |r| == |c| && forall i :: 0 <= i < |c| ==> r[i] == c[i].mean
  {
    seq(|c|, i requires 0 <= i < |c| => c[i].mean)
  }

  /** The rows measured at one sampled rate: a group of `groupby('fps')`. */
  function FpsGroup(rows: seq<Sample>, f: real): (g: seq<Sample>)
    requires f in FpsOf(rows)
    ensures g != []
    ensures forall s :: s in g <==> s in rows && s.fps == f
  {
    var i :| 0 <= i < |rows| && rows[i].fps == f;
    WhereNonEmpty(rows, FpsIs(f), i);
    Where(rows, FpsIs(f))
  }

  /** `rows.groupby('fps')[m].mean().sort_index()`: one point per distinct
      sampled rate, in ascending order, holding the mean of `m` over the rows
      sampled at that rate. */
  function Curve(rows: seq<Sample>, m: string): (c: seq<Point>)
    ensures Ascending(c)
    ensures |c| <= |rows|
    ensures rows != [] ==> c != []
    ensures forall i :: 0 <= i < |c| ==> c[i].fps in FpsOf(rows)
    ensures forall i :: 0 <= i < |rows| ==> rows[i].fps in Fpses(c)
    ensures forall i :: 0 <= i < |c| ==> c[i].mean == Mean(Column(FpsGroup(rows, c[i].fps), m))
  {
    var fs := SortedDistinct(FpsOf(rows));
    DistinctLength(FpsOf(rows), fs);
    RowRatesSampled(rows, fs);
    var c := seq(|fs|, i requires 0 <= i < |fs| => Point(fs[i], Mean(Column(FpsGroup(rows, fs[i]), m))));
    assert Fpses(c) == fs;
    c
  }

  lemma RowRatesSampled(rows: seq<Sample>, fs: seq<real>)
    requires forall y :: y in fs <==> y in FpsOf(rows)
    ensures forall i :: 0 <= i < |rows| ==> rows[i].fps in fs
    ensures rows != [] ==> fs != []
  {
    forall i | 0 <= i < |rows| ensures rows[i].fps in fs {
      assert FpsOf(rows)[i] == rows[i].fps;
    }
    if rows != [] {
      assert rows[0].fps in fs;
    }
  }

  /** A duplicate-free sequence drawn from `xs` is no longer than `xs`. */
  lemma DistinctLength(xs: seq<real>, d: seq<real>)
    requires Increasing(d)
    requires forall y :: y in d ==> y in xs
    ensures |d| <= |xs|
  {
    var inXs := set y | y in xs;
    var inD := set y | y in d;
    assert inD <= inXs;
    SetOfSeqSize(xs);
    IncreasingSetSize(d);
    assert |inD| <= |inXs| by { SubsetSize(inD, inXs); }
  }

  lemma SubsetSize(a: set<real>, b: set<real>)
    requires a <= b
    ensures |a| <= |b|
  {
    assert b == a + (b - a);
  }

  lemma {:induction false} SetOfSeqSize(xs: seq<real>)
    ensures |set y | y in xs| <= |xs|
  {
    if xs != [] {
      var rest := xs[1..];
      SetOfSeqSize(rest);
      assert (set y | y in xs) == (set y | y in rest) + {xs[0]};
    }
  }

  lemma {:induction false} IncreasingSetSize(d: seq<real>)
    requires Increasing(d)
    ensures |set y | y in d| == |d|
  {
    if d != [] {
      var rest := d[1..];
      IncreasingSetSize(rest);
      assert (set y | y in d) == (set y | y in rest) + {d[0]};
      assert d[0] !in rest;
    }
  }

  /** `fps_means.get(f, 0)`: the mean at rate `f`, or 0 when the curve has no
      point there. */
  function MeanAt(c: seq<Point>, f: real): real {
    if c == [] then 0.0
    else if c[0].fps == f then c[0].mean
    else MeanAt(c[1..], f)
  }

  lemma {:induction false} MeanAtPoint(c: seq<Point>, i: nat)
    requires Ascending(c) && i < |c|
    ensures MeanAt(c, c[i].fps) == c[i].mean
  {
    if i > 0 {
      MeanAtPoint(c[1..], i - 1);
    }
  }

  lemma {:induction false} MeanAtMissing(c: seq<Point>, f: real)
    requires forall i :: 0 <= i < |c| ==> c[i].fps != f
    ensures MeanAt(c, f) == 0.0
  {
    if c != [] {
      MeanAtMissing(c[1..], f);
    }
  }
}
