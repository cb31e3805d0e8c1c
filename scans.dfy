/** The two order-sensitive scans over an FPS-ascending sequence of values
    that the stability, threshold and tier-mapping stages share: the first
    point where the relative change from the previous point drops below 5%,
    and the first point whose value reaches a target. */
module Scans {
  import opened Stats
  import opened Wrappers

  /** The diminishing-returns test `prev > 0 and abs(curr - prev) / prev < 0.05`,
      written without the division. */
  predicate Steady(prev: real, curr: real) {
    prev > 0.0 && Abs(curr - prev) < 0.05 * prev
  }

  /** The division-free form agrees with the relative change the source computes. */
  lemma SteadyIsRelativeChange(prev: real, curr: real)
    requires prev > 0.0
    ensures Steady(prev, curr) <==> Abs(curr - prev) / prev < 0.05
  {
    var d := Abs(curr - prev);
    var q := d / prev;
    assert q * prev == d;
    if q < 0.05 {
      MulLeft(prev, q, 0.05);
      assert q * prev < 0.05 * prev by {
        assert (0.05 - q) * prev > 0.0;
      }
    }
    if d < 0.05 * prev {
      if q >= 0.05 {
        MulLeft(prev, 0.05, q);
        assert false;
      }
    }
  }

  /** The first index k >= i (and k >= 1) at which `vs[k - 1] -> vs[k]` is steady. */
  function FirstSteadyFrom(vs: seq<real>, i: nat): (k: Option<nat>)
    requires i >= 1
    decreases |vs| - i
    ensures k.Some? ==> i <= k.value < |vs| && Steady(vs[k.value - 1], vs[k.value])
    ensures k.Some? ==> forall j :: i <= j < k.value ==> !Steady(vs[j - 1], vs[j])
    ensures k.None? ==> forall j :: i <= j < |vs| ==> !Steady(vs[j - 1], vs[j])
  {
    if i >= |vs| then None
    else if Steady(vs[i - 1], vs[i]) then Some(i)
    else FirstSteadyFrom(vs, i + 1)
  }

  function FirstSteady(vs: seq<real>): Option<nat> {
    FirstSteadyFrom(vs, 1)
  }

  /** The rate reported by the diminishing-returns scan: the rate at the first
      steady index, or the highest sampled rate when there is none. */
  function StableFps(vs: seq<real>, fps: seq<real>): real
    requires |vs| == |fps| && fps != []
  {
    match FirstSteady(vs)
    case Some(k) => fps[k]
    case None => fps[|fps| - 1]
  }

  /** `stable_fps = fps_levels[-1]; for i in range(1, len(values)): ... break` */
  method ScanStable(vs: seq<real>, fps: seq<real>) returns (f: real)
    requires |vs| == |fps| && fps != []
    ensures f == StableFps(vs, fps)
  {
    f := fps[|fps| - 1];
    var i := 1;
    while i < |vs|
      invariant 1 <= i <= |vs|
      invariant FirstSteady(vs) == FirstSteadyFrom(vs, i)
      invariant f == fps[|fps| - 1]
    {
      if vs[i - 1] > 0.0 {
        var change := Abs(vs[i] - vs[i - 1]) / vs[i - 1];
        SteadyIsRelativeChange(vs[i - 1], vs[i]);
        if change < 0.05 {
          f := fps[i];
          break;
        }
      }
      i := i + 1;
    }
  }

  /** With at least two samples the scan never reports the lowest rate. */
  lemma StableFpsAboveLowest(vs: seq<real>, fps: seq<real>)
    requires |vs| == |fps| && |fps| >= 2
    requires forall i, j :: 0 <= i < j < |fps| ==> fps[i] < fps[j]
    ensures fps[0] < StableFps(vs, fps)
  {
  }

  /** The first index k >= i with `vs[k] >= target`. */
  function FirstAtLeastFrom(vs: seq<real>, target: real, i: nat): (k: Option<nat>)
    decreases |vs| - i
    ensures k.Some? ==> i <= k.value < |vs| && vs[k.value] >= target
    ensures k.Some? ==> forall j :: i <= j < k.value ==> vs[j] < target
    ensures k.None? ==> forall j :: i <= j < |vs| ==> vs[j] < target
  {
    if i >= |vs| then None
    else if vs[i] >= target then Some(i)
    else FirstAtLeastFrom(vs, target, i + 1)
  }

  function FirstAtLeast(vs: seq<real>, target: real): Option<nat> {
    FirstAtLeastFrom(vs, target, 0)
  }

  /** `for v in vs: if v >= target: ...; break` — the for/else scan. */
  method ScanAtLeast(vs: seq<real>, target: real) returns (k: Option<nat>)
    ensures k == FirstAtLeast(vs, target)
  {
    k := None;
    var i := 0;
    while i < |vs|
      invariant 0 <= i <= |vs|
      invariant FirstAtLeast(vs, target) == FirstAtLeastFrom(vs, target, i)
    {
      if vs[i] >= target {
        k := Some(i);
        return;
      }
      i := i + 1;
    }
  }

  /** Any value that reaches the target bounds the first such index. */
  lemma FirstAtLeastWithin(vs: seq<real>, target: real, j: nat)
    requires j < |vs| && vs[j] >= target
    ensures FirstAtLeast(vs, target).Some? && FirstAtLeast(vs, target).value <= j
  {
  }

  /** Raising the target never moves the first reaching index earlier. */
  lemma FirstAtLeastMonotone(vs: seq<real>, lower: real, higher: real)
    requires lower <= higher
    requires FirstAtLeast(vs, higher).Some?
    ensures FirstAtLeast(vs, lower).Some?
    ensures FirstAtLeast(vs, lower).value <= FirstAtLeast(vs, higher).value
  {
    FirstAtLeastWithin(vs, lower, FirstAtLeast(vs, higher).value);
  }
}
