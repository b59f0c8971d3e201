/**
 * The data side of the sparkline widget: sample sanitising and the resampling
 * of a heartbeat series to a fixed number of bars.
 */
module Sparkline {
  import opened Js

  /** One bar: a status name and a unix timestamp. */
  datatype Sample = Sample(status: string, timestamp: int)

  const DefaultWidth := 96
  const CompactWidth := 72
  const MaxSamples := 24
  const TargetBars := 24

  /** The bar used for padding and for an empty series. */
  const Placeholder := Sample("unknown", 0)

  // ---------------------------------------------------------------------------
  // sanitizeSamples

  /** The sample read from one truthy element: text status or `unknown`, numeric timestamp or 0. */
  function ReadSample(j: Json): (r: Sample)
    requires !Nullish(j)
    ensures Get(j, "status").JStr? ==> r.status == Get(j, "status").s
    ensures !Get(j, "status").JStr? ==> r.status == "unknown"
    ensures Get(j, "timestamp").JNum? ==> r.timestamp == Get(j, "timestamp").n
    ensures !Get(j, "timestamp").JNum? ==> r.timestamp == 0
  {
    var status := Get(j, "status");
    var timestamp := Get(j, "timestamp");
    Sample(if status.JStr? then status.s else "unknown", if timestamp.JNum? then timestamp.n else 0)
  }

  /** The `filter` and `map` steps: truthy elements, read in order. */
  function ReadSamples(items: seq<Json>): (r: seq<Sample>)
    ensures |r| <= |items|
  {
    if items == [] then []
    else
      var last := items[|items| - 1];
      ReadSamples(items[..|items| - 1]) + (if Truthy(last) then [ReadSample(last)] else [])
  }

  predicate SortedByTime(s: seq<Sample>) {
    forall i, j :: 0 <= i < j < |s| ==> s[i].timestamp <= s[j].timestamp
  }

  /** The samples of `s` stamped `t`, in order. */
  function AtTime(s: seq<Sample>, t: int): seq<Sample> {
    if s == [] then []
    else AtTime(s[..|s| - 1], t) + (if s[|s| - 1].timestamp == t then [s[|s| - 1]] else [])
  }

  /** The samples stamped `t` of one sample. */
  function AtTimeOne(x: Sample, t: int): seq<Sample> {
    if x.timestamp == t then [x] else []
  }

  lemma AtTimeSnoc(s: seq<Sample>, x: Sample, t: int)
    ensures AtTime(s + [x], t) == AtTime(s, t) + AtTimeOne(x, t)
  {
    assert (s + [x])[..|s|] == s;
  }

  /** Insert `x` after every element stamped no later than it. */
  function Insert(x: Sample, s: seq<Sample>): (r: seq<Sample>)
    ensures |r| == |s| + 1
    ensures multiset(r) == multiset(s) + multiset{x}
  {
    if s == [] then [x]
    else if s[|s| - 1].timestamp <= x.timestamp then s + [x]
    else
      assert s == s[..|s| - 1] + [s[|s| - 1]];
      Insert(x, s[..|s| - 1]) + [s[|s| - 1]]
  }

  /** Stable insertion sort by timestamp (the order `Array.prototype.sort` gives). */
  function SortByTime(s: seq<Sample>): (r: seq<Sample>)
    ensures |r| == |s|
    ensures multiset(r) == multiset(s)
  {
    if s == [] then []
    else
      assert s == s[..|s| - 1] + [s[|s| - 1]];
      Insert(s[|s| - 1], SortByTime(s[..|s| - 1]))
  }

  lemma {:induction false} InsertSorted(x: Sample, s: seq<Sample>)
    requires SortedByTime(s)
    ensures SortedByTime(Insert(x, s))
    decreases |s|
  {
    if s != [] && s[|s| - 1].timestamp > x.timestamp {
      var init := s[..|s| - 1];
      InsertSorted(x, init);
      var r := Insert(x, init);
      assert forall k :: 0 <= k < |r| ==> r[k] in multiset(init) + multiset{x};
      assert forall k :: 0 <= k < |r| ==> r[k].timestamp <= s[|s| - 1].timestamp by {
        forall k | 0 <= k < |r|
          ensures r[k].timestamp <= s[|s| - 1].timestamp
        {
          assert r[k] in multiset(init) + multiset{x};
          if r[k] != x {
            assert r[k] in init;
          }
        }
      }
    }
  }

  lemma {:induction false} InsertAtTime(x: Sample, s: seq<Sample>, t: int)
    ensures AtTime(Insert(x, s), t) == AtTime(s, t) + AtTimeOne(x, t)
    decreases |s|
  {
    if s == [] {
      AtTimeSnoc([], x, t);
      assert [] + [x] == [x];
    } else if s[|s| - 1].timestamp <= x.timestamp {
      AtTimeSnoc(s, x, t);
    } else {
      var init := s[..|s| - 1];
      var last := s[|s| - 1];
      assert s == init + [last];
      InsertAtTime(x, init, t);
      AtTimeSnoc(Insert(x, init), last, t);
      AtTimeSnoc(init, last, t);
      // `last` is stamped later than `x`, so at most one of them is stamped `t`
      assert AtTimeOne(x, t) == [] || AtTimeOne(last, t) == [];
    }
  }

  /** The sort orders by timestamp; it is a permutation; samples with equal stamps keep their order. */
  lemma {:induction false} SortByTimeCorrect(s: seq<Sample>)
    ensures SortedByTime(SortByTime(s))
    ensures multiset(SortByTime(s)) == multiset(s)
    ensures forall t :: AtTime(SortByTime(s), t) == AtTime(s, t)
  {
    if s != [] {
      var init := s[..|s| - 1];
      SortByTimeCorrect(init);
      InsertSorted(s[|s| - 1], SortByTime(init));
      forall t ensures AtTime(SortByTime(s), t) == AtTime(s, t) {
        InsertAtTime(s[|s| - 1], SortByTime(init), t);
      }
    }
  }

  /** Sorting a series that is already in time order changes nothing. */
  lemma {:induction false} SortByTimeOfSorted(s: seq<Sample>)
    requires SortedByTime(s)
    ensures SortByTime(s) == s
  {
    if s != [] {
      var init := s[..|s| - 1];
      assert SortedByTime(init);
      SortByTimeOfSorted(init);
      assert s == init + [s[|s| - 1]];
    }
  }

  /** `sanitizeSamples`: a non-array gives no samples. */
  function Sanitize(samples: Json): (r: seq<Sample>)
    ensures !samples.JArr? ==> r == []
    ensures samples.JArr? ==> |r| <= |samples.items|
  {
    if !samples.JArr? then [] else SortByTime(ReadSamples(samples.items))
  }

  /** The sanitised series is sorted, and is a stable permutation of the truthy elements read in order. */
  lemma {:induction false} SanitizeCorrect(samples: Json)
    requires samples.JArr?
    ensures SortedByTime(Sanitize(samples))
    ensures multiset(Sanitize(samples)) == multiset(ReadSamples(samples.items))
    ensures forall t :: AtTime(Sanitize(samples), t) == AtTime(ReadSamples(samples.items), t)
  {
    SortByTimeCorrect(ReadSamples(samples.items));
  }

  // ---------------------------------------------------------------------------
  // Resampling to a fixed number of bars

  /** The source position of bar `i` when `len` samples are squeezed into `target` bars. */
  function StrideIndex(i: nat, len: nat, target: nat): (r: nat)
    requires i < target
    ensures r < len || len == 0
  {
    StrideBound(i, len, target);
    i * len / target
  }

  lemma MulPositive(x: int, t: int)
    requires t > 0 && x * t > 0
    ensures x > 0
  {
  }

  /** `a < b * t` bounds the quotient: `a / t < b`. */
  lemma DivBelow(a: nat, b: nat, t: nat)
    requires t > 0 && a < b * t
    ensures a / t < b
  {
    var q := a / t;
    assert q * t <= a;
    assert (b - q) * t == b * t - q * t;
    MulPositive(b - q, t);
  }

  lemma StrideBound(i: nat, len: nat, target: nat)
    requires i < target
    ensures len == 0 || i * len / target < len
  {
    if len > 0 {
      assert target * len - i * len == (target - i) * len;
      assert (target - i) * len >= len by {
        MulAtLeast(target - i, len);
      }
      DivBelow(i * len, len, target);
    }
  }

  lemma MulAtLeast(k: nat, n: nat)
    requires k >= 1
    ensures k * n >= n
  {
    assert k * n == n + (k - 1) * n;
  }

  function Padding(n: nat): (r: seq<Sample>)
    ensures |r| == n && forall k :: 0 <= k < n ==> r[k] == Placeholder
  {
    seq(n, _ => Placeholder)
  }

  /**
   * `setSamples` after sanitising: an empty series becomes `target` placeholders,
   * a longer one is down-sampled with a floor stride, a shorter one is padded
   * at the front, and one of the right length is kept.
   */
  function Resample(ns: seq<Sample>, target: nat): (r: seq<Sample>)
    ensures |r| == target
  {
    if |ns| == 0 then Padding(target)
    else if |ns| > target then
      seq(target, i requires 0 <= i < target => ns[StrideIndex(i, |ns|, target)])
    else if |ns| < target then Padding(target - |ns|) + ns
    else ns
  }

  lemma DivStep(x: nat, y: nat, t: nat)
    requires t > 0 && x + t <= y
    ensures x / t < y / t
  {
    var qx, rx := x / t, x % t;
    var qy, ry := y / t, y % t;
    assert x == qx * t + rx && y == qy * t + ry;
    assert (qy - qx) * t == qy * t - qx * t;
    assert (qy - qx) * t > 0;
    MulPositive(qy - qx, t);
  }

  /** Down-sampling picks strictly increasing source positions, so it keeps the series order. */
  lemma StrideIncreasing(i: nat, j: nat, len: nat, target: nat)
    requires i < j < target < len
    ensures StrideIndex(i, len, target) < StrideIndex(j, len, target)
  {
    assert j * len - i * len == (j - i) * len;
    MulAtLeast(j - i, len);
    DivStep(i * len, j * len, target);
  }

  /** The shape of every resampled series, case by case. */
  lemma ResampleCases(ns: seq<Sample>, target: nat)
    ensures |ns| == 0 ==> forall k :: 0 <= k < target ==> Resample(ns, target)[k] == Placeholder
    ensures 0 < |ns| < target ==>
      Resample(ns, target)[..target - |ns|] == Padding(target - |ns|)
      && Resample(ns, target)[target - |ns|..] == ns
    ensures |ns| == target ==> Resample(ns, target) == ns
    ensures |ns| > target ==> forall i :: 0 <= i < target ==>
      Resample(ns, target)[i] == ns[StrideIndex(i, |ns|, target)]
  {
  }

  /** Resampling a series again changes nothing. */
  lemma ResampleIdempotent(ns: seq<Sample>, target: nat)
    ensures Resample(Resample(ns, target), target) == Resample(ns, target)
  {
  }

  // ---------------------------------------------------------------------------
  // The widget state

  class SparklineModel {
    const defaultWidth: int
    const compactWidth: int
    const maxSamples: int
    const targetBars: nat
    var samples: seq<Sample>
    /** The width the widget currently asks for. */
    var width: int
    /** How many repaints have been queued. */
    var repaints: nat

    /** Either the full series or (initially and after `clear`) nothing. */
    ghost predicate Valid()
      reads this
    {
      |samples| == targetBars || samples == []
    }

    constructor(width: int, compactWidth: int, maxSamples: int, targetBars: nat)
      ensures Valid()
      ensures this.defaultWidth == width && this.compactWidth == compactWidth
      ensures this.maxSamples == maxSamples && this.targetBars == targetBars
      ensures samples == [] && this.width == width && repaints == 0
    {
      this.defaultWidth := width;
      this.compactWidth := compactWidth;
      this.maxSamples := maxSamples;
      this.targetBars := targetBars;
      samples := [];
      this.width := width;
      repaints := 0;
    }

    /** `setSamples`: replace the series by exactly `targetBars` bars and queue a repaint. */
    method SetSamples(input: Json)
      modifies this
      ensures Valid()
      ensures samples == Resample(Sanitize(input), targetBars)
      ensures |samples| == targetBars
      ensures repaints == old(repaints) + 1
      ensures width == old(width)
    {
      var normalized := Sanitize(input);
      var len := |normalized|;
      if len == 0 {
        samples := Padding(targetBars);
      } else if len > targetBars {
        var picked: seq<Sample> := [];
        for i := 0 to targetBars
          invariant |picked| == i
          invariant forall k :: 0 <= k < i ==> picked[k] == normalized[StrideIndex(k, len, targetBars)]
        {
          picked := picked + [normalized[StrideIndex(i, len, targetBars)]];
        }
        samples := picked;
      } else if len < targetBars {
        samples := Padding(targetBars - len) + normalized;
      } else {
        samples := normalized;
      }
      repaints := repaints + 1;
    }

    /** `setMode`: the compact width for `compact`, the default width otherwise. */
    method SetMode(mode: string)
      modifies this
      ensures width == (if mode == "compact" then compactWidth else defaultWidth)
      ensures samples == old(samples) && repaints == old(repaints)
    {
      width := if mode == "compact" then compactWidth else defaultWidth;
    }

    /** `clear`: drop the series; nothing happens, not even a repaint, when it is already empty. */
    method Clear()
      requires Valid()
      modifies this
      ensures Valid()
      ensures samples == []
      ensures repaints == if old(samples) == [] then old(repaints) else old(repaints) + 1
      ensures width == old(width)
    {
      if |samples| == 0 {
        return;
      }
      samples := [];
      repaints := repaints + 1;
    }
  }
}
