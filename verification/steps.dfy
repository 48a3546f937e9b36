/** Step detection for the tilt experiments: the trigger post-processing
    that turns a characteristic function (the STA/LTA ratio, an input here)
    into onset and end times of the steps, the nearest-sample search, and
    the angle each step turns through. */
module Steps {
  import opened Base

  /** `np.where(p(s))[0]`: the indices at which `p` holds, in ascending
      order. */
  function IndicesWhere(s: seq<real>, p: real -> bool): (idx: seq<nat>)
    ensures forall j :: 0 <= j < |idx| ==> idx[j] < |s| && p(s[idx[j]])
    ensures forall j, j' :: 0 <= j < j' < |idx| ==> idx[j] < idx[j']
    ensures forall i :: 0 <= i < |s| && p(s[i]) ==> i in idx
  {
    if |s| == 0 then []
    else
      var front := IndicesWhere(s[..|s| - 1], p);
      assert forall j :: 0 <= j < |front| ==> s[..|s| - 1][front[j]] == s[front[j]];
      if p(s[|s| - 1]) then front + [|s| - 1] else front
  }

  /** Position i of the index list ends a run of consecutive indices. */
  predicate IsRunEnd(idx: seq<nat>, i: int) {
    0 <= i < |idx| - 1 && idx[i + 1] as int - idx[i] as int > 1
  }

  /** The state of the trigger loop: the times emitted so far and the last
      one (`on0`, which starts at 0). */
  datatype Emitted = Emitted(times: seq<real>, last: real)

  /** One pass of the trigger loop at position i: a run end whose time
      `idx[i] * delta` lies in `[start, stop]` emits that time plus the
      offset `c`, unless it is within 1.0 of the previous emission. */
  function Step(e: Emitted, idx: seq<nat>, i: int, delta: real, c: real, start: real, stop: real): (r: Emitted)
    requires 0 <= i < |idx| - 1
  {
    if IsRunEnd(idx, i) then
      var trigg := idx[i] as real * delta;
      if trigg >= start && trigg <= stop && Abs(trigg + c - e.last) > 1.0 then
        Emitted(e.times + [trigg + c], trigg + c)
      else e
    else e
  }

  /** The loop state after the first k passes. */
  function Scan(idx: seq<nat>, k: nat, delta: real, c: real, start: real, stop: real): (r: Emitted)
    requires k <= Max(0, |idx| - 1)
  {
    if k == 0 then Emitted([], 0.0)
    else Step(Scan(idx, k - 1, delta, c, start, stop), idx, k - 1, delta, c, start, stop)
  }

  /** The number of passes, `len(range(len(idx) - 1))`. */
  function Passes(idx: seq<nat>): (r: nat) {
    Max(0, |idx| - 1)
  }

  /** The trigger loop over one index list (shared by onsets and ends). */
  method ExtractSteps(idx: seq<nat>, delta: real, c: real, start: real, stop: real) returns (times: seq<real>)
    ensures times == Scan(idx, Passes(idx), delta, c, start, stop).times
  {
    times := [];
    var last := 0.0;
    for i := 0 to Passes(idx)
      invariant Emitted(times, last) == Scan(idx, i, delta, c, start, stop)
    {
      if idx[i + 1] as int - idx[i] as int > 1 {
        var trigg := idx[i] as real * delta;
        if trigg >= start && trigg <= stop {
          if Abs((trigg + c) - last) > 1.0 {
            times := times + [trigg + c];
            last := trigg + c;
          }
        }
      }
    }
  }

  /** What the trigger loop keeps true: every emitted time comes from a run
      end inside `[start, stop]`, consecutive emissions (the first against
      0) are more than 1.0 apart, `last` is the latest emission, and each
      pass emits at most once. */
  ghost predicate ScanInvariant(idx: seq<nat>, k: nat, e: Emitted, delta: real, c: real, start: real, stop: real) {
    && |e.times| <= k
    && (forall j :: 0 <= j < |e.times| ==>
          exists i :: IsRunEnd(idx, i) && start <= idx[i] as real * delta <= stop &&
                      e.times[j] == idx[i] as real * delta + c)
    && (|e.times| > 0 ==> Abs(e.times[0] - 0.0) > 1.0)
    && (forall j :: 0 < j < |e.times| ==> Abs(e.times[j] - e.times[j - 1]) > 1.0)
    && e.last == (if |e.times| == 0 then 0.0 else e.times[|e.times| - 1])
  }

  /** One pass of the loop keeps the invariant. */
  lemma StepKeepsInvariant(idx: seq<nat>, k: nat, e: Emitted, delta: real, c: real, start: real, stop: real)
    requires k < |idx| - 1
    requires ScanInvariant(idx, k, e, delta, c, start, stop)
    ensures ScanInvariant(idx, k + 1, Step(e, idx, k, delta, c, start, stop), delta, c, start, stop)
  {
    var e' := Step(e, idx, k, delta, c, start, stop);
    if e' != e {
      var trigg := idx[k] as real * delta;
      assert IsRunEnd(idx, k) && start <= trigg <= stop && Abs(trigg + c - e.last) > 1.0;
      assert e'.times == e.times + [trigg + c];
      forall j | 0 <= j < |e'.times|
        ensures exists i :: IsRunEnd(idx, i) && start <= idx[i] as real * delta <= stop &&
                            e'.times[j] == idx[i] as real * delta + c
      {
        if j < |e.times| {
          assert e'.times[j] == e.times[j];
        } else {
          assert e'.times[j] == idx[k] as real * delta + c;
        }
      }
    }
  }

  lemma {:induction false} ScanKeepsInvariant(idx: seq<nat>, k: nat, delta: real, c: real, start: real, stop: real)
    requires k <= Passes(idx)
    ensures ScanInvariant(idx, k, Scan(idx, k, delta, c, start, stop), delta, c, start, stop)
  {
    if k > 0 {
      var e := Scan(idx, k - 1, delta, c, start, stop);
      assert Scan(idx, k, delta, c, start, stop) == Step(e, idx, k - 1, delta, c, start, stop);
      ScanKeepsInvariant(idx, k - 1, delta, c, start, stop);
      StepKeepsInvariant(idx, k - 1, e, delta, c, start, stop);
    }
  }

  /** Every emitted time is a run end in `[start, stop]` plus the offset. */
  lemma StepsAreRunEnds(idx: seq<nat>, delta: real, c: real, start: real, stop: real, j: int)
    requires 0 <= j < |Scan(idx, Passes(idx), delta, c, start, stop).times|
    ensures exists i :: IsRunEnd(idx, i) && start <= idx[i] as real * delta <= stop &&
                        Scan(idx, Passes(idx), delta, c, start, stop).times[j] == idx[i] as real * delta + c
  {
    ScanKeepsInvariant(idx, Passes(idx), delta, c, start, stop);
  }

  /** Emitted times are more than 1.0 apart from their predecessor, the
      first from 0; there are fewer of them than indices. */
  lemma StepsAreSpaced(idx: seq<nat>, delta: real, c: real, start: real, stop: real)
    ensures var times := Scan(idx, Passes(idx), delta, c, start, stop).times;
            && |times| <= Passes(idx)
            && (|times| > 0 ==> Abs(times[0]) > 1.0)
            && (forall j :: 0 < j < |times| ==> Abs(times[j] - times[j - 1]) > 1.0)
  {
    ScanKeepsInvariant(idx, Passes(idx), delta, c, start, stop);
  }

  /** `trigger`: onsets from the samples where the characteristic function
      drops below `d0`, ends from those where it rises above `d1`. */
  method Trigger(cft: seq<real>, delta: real, d0: real, d1: real, cOn: real, cOff: real, start: real, stop: real)
    returns (on: seq<real>, off: seq<real>)
    ensures on == Scan(IndicesWhere(cft, x => x < d0), Passes(IndicesWhere(cft, x => x < d0)), delta, cOn, start, stop).times
    ensures off == Scan(IndicesWhere(cft, x => x > d1), Passes(IndicesWhere(cft, x => x > d1)), delta, cOff, start, stop).times
  {
    var onIdx := IndicesWhere(cft, x => x < d0);
    var offIdx := IndicesWhere(cft, x => x > d1);
    on := ExtractSteps(onIdx, delta, cOn, start, stop);
    off := ExtractSteps(offIdx, delta, cOff, start, stop);
  }

  /** `np.abs(t - x).argmin()`: the first index of a time closest to x. */
  function NearestIndex(t: seq<real>, x: real): (k: nat)
    requires |t| > 0
    ensures k < |t|
    ensures forall i :: 0 <= i < |t| ==> Abs(t[k] - x) <= Abs(t[i] - x)
    ensures forall i :: 0 <= i < k ==> Abs(t[k] - x) < Abs(t[i] - x)
  {
    var dist := seq(|t|, i requires 0 <= i < |t| => Abs(t[i] - x));
    assert forall i :: 0 <= i < |t| ==> dist[i] == Abs(t[i] - x);
    FirstArgMin(dist)
  }

  /** `find_nearest(t, data, on, off)`: the indices nearest to both times
      and the data there; `argmin` of an empty array and indexing past the
      data fail. */
  function FindNearest(t: seq<real>, data: seq<real>, on: real, off: real): (r: Result<(nat, nat, real, real)>)
    ensures |t| == 0 ==> r == Err(EmptySequence)
    ensures |t| > 0 ==> (r == Err(IndexOutOfRange) <==> NearestIndex(t, on) >= |data| || NearestIndex(t, off) >= |data|)
    ensures |t| > 0 ==> (r.Ok? <==> NearestIndex(t, on) < |data| && NearestIndex(t, off) < |data|)
    ensures r.Ok? ==> |t| > 0 && r.value.0 == NearestIndex(t, on) && r.value.1 == NearestIndex(t, off) &&
                      r.value.2 == data[r.value.0] && r.value.3 == data[r.value.1]
  {
    if |t| == 0 then Err(EmptySequence)
    else
      var idxOn, idxOff := NearestIndex(t, on), NearestIndex(t, off);
      if idxOn >= |data| || idxOff >= |data| then Err(IndexOutOfRange)
      else Ok((idxOn, idxOff, data[idxOn], data[idxOff]))
  }

  /** `np.arange(n) / sampling_rate`. */
  function SampleTimes(n: nat, samplingRate: real): (t: seq<real>)
    requires samplingRate > 0.0
    ensures |t| == n
  {
    seq(n, k requires 0 <= k < n => k as real / samplingRate)
  }

  /** Sample times increase strictly. */
  lemma SampleTimesIncrease(n: nat, samplingRate: real, i: nat, j: nat)
    requires samplingRate > 0.0 && i < j < n
    ensures SampleTimes(n, samplingRate)[i] < SampleTimes(n, samplingRate)[j]
  {
    var t := SampleTimes(n, samplingRate);
    assert t[i] * samplingRate == i as real;
    assert t[j] * samplingRate == j as real;
    assert (t[j] - t[i]) * samplingRate == (j - i) as real;
  }

  /** The nearest sample to a sample time is that sample. */
  lemma NearestToSampleTime(n: nat, samplingRate: real, j: nat)
    requires samplingRate > 0.0 && j < n
    ensures NearestIndex(SampleTimes(n, samplingRate), SampleTimes(n, samplingRate)[j]) == j
  {
    var t := SampleTimes(n, samplingRate);
    var k := NearestIndex(t, t[j]);
    assert Abs(t[k] - t[j]) <= Abs(t[j] - t[j]);
    if k < j {
      SampleTimesIncrease(n, samplingRate, k, j);
    }
  }

  /** The angle of one step: the absolute difference of the integrated
      rotation at its nearest onset and end samples, which `find_nearest`
      always finds when the times and the data have one entry per
      sample. */
  function StepAngle(t: seq<real>, data: seq<real>, on: real, off: real): (a: real)
    requires 0 < |t| == |data|
    ensures a >= 0.0
    ensures FindNearest(t, data, on, off).Ok?
    ensures a == Abs(FindNearest(t, data, on, off).value.2 - FindNearest(t, data, on, off).value.3)
  {
    Abs(data[NearestIndex(t, on)] - data[NearestIndex(t, off)])
  }

  /** `get_angle(st, on, off)`: one angle per onset, paired with the end at
      the same position. */
  method GetAngle(data: seq<real>, samplingRate: real, on: seq<real>, off: seq<real>) returns (r: Result<seq<real>>)
    requires samplingRate > 0.0
    ensures r.Err? <==> |on| > 0 && (|off| < |on| || |data| == 0)
    ensures r.Err? ==> r.error == (if |off| == 0 || |data| > 0 then IndexOutOfRange else EmptySequence)
    ensures r.Ok? ==> |r.value| == |on| && (|on| > 0 ==> |data| > 0 && |off| >= |on|)
    ensures r.Ok? ==>
              forall i :: 0 <= i < |on| ==>
                r.value[i] == StepAngle(SampleTimes(|data|, samplingRate), data, on[i], off[i])
  {
    var t := SampleTimes(|data|, samplingRate);
    var alpha := [];
    for i := 0 to |on|
      invariant |alpha| == i
      invariant i > 0 ==> |data| > 0 && i <= |off|
      invariant forall j :: 0 <= j < i ==> alpha[j] == StepAngle(t, data, on[j], off[j])
    {
      if i >= |off| {
        return Err(IndexOutOfRange);
      }
      var nearest :- FindNearest(t, data, on[i], off[i]);
      alpha := alpha + [Abs(nearest.2 - nearest.3)];
    }
    return Ok(alpha);
  }
}
