/** Array utilities of the library: trace validation and stacking, the
    endpoint-checked range `arange2`, and the prefix-sum based windowed sum
    `moving_sum` with its three boundary modes. Samples are reals; the
    floating-point rounding of the original is not modelled. */
module Util {
  import opened Base

  // ---------------------------------------------------------------------
  // Traces and their validation
  // ---------------------------------------------------------------------

  /** The framework-independent view of one waveform: its samples, the name
      of the sample type, the sample interval and the start time. */
  datatype Trace = Trace(data: seq<real>, dtype: string, deltat: real, tmin: real)

  /** The tuple that must agree across traces before they can be stacked. */
  datatype TraceParams = TraceParams(size: nat, dtype: string, deltat: real, tmin: real)

  function Params(tr: Trace): (r: TraceParams) {
    TraceParams(|tr.data|, tr.dtype, tr.deltat, tr.tmin)
  }

  /** `_all_same`: every element equals the first one, which for a list
      means all elements are pairwise equal. */
  predicate AllSame<T(==)>(xs: seq<T>)
    ensures AllSame(xs) <==> forall i, j :: 0 <= i < |xs| && 0 <= j < |xs| ==> xs[i] == xs[j]
  {
    forall i :: 0 <= i < |xs| ==> xs[i] == xs[0]
  }

  /** A 2-D array: every row has the same length. */
  predicate Rectangular(rows: seq<seq<real>>) {
    forall k :: 0 <= k < |rows| ==> |rows[k]| == |rows[0]|
  }

  /** `get_traces_data_as_array`: reject an empty list or traces whose
      (size, dtype, deltat, tmin) differ; otherwise stack the samples into
      one row per trace, in input order. */
  function GetTracesDataAsArray(traces: seq<Trace>): (r: Result<seq<seq<real>>>)
    ensures r == Err(NoTraces) <==> |traces| == 0
    ensures r == Err(IncompatibleTraces) <==>
              |traces| > 0 && exists k :: 0 <= k < |traces| && Params(traces[k]) != Params(traces[0])
    ensures r.Err? ==> r.error == NoTraces || r.error == IncompatibleTraces
    ensures r.Ok? ==> |r.value| == |traces| > 0 && Rectangular(r.value)
    ensures r.Ok? ==> forall k :: 0 <= k < |traces| ==> r.value[k] == traces[k].data
    ensures r.Ok? ==> forall k :: 0 <= k < |traces| ==> traces[k].deltat == traces[0].deltat && traces[k].tmin == traces[0].tmin
  {
    if |traces| == 0 then Err(NoTraces)
    else
      var params := seq(|traces|, k requires 0 <= k < |traces| => Params(traces[k]));
      if !AllSame(params) then
        assert exists k :: 0 <= k < |traces| && Params(traces[k]) != Params(traces[0]);
        Err(IncompatibleTraces)
      else
        assert forall k :: 0 <= k < |traces| ==> Params(traces[k]) == params[k] == params[0];
        Ok(seq(|traces|, k requires 0 <= k < |traces| => traces[k].data))
  }

  /** A single trace is always compatible with itself. */
  lemma SingleTraceStacks(traces: seq<Trace>)
    requires |traces| == 1
    ensures GetTracesDataAsArray(traces) == Ok([traces[0].data])
  {
    var r := GetTracesDataAsArray(traces);
    assert !exists k :: 0 <= k < |traces| && Params(traces[k]) != Params(traces[0]);
    assert r.Ok?;
    assert r.value == [traces[0].data];
  }

  // ---------------------------------------------------------------------
  // arange2
  // ---------------------------------------------------------------------

  /** The `error` argument of `arange2`: raise on an inconsistent stop, or
      silently pick the number of steps by round, floor or ceil. */
  datatype Policy = Raise | Round | Floor | Ceil

  /** `n = int(rnd((stop - start) / step)) + 1`, where `rnd` is `math.floor`,
      `math.ceil` or, for `raise` and `round`, the built-in `round`. */
  function StepCount(start: real, stop: real, step: real, policy: Policy): (r: int)
    requires step != 0.0
  {
    var q := (stop - start) / step;
    (match policy
     case Floor => PyFloor(q)
     case Ceil => PyCeil(q)
     case _ => PyRound(q)) + 1
  }

  /** The endpoint the grid actually reaches is further from `stop` than the
      tolerance `step * epsilon`. */
  predicate Inconsistent(start: real, stop: real, step: real, epsilon: real, n: int) {
    Abs(start + (n - 1) as real * step - stop) > step * epsilon
  }

  /** Specification of `arange2`: the error conditions and the grid values. */
  function Arange(start: real, stop: real, step: real, epsilon: real, policy: Policy): (r: Result<seq<real>>)
    ensures step == 0.0 <==> r == Err(DivisionByZero)
    ensures step != 0.0 ==>
              (r == Err(InconsistentRange) <==>
               policy == Raise && Inconsistent(start, stop, step, epsilon, StepCount(start, stop, step, policy)))
    ensures step != 0.0 && !(policy == Raise && Inconsistent(start, stop, step, epsilon, StepCount(start, stop, step, policy))) ==>
              r.Ok?
    ensures r.Ok? ==> |r.value| == Max(0, StepCount(start, stop, step, policy))
    ensures r.Ok? ==> forall i :: 0 <= i < |r.value| ==> r.value[i] == start + i as real * step
  {
    if step == 0.0 then Err(DivisionByZero)
    else
      var n := StepCount(start, stop, step, policy);
      if policy == Raise && Inconsistent(start, stop, step, epsilon, n) then Err(InconsistentRange)
      else Ok(Grid(start, step, Max(0, n)))
  }

  /** The values `start + i*step` for `i` in `[0, len)`. */
  function Grid(start: real, step: real, len: nat): (g: seq<real>)
    ensures |g| == len
  {
    seq(len, i => start + i as real * step)
  }

  /** `arange2`: compute the step count, check the endpoint under the
      `raise` policy, then build `0, 1, ..., n-1`, scale it by `step` and
      shift it by `start` in place. */
  method Arange2(start: real, stop: real, step: real, epsilon: real, policy: Policy)
    returns (r: Result<seq<real>>)
    ensures r == Arange(start, stop, step, epsilon, policy)
  {
    if step == 0.0 {
      return Err(DivisionByZero);
    }
    var n := StepCount(start, stop, step, policy);
    if policy == Raise && Inconsistent(start, stop, step, epsilon, n) {
      return Err(InconsistentRange);
    }
    var x := BuildGrid(start, step, Max(0, n));
    r := Ok(x);
  }

  /** `x = np.arange(n); x *= step; x += start`. */
  method BuildGrid(start: real, step: real, len: nat) returns (g: seq<real>)
    ensures g == Grid(start, step, len)
  {
    var x := new real[len](i => i as real);
    ScaleInPlace(x, step);
    ShiftInPlace(x, start);
    assert x[..] == Grid(start, step, len) by {
      forall j | 0 <= j < len
        ensures x[j] == Grid(start, step, len)[j]
      {
      }
    }
    g := x[..];
  }

  /** `x *= step` on a numpy array. */
  method ScaleInPlace(x: array<real>, step: real)
    modifies x
    ensures forall j :: 0 <= j < x.Length ==> x[j] == old(x[j]) * step
  {
    var i := 0;
    while i < x.Length
      invariant 0 <= i <= x.Length
      invariant forall j :: 0 <= j < i ==> x[j] == old(x[j]) * step
      invariant forall j :: i <= j < x.Length ==> x[j] == old(x[j])
    {
      x[i] := x[i] * step;
      i := i + 1;
    }
  }

  /** `x += start` on a numpy array. */
  method ShiftInPlace(x: array<real>, start: real)
    modifies x
    ensures forall j :: 0 <= j < x.Length ==> x[j] == old(x[j]) + start
  {
    var i := 0;
    while i < x.Length
      invariant 0 <= i <= x.Length
      invariant forall j :: 0 <= j < i ==> x[j] == old(x[j]) + start
      invariant forall j :: i <= j < x.Length ==> x[j] == old(x[j])
    {
      x[i] := x[i] + start;
      i := i + 1;
    }
  }

  /** The grid starts at `start` and advances by exactly `step`. */
  lemma ArangeIsEvenlySpaced(start: real, stop: real, step: real, epsilon: real, policy: Policy)
    requires Arange(start, stop, step, epsilon, policy).Ok?
    ensures var x := Arange(start, stop, step, epsilon, policy).value;
            (|x| > 0 ==> x[0] == start) &&
            forall i :: 0 < i < |x| ==> x[i] - x[i - 1] == step
  {
    var x := Arange(start, stop, step, epsilon, policy).value;
    forall i | 0 < i < |x|
      ensures x[i] - x[i - 1] == step
    {
      calc {
        x[i] - x[i - 1];
        (start + i as real * step) - (start + (i - 1) as real * step);
        i as real * step - (i as real - 1.0) * step;
        step;
      }
    }
  }

  /** Under the `raise` policy a returned grid ends within `step * epsilon`
      of the requested `stop`. */
  lemma ArangeRaiseEndsNearStop(start: real, stop: real, step: real, epsilon: real)
    requires Arange(start, stop, step, epsilon, Raise).Ok?
    requires |Arange(start, stop, step, epsilon, Raise).value| > 0
    ensures var x := Arange(start, stop, step, epsilon, Raise).value;
            Abs(x[|x| - 1] - stop) <= step * epsilon
  {
    var n := StepCount(start, stop, step, Raise);
    var x := Arange(start, stop, step, epsilon, Raise).value;
    assert |x| == n;
    assert x[|x| - 1] == start + (n - 1) as real * step;
  }

  /** As written, a negative step under the `raise` policy always raises:
      the tolerance `step * epsilon` is then negative and the distance
      `abs(stop_check - stop)` never is. */
  lemma ArangeNegativeStepRaises(start: real, stop: real, step: real, epsilon: real)
    requires step < 0.0 && epsilon > 0.0
    ensures Arange(start, stop, step, epsilon, Raise) == Err(InconsistentRange)
  {
    assert step * epsilon < 0.0;
  }

  /** `arange2(0, 9, 3)` is `[0, 3, 6, 9]`; `arange2(0, 10, 3)` raises,
      because 10 is not reached by steps of 3. */
  lemma ArangeExamples()
    ensures Arange(0.0, 9.0, 3.0, 0.000001, Raise) == Ok([0.0, 3.0, 6.0, 9.0])
    ensures Arange(0.0, 10.0, 3.0, 0.000001, Raise) == Err(InconsistentRange)
  {
    assert PyRound(3.0) == 3;
    assert StepCount(0.0, 9.0, 3.0, Raise) == 4;
    assert PyRound(10.0 / 3.0) == 3;
    assert StepCount(0.0, 10.0, 3.0, Raise) == 4;
    var x := Arange(0.0, 9.0, 3.0, 0.000001, Raise).value;
    assert |x| == 4 && x[0] == 0.0 && x[1] == 3.0 && x[2] == 6.0 && x[3] == 9.0;
    assert x == [0.0, 3.0, 6.0, 9.0];
  }

  // ---------------------------------------------------------------------
  // moving_sum
  // ---------------------------------------------------------------------

  /** Sum of `x[lo..hi)`. */
  function Sum(x: seq<real>, lo: int, hi: int): (r: real)
    requires 0 <= lo <= hi <= |x|
    decreases hi - lo
  {
    if lo == hi then 0.0 else Sum(x, lo, hi - 1) + x[hi - 1]
  }

  lemma {:induction false} SumSplit(x: seq<real>, lo: int, mid: int, hi: int)
    requires 0 <= lo <= mid <= hi <= |x|
    ensures Sum(x, lo, hi) == Sum(x, lo, mid) + Sum(x, mid, hi)
    decreases hi - mid
  {
    if mid < hi {
      SumSplit(x, lo, mid, hi - 1);
    }
  }

  /** Sum of the samples `x[j]` with `lo <= j < hi` that exist. */
  function ClippedSum(x: seq<real>, lo: int, hi: int): (r: real) {
    var a := Max(0, lo);
    var b := Min(hi, |x|);
    if a < b then Sum(x, a, b) else 0.0
  }

  /** The boundary modes of `moving_sum`. */
  datatype Mode = Valid | Full | Same

  /** Mode `valid`: only windows that lie wholly inside the input. */
  function ValidSums(x: seq<real>, n: int): (y: seq<real>)
    requires n >= 1
    ensures |y| == Max(0, |x| - n + 1)
  {
    seq(Max(0, |x| - n + 1), i requires 0 <= i < Max(0, |x| - n + 1) => Sum(x, i, i + n))
  }

  /** Mode `full`: every window overlapping the input; entry k sums the
      samples `x[j]` with `k - n + 1 <= j <= k`. */
  function FullSums(x: seq<real>, n: int): (y: seq<real>)
    requires n >= 1
    ensures |y| == |x| + n - 1
  {
    seq(|x| + n - 1, k => ClippedSum(x, k - n + 1, k + 1))
  }

  /** Mode `same`: the `full` sums re-centred on the input, dropping the
      first `(n-1)//2` of them. */
  function SameSums(x: seq<real>, n: int): (y: seq<real>)
    requires n >= 1
    ensures |y| == |x|
  {
    var n1 := (n - 1) / 2;
    FullSums(x, n)[n1..n1 + |x|]
  }

  /** Specification of `moving_sum`: in modes `full` and `same` numpy
      raises IndexError on an empty input (it reads `cx[..., nn-1]`). */
  function MovingSumSpec(x: seq<real>, n: int, mode: Mode): (r: Result<seq<real>>)
    requires n >= 1
  {
    match mode
    case Valid => Ok(ValidSums(x, n))
    case Full => if |x| == 0 then Err(IndexOutOfRange) else Ok(FullSums(x, n))
    case Same => if |x| == 0 then Err(IndexOutOfRange) else Ok(SameSums(x, n))
  }

  /** `np.cumsum`: running totals. */
  method CumSum(x: seq<real>) returns (cx: seq<real>)
    ensures |cx| == |x|
    ensures forall k :: 0 <= k < |x| ==> cx[k] == Sum(x, 0, k + 1)
    ensures IsCumSum(x, cx)
  {
    cx := [];
    var acc := 0.0;
    for i := 0 to |x|
      invariant |cx| == i
      invariant acc == Sum(x, 0, i)
      invariant forall k :: 0 <= k < i ==> cx[k] == Sum(x, 0, k + 1)
    {
      acc := acc + x[i];
      cx := cx + [acc];
    }
  }

  /** A difference of running totals is the sum in between. */
  lemma PrefixDifference(x: seq<real>, cx: seq<real>, a: int, b: int)
    requires IsCumSum(x, cx)
    requires 0 <= a < b < |x|
    ensures cx[b] - cx[a] == Sum(x, a + 1, b + 1)
  {
    SumSplit(x, 0, a + 1, b + 1);
  }

  /** The running totals `cx` of `x`, as `np.cumsum` returns them. */
  ghost predicate IsCumSum(x: seq<real>, cx: seq<real>) {
    |cx| == |x| && forall k :: 0 <= k < |x| ==> cx[k] == Sum(x, 0, k + 1)
  }

  /** `moving_sum`: take the cumulative sum, then preallocate zeros and fill
      them, slice by slice, with differences of the cumulative sum, in the
      branches the library takes for each mode. */
  method MovingSum(x: seq<real>, n: int, mode: Mode) returns (r: Result<seq<real>>)
    requires n >= 1
    ensures r == MovingSumSpec(x, n, mode)
  {
    var cx := CumSum(x);
    match mode
    case Valid =>
      var y := FillValid(x, cx, n);
      r := Ok(y);
    case Full =>
      if |x| == 0 {
        return Err(IndexOutOfRange);
      }
      var y := FillFull(x, cx, n);
      r := Ok(y);
    case Same =>
      if |x| == 0 {
        return Err(IndexOutOfRange);
      }
      var y := FillSame(x, cx, n);
      r := Ok(y);
  }

  /** Mode `valid` of `moving_sum`. */
  method FillValid(x: seq<real>, cx: seq<real>, n: int) returns (ys: seq<real>)
    requires n >= 1 && IsCumSum(x, cx)
    ensures ys == ValidSums(x, n)
  {
    var nn := |x|;
    if nn - n + 1 <= 0 {
      return [];
    }
    var y := new real[nn - n + 1](_ => 0.0);
    y[0] := cx[n - 1];
    forall i | 1 <= i < nn - n + 1 {
      y[i] := cx[i + n - 1] - cx[i - 1];
    }
    forall i | 0 <= i < nn - n + 1
      ensures y[i] == Sum(x, i, i + n)
    {
      if i > 0 { PrefixDifference(x, cx, i - 1, i + n - 1); }
    }
    assert y[..] == ValidSums(x, n);
    ys := y[..];
  }

  /** Mode `full` of `moving_sum`, with its branches for window <= N and
      window > N. */
  method FillFull(x: seq<real>, cx: seq<real>, n: int) returns (ys: seq<real>)
    requires n >= 1 && |x| >= 1 && IsCumSum(x, cx)
    ensures ys == FullSums(x, n)
  {
    var nn := |x|;
    var y := new real[nn + n - 1](_ => 0.0);
    if n <= nn {
      forall k | 0 <= k < n { y[k] := cx[k]; }
      forall k | n <= k < nn { y[k] := cx[k] - cx[k - n]; }
      forall k | nn <= k < nn + n - 1 { y[k] := cx[nn - 1] - cx[k - n]; }
    } else {
      forall k | 0 <= k < nn { y[k] := cx[k]; }
      forall k | nn <= k < n { y[k] := cx[nn - 1]; }
      forall k | n <= k < nn + n - 1 { y[k] := cx[nn - 1] - cx[k - n]; }
    }
    forall k | 0 <= k < nn + n - 1
      ensures y[k] == ClippedSum(x, k - n + 1, k + 1)
    {
      FullEntry(x, cx, n, k, y[k]);
    }
    assert y[..] == FullSums(x, n);
    ys := y[..];
  }

  /** Mode `same` of `moving_sum`; `n1 = (n-1)//2` is the number of leading
      `full` sums dropped. */
  method FillSame(x: seq<real>, cx: seq<real>, n: int) returns (ys: seq<real>)
    requires n >= 1 && |x| >= 1 && IsCumSum(x, cx)
    ensures ys == SameSums(x, n)
  {
    if n <= |x| {
      ys := FillSameShortWindow(x, cx, n);
    } else {
      ys := FillSameLongWindow(x, cx, n);
    }
  }

  /** Mode `same` when the window fits in the input (`n <= N`). */
  method FillSameShortWindow(x: seq<real>, cx: seq<real>, n: int) returns (ys: seq<real>)
    requires 1 <= n <= |x| && IsCumSum(x, cx)
    ensures ys == SameSums(x, n)
  {
    var nn := |x|;
    var n1 := (n - 1) / 2;
    var y := new real[nn](_ => 0.0);
    forall i | 0 <= i < n - n1 { y[i] := cx[n1 + i]; }
    forall i | n - n1 <= i < nn - n1 { y[i] := cx[i + n1] - cx[i + n1 - n]; }
    forall i | nn - n1 <= i < nn { y[i] := cx[nn - 1] - cx[i + n1 - n]; }
    ys := y[..];
    assert forall i :: 0 <= i < nn ==> ys[i] == y[i];
    ShortWindowSame(x, cx, n, ys);
  }

  /** The values the short-window branch of mode `same` stores are the
      `same` sums. */
  lemma ShortWindowSame(x: seq<real>, cx: seq<real>, n: int, ys: seq<real>)
    requires 1 <= n <= |x| && IsCumSum(x, cx) && |ys| == |x|
    requires forall i :: 0 <= i < n - (n - 1) / 2 ==> ys[i] == cx[(n - 1) / 2 + i]
    requires forall i :: n - (n - 1) / 2 <= i < |x| - (n - 1) / 2 ==>
               ys[i] == cx[i + (n - 1) / 2] - cx[i + (n - 1) / 2 - n]
    requires forall i :: |x| - (n - 1) / 2 <= i < |x| ==> ys[i] == cx[|x| - 1] - cx[i + (n - 1) / 2 - n]
    ensures ys == SameSums(x, n)
  {
    var n1 := (n - 1) / 2;
    forall i | 0 <= i < |x|
      ensures ys[i] == SameSums(x, n)[i]
    {
      FullEntry(x, cx, n, i + n1, ys[i]);
      assert SameSums(x, n)[i] == FullSums(x, n)[i + n1];
    }
  }

  /** Mode `same` when the window is longer than the input (`n > N`). */
  method FillSameLongWindow(x: seq<real>, cx: seq<real>, n: int) returns (ys: seq<real>)
    requires 1 <= |x| < n && IsCumSum(x, cx)
    ensures ys == SameSums(x, n)
  {
    var nn := |x|;
    var n1 := (n - 1) / 2;
    var y := new real[nn](_ => 0.0);
    forall i | 0 <= i < Max(0, nn - n1) { y[i] := cx[Min(n1, nn) + i]; }
    forall i | Max(nn - n1, 0) <= i < Min(n - n1, nn) { y[i] := cx[nn - 1]; }
    forall i | Min(n - n1, nn) <= i < nn { y[i] := cx[nn - 1] - cx[i - Min(n - n1, nn)]; }
    ys := y[..];
    assert forall i :: 0 <= i < nn ==> ys[i] == y[i];
    LongWindowSame(x, cx, n, ys);
  }

  /** The values the long-window branch of mode `same` stores are the
      `same` sums. */
  lemma LongWindowSame(x: seq<real>, cx: seq<real>, n: int, ys: seq<real>)
    requires 1 <= |x| < n && IsCumSum(x, cx) && |ys| == |x|
    requires forall i :: 0 <= i < Max(0, |x| - (n - 1) / 2) ==> ys[i] == cx[Min((n - 1) / 2, |x|) + i]
    requires forall i :: Max(|x| - (n - 1) / 2, 0) <= i < Min(n - (n - 1) / 2, |x|) ==> ys[i] == cx[|x| - 1]
    requires forall i :: Min(n - (n - 1) / 2, |x|) <= i < |x| ==>
               ys[i] == cx[|x| - 1] - cx[i - Min(n - (n - 1) / 2, |x|)]
    ensures ys == SameSums(x, n)
  {
    var n1 := (n - 1) / 2;
    forall i | 0 <= i < |x|
      ensures ys[i] == SameSums(x, n)[i]
    {
      FullEntry(x, cx, n, i + n1, ys[i]);
      assert SameSums(x, n)[i] == FullSums(x, n)[i + n1];
    }
  }

  /** The value each slice assignment of mode `full` stores at position k
      (the same expressions serve mode `same` at position k = i + n1) is
      the clipped window sum ending at k. */
  lemma FullEntry(x: seq<real>, cx: seq<real>, n: int, k: int, v: real)
    requires n >= 1 && |x| >= 1 && 0 <= k < |x| + n - 1
    requires IsCumSum(x, cx)
    requires k < |x| && k < n ==> v == cx[k]
    requires n <= k < |x| ==> v == cx[k] - cx[k - n]
    requires |x| <= k < n ==> v == cx[|x| - 1]
    requires |x| <= k && n <= k ==> v == cx[|x| - 1] - cx[k - n]
    ensures v == ClippedSum(x, k - n + 1, k + 1)
  {
    var nn := |x|;
    if k < nn && k < n {
    } else if n <= k < nn {
      PrefixDifference(x, cx, k - n, k);
    } else if nn <= k < n {
    } else {
      PrefixDifference(x, cx, k - n, nn - 1);
    }
  }

  /** Mode `same` keeps the input length and its entry i is entry
      `i + (n-1)//2` of mode `full`, in both window branches. */
  lemma SameIsCentredFull(x: seq<real>, n: int, i: int)
    requires n >= 1 && 0 <= i < |x|
    ensures |SameSums(x, n)| == |x|
    ensures SameSums(x, n)[i] == FullSums(x, n)[i + (n - 1) / 2]
  {
  }

  /** Mode `valid` has `max(0, N-n+1)` entries, entry i being the sum of
      `x[i..i+n-1]`, and these are the full-window entries of mode `full`. */
  lemma ValidIsInteriorOfFull(x: seq<real>, n: int, i: int)
    requires n >= 1 && 0 <= i < |x| - n + 1
    ensures ValidSums(x, n)[i] == FullSums(x, n)[i + n - 1]
  {
    assert FullSums(x, n)[i + n - 1] == ClippedSum(x, i, i + n);
  }

  /** The worked example of the documentation: five ones, window 3. */
  lemma MovingSumExample()
    ensures MovingSumSpec([1.0, 1.0, 1.0, 1.0, 1.0], 3, Valid) == Ok([3.0, 3.0, 3.0])
    ensures MovingSumSpec([1.0, 1.0, 1.0, 1.0, 1.0], 3, Full) == Ok([1.0, 2.0, 3.0, 3.0, 3.0, 2.0, 1.0])
    ensures MovingSumSpec([1.0, 1.0, 1.0, 1.0, 1.0], 3, Same) == Ok([2.0, 3.0, 3.0, 3.0, 2.0])
  {
    var x := [1.0, 1.0, 1.0, 1.0, 1.0];
    forall lo, hi | 0 <= lo <= hi <= 5
      ensures Sum(x, lo, hi) == (hi - lo) as real
    {
      OnesSum(x, lo, hi);
    }
    var valid := ValidSums(x, 3);
    assert valid[0] == 3.0 && valid[1] == 3.0 && valid[2] == 3.0;
    assert valid == [3.0, 3.0, 3.0];
    var full := FullSums(x, 3);
    assert full[0] == 1.0 && full[1] == 2.0 && full[2] == 3.0 && full[3] == 3.0;
    assert full[4] == 3.0 && full[5] == 2.0 && full[6] == 1.0;
    assert full == [1.0, 2.0, 3.0, 3.0, 3.0, 2.0, 1.0];
    assert SameSums(x, 3) == full[1..6] == [2.0, 3.0, 3.0, 3.0, 2.0];
  }

  lemma {:induction false} OnesSum(x: seq<real>, lo: int, hi: int)
    requires 0 <= lo <= hi <= |x|
    requires forall j :: 0 <= j < |x| ==> x[j] == 1.0
    ensures Sum(x, lo, hi) == (hi - lo) as real
    decreases hi - lo
  {
    if lo < hi { OnesSum(x, lo, hi - 1); }
  }

  // ---------------------------------------------------------------------
  // moving_sum on arrays of more than one dimension
  // ---------------------------------------------------------------------

  /** numpy's broadcast of two shapes: aligned from the last axis, each pair
      of lengths must agree or one of them be 1, and the missing leading
      axes of the shorter shape count as 1; `None` when they cannot be
      combined. */
  function Broadcast(u: seq<nat>, v: seq<nat>): (r: Option<seq<nat>>)
    ensures r.Some? ==> |r.value| == if |u| < |v| then |v| else |u|
    decreases |u| + |v|
  {
    if |u| == 0 then Some(v)
    else if |v| == 0 then Some(u)
    else
      var a, b := u[|u| - 1], v[|v| - 1];
      if a != b && a != 1 && b != 1 then None
      else
        match Broadcast(u[..|u| - 1], v[..|v| - 1])
        case None => None
        case Some(s) => Some(s + [if a == 1 then b else a])
  }

  /** A shape broadcasts with itself to itself. */
  lemma {:induction false} BroadcastSelf(u: seq<nat>)
    ensures Broadcast(u, u) == Some(u)
    decreases |u|
  {
    if |u| > 0 {
      BroadcastSelf(u[..|u| - 1]);
      assert u[..|u| - 1] + [u[|u| - 1]] == u;
    }
  }

  /** `target[...] = value` succeeds when the value's shape broadcasts to
      the target's shape unchanged. */
  predicate StoresInto(value: seq<nat>, target: seq<nat>) {
    Broadcast(value, target) == Some(target)
  }

  /** The long-window branch of mode `same` (`n > N`) on an array of shape
      `lead + [N]`: whether numpy can store its slices. The first slice
      copies a slice of the same shape; the middle one stores `cx[..., N-1]`,
      of shape `lead`, into a slice of shape `lead + [middle]`, and the last
      one subtracts a slice of shape `lead + [last]` from it, all without a
      new axis. */
  predicate SameLongWindowStores(lead: seq<nat>, nn: nat, n: nat)
    requires 1 <= nn < n
  {
    var n1 := (n - 1) / 2;
    var middle := Min(n - n1, nn) - Max(nn - n1, 0);
    var last := Max(0, nn - (n - n1));
    var difference := Broadcast(lead, lead + [last]);
    && middle >= 0
    && StoresInto(lead, lead + [middle])
    && difference.Some? && StoresInto(difference.value, lead + [last])
  }

  /** On a 1-D signal the long-window branch always succeeds: `cx[N-1]` is
      a scalar. */
  lemma OneDimensionalLongWindowStores(nn: nat, n: nat)
    requires 1 <= nn < n
    ensures SameLongWindowStores([], nn, n)
  {
    var n1 := (n - 1) / 2;
    var last := Max(0, nn - (n - n1));
    BroadcastSelf([last]);
  }

  /** On a gridsearch grid of shape `(naz, 2, N)` the long-window branch
      succeeds only for one or two azimuths with 7 samples and a window of
      9, or 8 samples and a window of 10; for every other window longer
      than the trace numpy raises ValueError. */
  lemma GridLongWindowStores(naz: nat, nn: nat, n: nat)
    requires 1 <= nn < n
    ensures SameLongWindowStores([naz, 2], nn, n) <==>
              (naz == 1 || naz == 2) && ((nn == 7 && n == 9) || (nn == 8 && n == 10))
  {
    var n1 := (n - 1) / 2;
    var middle := Min(n - n1, nn) - Max(nn - n1, 0);
    var last := Max(0, nn - (n - n1));
    var lead: seq<nat> := [naz, 2];
    assert lead + [middle] == [naz, 2, middle] && lead + [last] == [naz, 2, last];
    LongWindowSlices(nn, n);
    StoreIntoGridRow(naz, middle);
    BroadcastGridRow(naz, last);
    if (naz == 1 || naz == 2) && (last == 1 || last == 2) {
      StoreIntoBroadcastRow(naz, last);
    }
  }

  /** Storing the `(naz, 2, 2)` difference into a `(naz, 2, k)` slice, for
      `k` of 1 or 2, succeeds iff `k` is 2. */
  lemma StoreIntoBroadcastRow(naz: nat, k: nat)
    requires k == 1 || k == 2
    ensures StoresInto([naz, 2, 2], [naz, 2, k]) <==> k == 2
  {
    var value, target: seq<nat> := [naz, 2, 2], [naz, 2, k];
    if k == 2 {
      BroadcastSelf(value);
    } else {
      var front: seq<nat> := [naz, 2];
      BroadcastSelf(front);
      assert value[..2] == front && target[..2] == front;
      assert value[2] == 2 && target[2] == 1;
      assert front + [2] == value;
      assert Broadcast(value, target) == Some(front + [2]);
      assert value != target by { assert value[2] != target[2]; }
    }
  }

  /** The slice lengths of the long-window branch: the middle and last
      slices are both 2 long exactly for 7 samples and a window of 9, or 8
      samples and a window of 10. */
  lemma LongWindowSlices(nn: nat, n: nat)
    requires 1 <= nn < n
    ensures var n1 := (n - 1) / 2;
            (Min(n - n1, nn) - Max(nn - n1, 0) == 2 && Max(0, nn - (n - n1)) == 2) <==>
              ((nn == 7 && n == 9) || (nn == 8 && n == 10))
  {
    var n1 := (n - 1) / 2;
    assert n - 2 * n1 == 1 || n - 2 * n1 == 2;
    if Max(0, nn - (n - n1)) == 2 {
      assert n - n1 == nn - 2;
      assert Min(n - n1, nn) - Max(nn - n1, 0) == n1 - 2;
    }
  }

  /** Storing a `(naz, 2)` value into a `(naz, 2, k)` slice succeeds iff
      `naz` is 1 or 2 and `k` is 2. */
  lemma StoreIntoGridRow(naz: nat, k: nat)
    ensures StoresInto([naz, 2], [naz, 2, k]) <==> (naz == 1 || naz == 2) && k == 2
  {
    BroadcastGridRow(naz, k);
    var target: seq<nat> := [naz, 2, k];
    if Broadcast([naz, 2], target) == Some(target) {
      assert target[2] == 2;
    }
  }

  /** A `(naz, 2)` value combines with a `(naz, 2, k)` slice iff `naz` is 1
      or 2 and `k` is 1 or 2, into shape `(naz, 2, 2)`. */
  lemma BroadcastGridRow(naz: nat, k: nat)
    ensures Broadcast([naz, 2], [naz, 2, k]).Some? <==> (naz == 1 || naz == 2) && (k == 1 || k == 2)
    ensures Broadcast([naz, 2], [naz, 2, k]).Some? ==> Broadcast([naz, 2], [naz, 2, k]).value == [naz, 2, 2]
  {
    var u, v: seq<nat> := [naz, 2], [naz, 2, k];
    assert u[..1] == [naz] && v[..2] == [naz, 2] && [naz, 2][..1] == [naz];
    assert Broadcast([], [naz]) == Some([naz]);
  }
}
