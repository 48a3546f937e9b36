/** The azimuth gridsearch of `gridsearch_azimuth_rot_acc`: for every
    candidate azimuth, correlate vertical rotation rate with transverse
    acceleration over a sliding window, and pick the best azimuth per
    sample. The trigonometric functions and the normalisation of the
    correlation (a division by square roots in IEEE arithmetic) are
    parameters of the model. */
module Gridsearch {
  import opened Base
  import opened Util

  /** Tolerance `arange2` uses when the caller does not give one. */
  const ArangeEpsilon: real := 0.000001

  datatype GridsearchResult = GridsearchResult(
    times: seq<real>,
    azimuths: seq<real>,
    correlations: seq<seq<real>>,
    maxAzimuths: seq<real>,
    maxCorrelations: seq<real>)

  /** Transverse acceleration for the candidate azimuth `az` (degrees):
      `-acc_n * sin(az) + acc_e * cos(az)`. */
  function TransverseAcc(accN: seq<real>, accE: seq<real>, az: real, sinDeg: real -> real, cosDeg: real -> real): (r: seq<real>)
    requires |accE| == |accN|
  {
    seq(|accN|, t requires 0 <= t < |accN| => -accN[t] * sinDeg(az) + accE[t] * cosDeg(az))
  }

  /** Elementwise product of two equally long signals. */
  function Product(u: seq<real>, v: seq<real>): (r: seq<real>)
    requires |u| == |v|
  {
    seq(|u|, t requires 0 <= t < |u| => u[t] * v[t])
  }

  /** Column t of a 2-D array. */
  function Column(m: seq<seq<real>>, ns: nat, t: nat): (col: seq<real>)
    requires IsSurface(m, ns) && t < ns
    ensures |col| == |m| && forall a :: 0 <= a < |m| ==> col[a] == m[a][t]
  {
    seq(|m|, a requires 0 <= a < |m| => m[a][t])
  }

  /** A correlation surface with one row per azimuth, each `ns` long. */
  predicate IsSurface(m: seq<seq<real>>, ns: int) {
    forall a :: 0 <= a < |m| ==> |m[a]| == ns
  }

  /** The azimuth grid: `arange2(0, 360 - delta, delta)`. */
  function AzimuthGrid(delta: real): (r: Result<seq<real>>) {
    Arange(0.0, 360.0 - delta, delta, ArangeEpsilon, Raise)
  }

  /** Row of the correlation surface for one azimuth, whose transverse
      acceleration is `acct`: windowed cross-energy of rotation and
      transverse acceleration against the windowed energies of both. */
  function CorrelationRow(rot: seq<real>, acct: seq<real>, nsum: int,
                          normalise: (real, real, real) -> real): (row: seq<real>)
    requires |acct| == |rot| && nsum >= 1
    ensures |row| == |rot|
  {
    var cross := SameSums(Product(rot, acct), nsum);
    var energy := SameSums(Product(acct, acct), nsum);
    var rotEnergy := SameSums(Product(rot, rot), nsum);
    seq(|rot|, t requires 0 <= t < |rot| => normalise(cross[t], energy[t], rotEnergy[t]))
  }

  /** The sample count `nsum = int(np.round(time_sum / deltat))` of the window. */
  function WindowLength(timeSum: real, deltat: real): (r: int)
    requires deltat != 0.0
  {
    PyRound(timeSum / deltat)
  }

  /** `moving_sum(grid, nsum, mode='same')` on the `(naz, 2, ns)` grid gets
      through its slice assignments: always for a window no longer than the
      trace, and otherwise only where numpy can broadcast the long-window
      slices. */
  predicate WindowFits(naz: nat, ns: nat, nsum: nat)
    requires ns >= 1
  {
    nsum <= ns || SameLongWindowStores([naz, 2], ns, nsum)
  }

  /** Row `a` of the grid holds, in plane 0, `rot * acc_t` and, in plane 1,
      `acc_t ** 2` for the transverse acceleration `acct` of azimuth `a`. */
  ghost predicate RowFilled(grid: array3<real>, a: int, rot: seq<real>, acct: seq<real>)
    reads grid
  {
    0 <= a < grid.Length0 && grid.Length1 == 2 && grid.Length2 == |rot| == |acct| &&
    forall t :: 0 <= t < |rot| ==> grid[a, 0, t] == Product(rot, acct)[t] && grid[a, 1, t] == Product(acct, acct)[t]
  }

  /** The preallocated `grid[iazimuth, 0/1, :]` filled azimuth by azimuth
      from the transverse acceleration `transverse(azimuth)`; each pass
      writes its own row only. */
  method FillGrid(rot: seq<real>, azimuths: seq<real>, transverse: real -> seq<real>) returns (grid: array3<real>)
    requires forall a :: 0 <= a < |azimuths| ==> |transverse(azimuths[a])| == |rot|
    ensures fresh(grid)
    ensures grid.Length0 == |azimuths| && grid.Length1 == 2 && grid.Length2 == |rot|
    ensures forall a :: 0 <= a < |azimuths| ==> RowFilled(grid, a, rot, transverse(azimuths[a]))
  {
    var ns := |rot|;
    grid := new real[|azimuths|, 2, ns]((_, _, _) => 0.0);
    for ia := 0 to |azimuths|
      invariant forall a :: 0 <= a < ia ==> RowFilled(grid, a, rot, transverse(azimuths[a]))
    {
      WriteRow(grid, ia, rot, transverse(azimuths[ia]));
    }
  }

  /** One pass of the grid loop: `grid[ia, 0, :] = rot * acc_t` and
      `grid[ia, 1, :] = acc_t ** 2`, leaving every other row as it was. */
  method WriteRow(grid: array3<real>, ia: int, rot: seq<real>, acct: seq<real>)
    requires 0 <= ia < grid.Length0 && grid.Length1 == 2 && grid.Length2 == |rot| == |acct|
    modifies grid
    ensures RowFilled(grid, ia, rot, acct)
    ensures forall a, p, t :: 0 <= a < grid.Length0 && a != ia && 0 <= p < 2 && 0 <= t < grid.Length2 ==>
              grid[a, p, t] == old(grid[a, p, t])
  {
    var cross, energy := Product(rot, acct), Product(acct, acct);
    forall t | 0 <= t < |rot| {
      grid[ia, 0, t] := cross[t];
    }
    forall t | 0 <= t < |rot| {
      grid[ia, 1, t] := energy[t];
    }
  }

  /** Plane 1 of a filled row, the squared transverse acceleration, is
      never negative. */
  lemma RowEnergyNonNegative(grid: array3<real>, a: int, rot: seq<real>, acct: seq<real>, t: int)
    requires RowFilled(grid, a, rot, acct)
    requires 0 <= t < |rot|
    ensures grid[a, 1, t] >= 0.0
  {
    SquareNonNegative(acct[t]);
  }

  /** The windowed sums of the filled grid, normalised into correlations,
      one row per azimuth (`moving_sum(grid, nsum, mode='same')` applies
      the 1-D rule along the sample axis of every row). */
  method CorrelationSurface(grid: array3<real>, rot: seq<real>, azimuths: seq<real>, transverse: real -> seq<real>,
                            nsum: int, normalise: (real, real, real) -> real)
    returns (correlations: seq<seq<real>>)
    requires |rot| >= 1 && nsum >= 1
    requires WindowFits(|azimuths|, |rot|, nsum)
    requires forall a :: 0 <= a < |azimuths| ==> |transverse(azimuths[a])| == |rot|
    requires forall a :: 0 <= a < |azimuths| ==> RowFilled(grid, a, rot, transverse(azimuths[a]))
    ensures |correlations| == |azimuths|
    ensures forall a :: 0 <= a < |azimuths| ==>
              correlations[a] == CorrelationRow(rot, transverse(azimuths[a]), nsum, normalise)
  {
    var ns := |rot|;
    var rotEnergy := MovingSum(Product(rot, rot), nsum, Same);
    var srotz := rotEnergy.value;
    correlations := [];
    for ia := 0 to |azimuths|
      invariant |correlations| == ia
      invariant forall a :: 0 <= a < ia ==>
                  correlations[a] == CorrelationRow(rot, transverse(azimuths[a]), nsum, normalise)
    {
      ghost var acct := transverse(azimuths[ia]);
      assert RowFilled(grid, ia, rot, acct);
      var crossRow := seq(ns, t requires 0 <= t < ns reads grid => grid[ia, 0, t]);
      var energyRow := seq(ns, t requires 0 <= t < ns reads grid => grid[ia, 1, t]);
      assert crossRow == Product(rot, acct);
      assert energyRow == Product(acct, acct);
      var cross := MovingSum(crossRow, nsum, Same);
      var energy := MovingSum(energyRow, nsum, Same);
      var row := seq(ns, t requires 0 <= t < ns => normalise(cross.value[t], energy.value[t], srotz[t]));
      assert row == CorrelationRow(rot, acct, nsum, normalise);
      correlations := correlations + [row];
    }
  }

  /** `np.argmax(grid_correlations, axis=0)`: per sample, the first azimuth
      index of largest correlation. */
  function MaxIndices(correlations: seq<seq<real>>, ns: nat): (ks: seq<nat>)
    requires |correlations| > 0 && IsSurface(correlations, ns)
    ensures |ks| == ns
    ensures forall t :: 0 <= t < ns ==> ks[t] < |correlations|
    ensures forall t, a :: 0 <= t < ns && 0 <= a < |correlations| ==> correlations[a][t] <= correlations[ks[t]][t]
    ensures forall t, a :: 0 <= t < ns && 0 <= a < ks[t] ==> correlations[a][t] < correlations[ks[t]][t]
  {
    seq(ns, t requires 0 <= t < ns => FirstArgMax(Column(correlations, ns, t)))
  }

  /** `grid_correlations[max_indices, np.arange(nsamples)]` and
      `azimuths[max_indices]`: the best correlation and its azimuth per
      sample. */
  function GatherBest(correlations: seq<seq<real>>, azimuths: seq<real>, ns: nat): (best: (seq<real>, seq<real>))
    requires |correlations| == |azimuths| > 0 && IsSurface(correlations, ns)
    ensures |best.0| == ns && |best.1| == ns
    ensures forall t :: 0 <= t < ns ==>
              var k := MaxIndices(correlations, ns)[t];
              best.0[t] == azimuths[k] && best.1[t] == correlations[k][t]
    ensures forall t, a :: 0 <= t < ns && 0 <= a < |azimuths| ==> correlations[a][t] <= best.1[t]
  {
    var ks := MaxIndices(correlations, ns);
    (seq(ns, t requires 0 <= t < ns => azimuths[ks[t]]),
     seq(ns, t requires 0 <= t < ns => correlations[ks[t]][t]))
  }

  /** A window of at least one sample, whenever the window length is
      computed at all: for three valid traces, a valid azimuth grid and a
      non-zero interval. */
  predicate WindowAtLeastOneSample(traces: seq<Trace>, azimuthDelta: real, timeSum: real) {
    |traces| == 3 && GetTracesDataAsArray(traces).Ok? && AzimuthGrid(azimuthDelta).Ok? && traces[0].deltat != 0.0 ==>
      WindowLength(timeSum, traces[0].deltat) >= 1
  }

  /** One correlation row per azimuth, computed from that azimuth's
      transverse acceleration. */
  predicate SurfaceOf(correlations: seq<seq<real>>, rot: seq<real>, accN: seq<real>, accE: seq<real>,
                      azimuths: seq<real>, nsum: int,
                      sinDeg: real -> real, cosDeg: real -> real, normalise: (real, real, real) -> real)
    requires |accN| == |accE| == |rot| && nsum >= 1
  {
    && |correlations| == |azimuths|
    && (forall a :: 0 <= a < |azimuths| ==>
          correlations[a] == CorrelationRow(rot, TransverseAcc(accN, accE, azimuths[a], sinDeg, cosDeg), nsum, normalise))
  }

  /** The result of the gridsearch over validated data: the times
      `tmin + i*deltat`, the given azimuths, one correlation row per
      azimuth from its transverse acceleration, and the first-occurrence
      argmax gathers. */
  predicate Describes(res: GridsearchResult, rot: seq<real>, accN: seq<real>, accE: seq<real>, tmin: real, deltat: real,
                      azimuths: seq<real>, nsum: int,
                      sinDeg: real -> real, cosDeg: real -> real, normalise: (real, real, real) -> real)
    requires |accN| == |accE| == |rot| && |azimuths| >= 1 && nsum >= 1
  {
    var ns := |rot|;
    && res.azimuths == azimuths
    && |res.times| == ns
    && (forall i :: 0 <= i < ns ==> res.times[i] == tmin + i as real * deltat)
    && SurfaceOf(res.correlations, rot, accN, accE, azimuths, nsum, sinDeg, cosDeg, normalise)
    && IsSurface(res.correlations, ns)
    && (res.maxAzimuths, res.maxCorrelations) == GatherBest(res.correlations, azimuths, ns)
  }

  /** The grid loop and the windowed correlations for every azimuth of the
      grid. */
  method Correlations(rot: seq<real>, accN: seq<real>, accE: seq<real>, azimuths: seq<real>, nsum: int,
                      sinDeg: real -> real, cosDeg: real -> real, normalise: (real, real, real) -> real)
    returns (correlations: seq<seq<real>>)
    requires |accN| == |accE| == |rot| >= 1 && nsum >= 1
    requires WindowFits(|azimuths|, |rot|, nsum)
    ensures SurfaceOf(correlations, rot, accN, accE, azimuths, nsum, sinDeg, cosDeg, normalise)
    ensures IsSurface(correlations, |rot|)
  {
    var transverse := az => TransverseAcc(accN, accE, az, sinDeg, cosDeg);
    var grid := FillGrid(rot, azimuths, transverse);
    correlations := CorrelationSurface(grid, rot, azimuths, transverse, nsum, normalise);
  }

  /** The numeric part of the gridsearch, once the traces, the azimuth grid
      and the window are known to be usable. */
  method Analyse(rot: seq<real>, accN: seq<real>, accE: seq<real>, tmin: real, deltat: real,
                 azimuths: seq<real>, nsum: int,
                 sinDeg: real -> real, cosDeg: real -> real, normalise: (real, real, real) -> real)
    returns (res: GridsearchResult)
    requires |accN| == |accE| == |rot| >= 1 && |azimuths| >= 1 && nsum >= 1
    requires WindowFits(|azimuths|, |rot|, nsum)
    ensures Describes(res, rot, accN, accE, tmin, deltat, azimuths, nsum, sinDeg, cosDeg, normalise)
  {
    var ns := |rot|;
    var correlations := Correlations(rot, accN, accE, azimuths, nsum, sinDeg, cosDeg, normalise);
    var best := GatherBest(correlations, azimuths, ns);
    var times := seq(ns, i requires 0 <= i < ns => tmin + i as real * deltat);
    res := GridsearchResult(times, azimuths, correlations, best.0, best.1);
  }

  /** `gridsearch_azimuth_rot_acc(traces, time_sum, azimuth_delta)`. */
  method GridsearchAzimuthRotAcc(traces: seq<Trace>, timeSum: real, azimuthDelta: real,
                                 sinDeg: real -> real, cosDeg: real -> real,
                                 normalise: (real, real, real) -> real)
    returns (r: Result<GridsearchResult>)
    requires WindowAtLeastOneSample(traces, azimuthDelta, timeSum)
    // errors, in the order the library raises them
    ensures |traces| != 3 ==> r == Err(WrongTraceCount)
    ensures |traces| == 3 && GetTracesDataAsArray(traces).Err? ==> r == GetTracesDataAsArray(traces).PropagateFailure()
    ensures |traces| == 3 && GetTracesDataAsArray(traces).Ok? && AzimuthGrid(azimuthDelta).Err? ==>
              r == AzimuthGrid(azimuthDelta).PropagateFailure()
    ensures |traces| == 3 && GetTracesDataAsArray(traces).Ok? && AzimuthGrid(azimuthDelta).Ok? &&
            traces[0].deltat == 0.0 ==>
              r == Err(DivisionByZero)
    ensures |traces| == 3 && GetTracesDataAsArray(traces).Ok? && AzimuthGrid(azimuthDelta).Ok? &&
            traces[0].deltat != 0.0 && |traces[0].data| == 0 ==>
              r == Err(IndexOutOfRange)
    ensures |traces| == 3 && GetTracesDataAsArray(traces).Ok? && AzimuthGrid(azimuthDelta).Ok? &&
            traces[0].deltat != 0.0 && |traces[0].data| > 0 &&
            WindowFits(|AzimuthGrid(azimuthDelta).value|, |traces[0].data|, WindowLength(timeSum, traces[0].deltat)) &&
            |AzimuthGrid(azimuthDelta).value| == 0 ==>
              r == Err(EmptySequence)
    ensures |traces| == 3 && GetTracesDataAsArray(traces).Ok? && AzimuthGrid(azimuthDelta).Ok? &&
            traces[0].deltat != 0.0 && |traces[0].data| > 0 &&
            !WindowFits(|AzimuthGrid(azimuthDelta).value|, |traces[0].data|, WindowLength(timeSum, traces[0].deltat)) ==>
              r == Err(BroadcastMismatch)
    ensures r.Err? <==>
              |traces| != 3 || GetTracesDataAsArray(traces).Err? || AzimuthGrid(azimuthDelta).Err? ||
              traces[0].deltat == 0.0 || |traces[0].data| == 0 ||
              !WindowFits(|AzimuthGrid(azimuthDelta).value|, |traces[0].data|, WindowLength(timeSum, traces[0].deltat)) ||
              |AzimuthGrid(azimuthDelta).value| == 0
    // the result
    ensures r.Ok? ==>
              && |traces| == 3 && |traces[1].data| == |traces[2].data| == |traces[0].data|
              && traces[0].deltat != 0.0 && |AzimuthGrid(azimuthDelta).value| >= 1
              && |traces[0].data| >= 1
              && WindowFits(|AzimuthGrid(azimuthDelta).value|, |traces[0].data|, WindowLength(timeSum, traces[0].deltat))
              && Describes(r.value, traces[0].data, traces[1].data, traces[2].data, traces[0].tmin, traces[0].deltat,
                           AzimuthGrid(azimuthDelta).value, WindowLength(timeSum, traces[0].deltat),
                           sinDeg, cosDeg, normalise)
  {
    if |traces| != 3 {
      return Err(WrongTraceCount);
    }
    var data :- GetTracesDataAsArray(traces);
    var rot, accN, accE := data[0], data[1], data[2];
    var deltat := traces[0].deltat;
    var ns := |rot|;
    var azimuths :- Arange2(0.0, 360.0 - azimuthDelta, azimuthDelta, ArangeEpsilon, Raise);
    if deltat == 0.0 {
      return Err(DivisionByZero);
    }
    var nsum := WindowLength(timeSum, deltat);
    if ns == 0 {
      // `moving_sum` reads the last cumulative sum of an empty axis
      return Err(IndexOutOfRange);
    }
    if !WindowFits(|azimuths|, ns, nsum) {
      // the 3-D `moving_sum` cannot store `cx[..., nn-1]` into the
      // long-window slices (no `np.newaxis` there)
      return Err(BroadcastMismatch);
    }
    if |azimuths| == 0 {
      // numpy's argmax over an empty axis
      return Err(EmptySequence);
    }
    var res := Analyse(rot, accN, accE, traces[0].tmin, deltat, azimuths, nsum, sinDeg, cosDeg, normalise);
    r := Ok(res);
  }

  /** A successfully built azimuth grid starts at 0 and advances by
      `delta`. */
  lemma AzimuthGridShape(delta: real)
    requires AzimuthGrid(delta).Ok?
    ensures var az := AzimuthGrid(delta).value;
            (|az| > 0 ==> az[0] == 0.0) && forall i :: 0 < i < |az| ==> az[i] - az[i - 1] == delta
  {
    ArangeIsEvenlySpaced(0.0, 360.0 - delta, delta, ArangeEpsilon, Raise);
  }

  /** A 5-degree grid has 72 azimuths, 0, 5, ..., 355. */
  lemma DefaultAzimuthGrid()
    ensures AzimuthGrid(5.0).Ok?
    ensures |AzimuthGrid(5.0).value| == 72
    ensures AzimuthGrid(5.0).value[71] == 355.0
  {
    assert (355.0 - 0.0) / 5.0 == 71.0;
    assert PyRound(71.0) == 71;
    assert StepCount(0.0, 355.0, 5.0, Raise) == 72;
  }

  /** With the default 5-degree grid of 72 azimuths, every window longer
      than the trace makes the gridsearch fail in `moving_sum`. */
  lemma DefaultGridNeedsShortWindow(ns: nat, nsum: nat)
    requires 1 <= ns < nsum
    ensures !WindowFits(|AzimuthGrid(5.0).value|, ns, nsum)
  {
    DefaultAzimuthGrid();
    GridLongWindowStores(72, ns, nsum);
  }
}
