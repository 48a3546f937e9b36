/** The post-processing of `pca`: pick the principal component from the
    eigen-decomposition of the covariance of 2 or 3 traces, and turn it into
    an azimuth wrapped to [0, 180) and an incidence angle. The covariance,
    the eigen-decomposition, `arctan2` (in degrees) and the square root are
    parameters of the model; only the shapes and ranges the library relies
    on are assumed of them. */
module Pca {
  import opened Base
  import opened Util

  type Matrix = seq<seq<real>>

  datatype Eigen = Eigen(evals: seq<real>, evecs: Matrix)

  datatype PcaResult = PcaResult(cov: Matrix, evals: seq<real>, evecs: Matrix, azimuth: real, incidence: real)

  predicate IsSquare(m: Matrix, n: nat) {
    |m| == n && forall i :: 0 <= i < n ==> |m[i]| == n
  }

  predicate Ascending(s: seq<real>) {
    forall i, j :: 0 <= i <= j < |s| ==> s[i] <= s[j]
  }

  /** `np.cov` of an n-row array is n-by-n. */
  ghost predicate CovarianceShaped(cov: Matrix -> Matrix) {
    forall data: Matrix :: IsSquare(cov(data), |data|)
  }

  /** `np.linalg.eigh` of an n-by-n matrix gives n eigenvalues in ascending
      order and the matching eigenvectors as the columns of an n-by-n
      matrix. */
  ghost predicate EighShaped(eigh: Matrix -> Eigen) {
    forall c: Matrix :: IsSquare(c, |c|) ==>
      |eigh(c).evals| == |c| && IsSquare(eigh(c).evecs, |c|) && Ascending(eigh(c).evals)
  }

  /** `arctan2` in degrees maps the closed first quadrant into [0, 90]. */
  ghost predicate Atan2FirstQuadrant(atan2Deg: (real, real) -> real) {
    forall y, x :: 0.0 <= y && 0.0 <= x ==> 0.0 <= atan2Deg(y, x) <= 90.0
  }

  ghost predicate SqrtNonNegative(sqrt: real -> real) {
    forall v :: 0.0 <= v ==> 0.0 <= sqrt(v)
  }

  /** `((90 - raw) + 180) % 360 - 180`: the azimuth measured clockwise from
      north, centred on zero. */
  function CentredAzimuth(raw: real): (c: real)
    ensures -180.0 <= c < 180.0
    ensures Congruent(90.0 - raw, c, 360.0)
  {
    var a := (90.0 - raw) + 180.0;
    var r := PyMod(a, 360.0);
    assert (90.0 - raw - (r - 180.0)) / 360.0 == (a - r) / 360.0;
    r - 180.0
  }

  /** `azimuth %= 180`: the azimuth folded onto [0, 180), since the sign of
      an eigenvector is arbitrary. */
  function WrapAzimuth(raw: real): (az: real)
    ensures 0.0 <= az < 180.0
    ensures Congruent(90.0 - raw, az, 180.0)
  {
    var c := CentredAzimuth(raw);
    var az := PyMod(c, 180.0);
    CongruentHalf(90.0 - raw, c, 180.0);
    CongruentTrans(90.0 - raw, c, az, 180.0);
    az
  }

  /** The principal component `evecs[:, -1]`: the last column, the
      eigenvector of the largest eigenvalue. */
  function PrincipalComponent(evecs: Matrix, n: nat): (pc: seq<real>)
    requires n >= 1 && IsSquare(evecs, n)
    ensures |pc| == n
  {
    seq(n, i requires 0 <= i < n => evecs[i][n - 1])
  }

  /** The incidence angle of the principal component, from the vertical:
      `arctan2` of the horizontal length and the absolute vertical part, or
      90 when there is no vertical component. */
  function Incidence(pc: seq<real>, atan2Deg: (real, real) -> real, sqrt: real -> real): (inc: real)
    requires |pc| >= 2
    ensures |pc| == 2 ==> inc == 90.0
  {
    var eh := sqrt(pc[1] * pc[1] + pc[0] * pc[0]);
    if |pc| > 2 then atan2Deg(eh, Abs(pc[2])) else 90.0
  }

  /** With a vertical component, the incidence angle is `arctan2` of two
      non-negative numbers and so lies in [0, 90]. */
  lemma IncidenceInRange(pc: seq<real>, atan2Deg: (real, real) -> real, sqrt: real -> real)
    requires |pc| >= 2
    requires Atan2FirstQuadrant(atan2Deg) && SqrtNonNegative(sqrt)
    ensures 0.0 <= Incidence(pc, atan2Deg, sqrt) <= 90.0
  {
    SquareNonNegative(pc[0]);
    SquareNonNegative(pc[1]);
    assert 0.0 <= sqrt(pc[1] * pc[1] + pc[0] * pc[0]);
  }

  /** The numeric part of `pca`, given the n-by-n covariance `c` of the
      stacked traces (n >= 2) and its eigen-decomposition `e`: both are
      returned as computed, the principal component is the eigenvector of
      the largest eigenvalue, and the two angles are derived from it. */
  function Components(c: Matrix, e: Eigen, n: nat, atan2Deg: (real, real) -> real, sqrt: real -> real)
    : (res: PcaResult)
    requires n >= 2 && IsSquare(c, n)
    requires |e.evals| == n && IsSquare(e.evecs, n) && Ascending(e.evals)
    ensures res.cov == c && res.evals == e.evals && res.evecs == e.evecs
    ensures forall k :: 0 <= k < n ==> res.evals[k] <= res.evals[n - 1]
    ensures res.azimuth == WrapAzimuth(atan2Deg(e.evecs[1][n - 1], e.evecs[0][n - 1]))
    ensures 0.0 <= res.azimuth < 180.0
    ensures res.incidence == Incidence(PrincipalComponent(e.evecs, n), atan2Deg, sqrt)
    ensures n == 2 ==> res.incidence == 90.0
  {
    var pc := PrincipalComponent(e.evecs, n);
    var incidence := Incidence(pc, atan2Deg, sqrt);
    var azimuth := WrapAzimuth(atan2Deg(pc[1], pc[0]));
    PcaResult(c, e.evals, e.evecs, azimuth, incidence)
  }

  /** `pca(traces)`. */
  function Pca(traces: seq<Trace>, cov: Matrix -> Matrix, eigh: Matrix -> Eigen,
               atan2Deg: (real, real) -> real, sqrt: real -> real): (r: Result<PcaResult>)
    requires CovarianceShaped(cov) && EighShaped(eigh)
    ensures GetTracesDataAsArray(traces).Err? ==> r == GetTracesDataAsArray(traces).PropagateFailure()
    ensures GetTracesDataAsArray(traces).Ok? && |traces| < 2 ==> r == Err(LinearAlgebra)
    ensures r.Ok? <==> |traces| >= 2 && GetTracesDataAsArray(traces).Ok?
    ensures r.Ok? ==>
              var c := cov(GetTracesDataAsArray(traces).value);
              IsSquare(c, |traces|) && r.value == Components(c, eigh(c), |traces|, atan2Deg, sqrt)
  {
    var data :- GetTracesDataAsArray(traces);
    if |traces| < 2 then
      // the covariance of a single row is a 0-d array
      Err(LinearAlgebra)
    else
      var c := cov(data);
      Ok(Components(c, eigh(c), |traces|, atan2Deg, sqrt))
  }

  /** A single trace passes validation and then fails in the
      eigen-decomposition. */
  lemma SingleTraceFails(traces: seq<Trace>, cov: Matrix -> Matrix, eigh: Matrix -> Eigen,
                         atan2Deg: (real, real) -> real, sqrt: real -> real)
    requires CovarianceShaped(cov) && EighShaped(eigh)
    requires |traces| == 1
    ensures Pca(traces, cov, eigh, atan2Deg, sqrt) == Err(LinearAlgebra)
  {
    SingleTraceStacks(traces);
  }

  /** Folding twice, onto [-180, 180) and then [0, 180), is a single floor
      modulo 180. */
  lemma WrapIsModulo180(raw: real)
    ensures WrapAzimuth(raw) == PyMod(90.0 - raw, 180.0)
  {
    var az, p := WrapAzimuth(raw), PyMod(90.0 - raw, 180.0);
    CongruentSym(90.0 - raw, az, 180.0);
    CongruentTrans(az, 90.0 - raw, p, 180.0);
    ResidueUnique(az, p, 180.0);
  }

  /** The azimuth depends on the raw angle only modulo 180 degrees. */
  lemma WrapDependsOnResidue(raw: real, raw': real)
    requires Congruent(raw, raw', 180.0)
    ensures WrapAzimuth(raw) == WrapAzimuth(raw')
  {
    var az, az' := WrapAzimuth(raw), WrapAzimuth(raw');
    assert Congruent(90.0 - raw, 90.0 - raw', 180.0) by {
      assert (90.0 - raw - (90.0 - raw')) / 180.0 == -((raw - raw') / 180.0);
      CongruentSym(raw, raw', 180.0);
    }
    CongruentSym(90.0 - raw, az, 180.0);
    CongruentTrans(az, 90.0 - raw, 90.0 - raw', 180.0);
    CongruentTrans(az, 90.0 - raw', az', 180.0);
    ResidueUnique(az, az', 180.0);
  }

  /** Flipping the principal component's sign turns the raw angle by 180
      degrees and leaves the azimuth unchanged. */
  lemma WrapIgnoresPolarity(raw: real)
    ensures WrapAzimuth(raw + 180.0) == WrapAzimuth(raw)
    ensures WrapAzimuth(raw - 180.0) == WrapAzimuth(raw)
  {
    assert (raw + 180.0 - raw) / 180.0 == 1.0;
    WrapDependsOnResidue(raw + 180.0, raw);
    assert (raw - 180.0 - raw) / 180.0 == -1.0;
    WrapDependsOnResidue(raw - 180.0, raw);
  }

  /** A component pointing east has azimuth 90, one pointing north 0, and
      one pointing north-west 135. */
  lemma WrapExamples()
    ensures WrapAzimuth(0.0) == 90.0
    ensures WrapAzimuth(90.0) == 0.0
    ensures WrapAzimuth(135.0) == 135.0
  {
    WrapIsModulo180(0.0);
    PyModOfResidue(90.0, 180.0);
    WrapIsModulo180(90.0);
    PyModOfResidue(0.0, 180.0);
    WrapIsModulo180(135.0);
    assert 90.0 - 135.0 == -45.0;
    PyModOfResidue(135.0, 180.0);
    assert ((-45.0 - 135.0) / 180.0).Floor == -1;
    WrapDependsOnResidue(-45.0, 135.0);
  }
}
