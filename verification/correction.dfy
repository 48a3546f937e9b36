/** The index logic of tilt correction: the power-of-two FFT lengths, the
    zero-padded buffers, the smoothing switch of `transfer_function`, and
    the preconditions, correction mask, sign, method dispatch and output
    truncation of `remove_tilt`. The FFT and its inverse, the Blackman
    smoothing, the coherence and transfer-function arithmetic and `sin`
    are parameters of the model, collected in `Numerics`. */
module Correction {
  import opened Base

  // ---------------------------------------------------------------------
  // Powers of two

  function Pow2(k: nat): (p: int)
    ensures p >= 1
  {
    if k == 0 then 1 else 2 * Pow2(k - 1)
  }

  ghost predicate IsPow2(p: int) {
    exists k: nat :: Pow2(k) == p
  }

  lemma {:induction false} Pow2Monotone(i: nat, j: nat)
    requires i <= j
    ensures Pow2(i) <= Pow2(j)
    decreases j
  {
    if i < j {
      Pow2Monotone(i, j - 1);
    }
  }

  /** `ceil(log2(n))` for a positive integer: the least exponent whose
      power reaches n. */
  function CeilLog2(n: int): (k: nat)
    requires n >= 1
    ensures n <= Pow2(k)
    ensures k > 0 ==> Pow2(k - 1) < n
    decreases n
  {
    if n == 1 then 0 else 1 + CeilLog2((n + 1) / 2)
  }

  /** `floor(log2(n))` for a positive integer: the greatest exponent whose
      power does not exceed n. */
  function FloorLog2(n: int): (k: nat)
    requires n >= 1
    ensures Pow2(k) <= n < Pow2(k + 1)
    decreases n
  {
    if n == 1 then 0 else 1 + FloorLog2(n / 2)
  }

  /** `_next_pow2(n) = 2**ceil(log(n)/log(2))`; the logarithm of a
      non-positive number is a domain error. */
  function NextPow2(n: int): (r: Result<int>)
    ensures r.Err? <==> n <= 0
    ensures r.Ok? ==> IsPow2(r.value) && n <= r.value < 2 * n
  {
    if n <= 0 then Err(MathDomain)
    else
      var k := CeilLog2(n);
      assert Pow2(k) == Pow2(k);
      Ok(Pow2(k))
  }

  /** No power of two at least n is smaller than `_next_pow2(n)`. */
  lemma NextPow2IsLeast(n: int, k: nat)
    requires n >= 1 && Pow2(k) >= n
    ensures NextPow2(n).value <= Pow2(k)
  {
    var c := CeilLog2(n);
    if k < c {
      Pow2Monotone(k, c - 1);
    } else {
      Pow2Monotone(c, k);
    }
  }

  function IntAbs(x: int): (r: int) { if x < 0 then -x else x }

  /** `_nearest_pow2(x)`: of `2**ceil(log2 x)` and `2**floor(log2 x)` the
      one closer to x, the lower one when both are equally close. The
      logarithm of 0 is minus infinity, which `math.ceil` rejects. */
  function NearestPow2(x: int): (r: Result<int>)
    ensures r.Err? <==> x <= 0
    ensures r.Ok? ==> IsPow2(r.value) && x < 2 * r.value
  {
    if x <= 0 then Err(MathDomain)
    else
      var c, f := CeilLog2(x), FloorLog2(x);
      var a, b := Pow2(c), Pow2(f);
      if IntAbs(a - x) < IntAbs(b - x) then Ok(a) else Ok(b)
  }

  /** `_nearest_pow2(x)` is at least as close to x as every power of two,
      and no equally close power of two is smaller. */
  lemma NearestPow2IsNearest(x: int, k: nat)
    requires x >= 1
    ensures var r := NearestPow2(x).value;
            IntAbs(r - x) <= IntAbs(Pow2(k) - x) &&
            (IntAbs(r - x) == IntAbs(Pow2(k) - x) ==> r <= Pow2(k))
  {
    var a, b := Pow2(CeilLog2(x)), Pow2(FloorLog2(x));
    PowersBracket(x, k);
    assert b <= x <= a;
    assert NearestPow2(x).value == if IntAbs(a - x) < IntAbs(b - x) then a else b;
  }

  /** No power of two lies strictly between `2**floor(log2 x)` and
      `2**ceil(log2 x)`. */
  lemma PowersBracket(x: int, k: nat)
    requires x >= 1
    ensures Pow2(k) <= Pow2(FloorLog2(x)) || Pow2(CeilLog2(x)) <= Pow2(k)
  {
    var c, f := CeilLog2(x), FloorLog2(x);
    // there is no exponent strictly between floor and ceiling
    if f + 1 < c {
      Pow2Monotone(f + 1, c - 1);
    }
    if k <= f {
      Pow2Monotone(k, f);
    } else {
      Pow2Monotone(c, k);
    }
  }

  /** The FFT length `nfft = 2 * _nearest_pow2(ndat)` of `transfer_function`
      and `remove_tilt`. */
  function FftLength(ndat: int): (r: Result<int>)
    ensures r.Err? <==> ndat <= 0
    ensures r.Ok? ==> r.value > ndat && r.value % 2 == 0
    ensures r.Ok? ==> r.value == 2 * NearestPow2(ndat).value
  {
    if ndat <= 0 then Err(MathDomain)
    else
      var p := NearestPow2(ndat).value;
      assert (p + p) % 2 == 0;
      Ok(p + p)
  }

  // ---------------------------------------------------------------------
  // Spectra

  datatype Complex = Complex(re: real, im: real)

  function Mul(z: Complex, w: Complex): (r: Complex) {
    Complex(z.re * w.re - z.im * w.im, z.re * w.im + z.im * w.re)
  }

  function Conj(z: Complex): (r: Complex) { Complex(z.re, -z.im) }

  function Sub(z: Complex, w: Complex): (r: Complex) { Complex(z.re - w.re, z.im - w.im) }

  function Scale(z: Complex, s: real): (r: Complex) { Complex(s * z.re, s * z.im) }

  /** The floating-point numerics the correction is built on. */
  datatype Numerics = Numerics(
    rfft: seq<real> -> seq<Complex>,                  // np.fft.rfft
    irfft: seq<Complex> -> seq<real>,                 // np.fft.irfft
    smooth: (seq<Complex>, int) -> seq<Complex>,      // np.convolve(x, np.blackman(n), mode='same')
    coherence: (Complex, Complex, Complex) -> Complex, // grs / np.sqrt(grr * gss)
    sqrtRatio: (Complex, Complex) -> Complex,         // np.sqrt(grr / gss)
    sin: real -> real)                                // np.sin

  /** The array shapes numpy guarantees: n samples have n/2 + 1 spectral
      lines, m lines transform back to 2(m - 1) samples, and a same-mode
      convolution is as long as the longer operand. */
  ghost predicate WellShaped(nm: Numerics) {
    && (forall x :: |nm.rfft(x)| == |x| / 2 + 1)
    && (forall z :: |z| >= 1 ==> |nm.irfft(z)| == 2 * (|z| - 1))
    && (forall z, n :: n >= 1 ==> |nm.smooth(z, n)| == Max(|z|, n))
  }

  /** The inverse transform undoes the forward one on an even number of
      samples. */
  ghost predicate InvertibleFft(nm: Numerics) {
    forall x :: |x| % 2 == 0 ==> nm.irfft(nm.rfft(x)) == x
  }

  /** The signal followed by zeros up to length n. */
  function Padded(s: seq<real>, n: int): (p: seq<real>)
    requires |s| <= n
    ensures |p| == n
    ensures forall i :: 0 <= i < |s| ==> p[i] == s[i]
    ensures forall i :: |s| <= i < n ==> p[i] == 0.0
  {
    s + seq(n - |s|, _ => 0.0)
  }

  /** `g = np.zeros(nfft); g[:ndat] = s`. */
  method ZeroPad(s: seq<real>, n: int) returns (g: array<real>)
    requires |s| <= n
    ensures fresh(g)
    ensures g[..] == Padded(s, n)
  {
    g := new real[n](_ => 0.0);
    forall i | 0 <= i < |s| {
      g[i] := s[i];
    }
  }

  /** `np.fft.rfftfreq(n, dt)`: the frequencies of the n/2 + 1 lines;
      `1.0 / (n * dt)` fails for a zero sampling interval. */
  function RfftFreq(n: nat, dt: real): (freq: seq<real>)
    requires n >= 1 && dt != 0.0
    ensures |freq| == n / 2 + 1
  {
    var df := 1.0 / (n as real * dt);
    seq(n / 2 + 1, k requires 0 <= k <= n / 2 => k as real * df)
  }

  /** The cross and auto spectral densities `Gr * conj(Gs)`,
      `Gr * conj(Gr)` and `Gs * conj(Gs)`. */
  function Densities(gr: seq<Complex>, gs: seq<Complex>): (d: (seq<Complex>, seq<Complex>, seq<Complex>))
    requires |gr| == |gs|
    ensures |d.0| == |d.1| == |d.2| == |gr|
  {
    (seq(|gr|, k requires 0 <= k < |gr| => Mul(gr[k], Conj(gs[k]))),
     seq(|gr|, k requires 0 <= k < |gr| => Mul(gr[k], Conj(gr[k]))),
     seq(|gr|, k requires 0 <= k < |gr| => Mul(gs[k], Conj(gs[k]))))
  }

  /** The smoothing switch: a window of `nsmooth` lines, or none at all
      when `nsmooth` is 0; `np.blackman` of a negative size is empty and
      cannot be convolved with. */
  function Smoothed(d: (seq<Complex>, seq<Complex>, seq<Complex>), nsmooth: int, nm: Numerics)
    : (r: Result<(seq<Complex>, seq<Complex>, seq<Complex>)>)
    requires WellShaped(nm)
    ensures nsmooth == 0 ==> r == Ok(d)
    ensures r.Err? <==> nsmooth < 0
    ensures nsmooth > 0 ==> r.Ok? && |r.value.0| == Max(|d.0|, nsmooth)
  {
    if nsmooth == 0 then Ok(d)
    else if nsmooth < 0 then Err(EmptySequence)
    else Ok((nm.smooth(d.0, nsmooth), nm.smooth(d.1, nsmooth), nm.smooth(d.2, nsmooth)))
  }

  datatype TransferResult = TransferResult(
    freq: seq<real>, grr: seq<Complex>, gss: seq<Complex>, ars: seq<Complex>, coh: seq<Complex>)

  /** `np.fft.rfft(g) * dt`. */
  function ScaledSpectrum(g: seq<real>, dt: real, nm: Numerics): (sp: seq<Complex>)
    requires WellShaped(nm)
    ensures |sp| == |g| / 2 + 1
  {
    seq(|nm.rfft(g)|, k requires 0 <= k < |nm.rfft(g)| => Scale(nm.rfft(g)[k], dt))
  }

  /** `nsmooth = int(round(smooth / (freq[1] - freq[0])))`: the smoothing
      bandwidth in spectral lines; the line spacing `1 / (n dt)` is never
      zero. */
  function SmoothingWindow(n: nat, dt: real, smooth: real): (nsmooth: int)
    requires n >= 2 && dt != 0.0
    ensures smooth == 0.0 ==> nsmooth == 0
    ensures smooth > 0.0 && dt > 0.0 ==> nsmooth >= 0
  {
    var freq := RfftFreq(n, dt);
    var df := 1.0 / (n as real * dt);
    assert n as real * dt != 0.0;
    assert freq[1] - freq[0] == df;
    assert df != 0.0;
    assert smooth == 0.0 ==> smooth / df == 0.0 && PyRound(0.0) == 0;
    PyRound(smooth / (freq[1] - freq[0]))
  }

  /** Everything `transfer_function` does once the zero-padded buffers
      `gr` and `gs` exist. */
  function SpectraOf(gr: seq<real>, gs: seq<real>, dt: real, smooth: real, nm: Numerics): (r: Result<TransferResult>)
    requires WellShaped(nm) && |gr| == |gs| >= 2
    ensures dt == 0.0 ==> r == Err(DivisionByZero)
    // a negative window cannot be convolved with; one longer than the
    // spectrum cannot be broadcast against it
    ensures dt != 0.0 ==>
              var nsmooth := SmoothingWindow(|gr|, dt, smooth);
              && (r.Ok? <==> 0 <= nsmooth <= |gr| / 2 + 1)
              && (r == Err(EmptySequence) <==> nsmooth < 0)
              && (r == Err(BroadcastMismatch) <==> nsmooth > |gr| / 2 + 1)
    ensures r.Ok? ==> |r.value.freq| == |r.value.ars| == |r.value.coh| == |r.value.grr| == |gr| / 2 + 1
  {
    var spR := ScaledSpectrum(gr, dt, nm);
    var spS := ScaledSpectrum(gs, dt, nm);
    if dt == 0.0 then Err(DivisionByZero)
    else
      var freq := RfftFreq(|gr|, dt);
      var d := Densities(spR, spS);
      var nsmooth := SmoothingWindow(|gr|, dt, smooth);
      var ds :- Smoothed(d, nsmooth, nm);
      var m := |spR|;
      if |ds.0| != m then
        // the smoothed coherence cannot be multiplied with `sqrt(Grr / Gss)`
        Err(BroadcastMismatch)
      else
        var coh := seq(m, k requires 0 <= k < m => nm.coherence(ds.0[k], ds.1[k], ds.2[k]));
        var ars := seq(m, k requires 0 <= k < m => Mul(coh[k], nm.sqrtRatio(d.1[k], d.2[k])));
        Ok(TransferResult(freq, d.1, d.2, ars, coh))
  }

  /** `transfer_function(response, source, dt, smooth)`. */
  function TransferFunctionSpec(response: seq<real>, source: seq<real>, dt: real, smooth: real, nm: Numerics)
    : (r: Result<TransferResult>)
    requires WellShaped(nm)
    ensures r == Err(AssertionFailed) <==> |response| != |source|
    ensures |response| == |source| == 0 ==> r == Err(MathDomain)
    ensures |response| == |source| > 0 && dt == 0.0 ==> r == Err(DivisionByZero)
    ensures r.Ok? ==> |response| == |source| > 0 && dt != 0.0
    ensures |response| == |source| > 0 && dt != 0.0 ==>
              var nfft := FftLength(|response|).value;
              var nsmooth := SmoothingWindow(nfft, dt, smooth);
              && (r.Ok? <==> 0 <= nsmooth <= nfft / 2 + 1)
              && (r == Err(EmptySequence) <==> nsmooth < 0)
              && (r == Err(BroadcastMismatch) <==> nsmooth > nfft / 2 + 1)
    ensures r.Ok? ==> var nfft := FftLength(|response|).value;
              |r.value.freq| == |r.value.ars| == |r.value.coh| == nfft / 2 + 1
  {
    if |response| != |source| then Err(AssertionFailed)
    else
      var nfft :- FftLength(|response|);
      SpectraOf(Padded(response, nfft), Padded(source, nfft), dt, smooth, nm)
  }

  /** `transfer_function`, writing the signals into zero-filled buffers. */
  method TransferFunction(response: seq<real>, source: seq<real>, dt: real, smooth: real, nm: Numerics)
    returns (r: Result<TransferResult>)
    requires WellShaped(nm)
    ensures r == TransferFunctionSpec(response, source, dt, smooth, nm)
  {
    if |response| != |source| {
      return Err(AssertionFailed);
    }
    var ndat := |response|;
    var nfft :- FftLength(ndat);
    var gr := ZeroPad(response, nfft);
    var gs := ZeroPad(source, nfft);
    r := SpectraOf(gr[..], gs[..], dt, smooth, nm);
  }

  /** Without smoothing (`smooth` = 0 rounds to a window of no lines) the
      coherence is computed from the raw densities. */
  lemma UnsmoothedCoherence(gr: seq<real>, gs: seq<real>, dt: real, nm: Numerics)
    requires WellShaped(nm) && |gr| == |gs| >= 2
    requires SpectraOf(gr, gs, dt, 0.0, nm).Ok?
    ensures var d := Densities(ScaledSpectrum(gr, dt, nm), ScaledSpectrum(gs, dt, nm));
            var t := SpectraOf(gr, gs, dt, 0.0, nm).value;
            && t.grr == d.1 && t.gss == d.2
            && forall k :: 0 <= k < |t.coh| ==> t.coh[k] == nm.coherence(d.0[k], d.1[k], d.2[k])
  {
    assert dt != 0.0;
    var d := Densities(ScaledSpectrum(gr, dt, nm), ScaledSpectrum(gs, dt, nm));
    assert Smoothed(d, SmoothingWindow(|gr|, dt, 0.0), nm) == Ok(d);
  }

  // ---------------------------------------------------------------------
  // Tilt removal

  /** `abs(c) >= threshold` for a complex coherence, without the square
      root: a non-positive threshold admits every line. */
  predicate AbsAtLeast(c: Complex, threshold: real) {
    threshold <= 0.0 || c.re * c.re + c.im * c.im >= threshold * threshold
  }

  /** A spectral line is corrected when its coherence reaches the threshold
      and its frequency lies inside the optional band limits. */
  predicate InBand(c: Complex, f: real, threshold: real, fmin: Option<real>, fmax: Option<real>) {
    && AbsAtLeast(c, threshold)
    && (fmin.Some? ==> f >= fmin.value)
    && (fmax.Some? ==> f <= fmax.value)
  }

  /** The correction mask: 1 on the lines in band, 0 elsewhere. */
  function Mask(coh: seq<Complex>, freq: seq<real>, threshold: real, fmin: Option<real>, fmax: Option<real>)
    : (mask: seq<real>)
    requires |coh| == |freq|
    ensures |mask| == |coh|
  {
    seq(|coh|, k requires 0 <= k < |coh| => if InBand(coh[k], freq[k], threshold, fmin, fmax) then 1.0 else 0.0)
  }

  /** `mask = np.where(abs(coh) >= threshold, 1.0, 0.0)`, then
      `mask[freq < fmin] = 0.0` and `mask[freq > fmax] = 0.0` for the
      limits that are given. */
  method BuildMask(coh: seq<Complex>, freq: seq<real>, threshold: real, fmin: Option<real>, fmax: Option<real>)
    returns (mask: seq<real>)
    requires |coh| == |freq|
    ensures |mask| == |coh|
    ensures forall k :: 0 <= k < |mask| ==> mask[k] == 0.0 || mask[k] == 1.0
    ensures forall k :: 0 <= k < |mask| ==> (mask[k] == 1.0 <==> InBand(coh[k], freq[k], threshold, fmin, fmax))
    ensures mask == Mask(coh, freq, threshold, fmin, fmax)
  {
    var n := |coh|;
    var m := new real[n](k requires 0 <= k < n => if AbsAtLeast(coh[k], threshold) then 1.0 else 0.0);
    if fmin.Some? {
      forall k | 0 <= k < n && freq[k] < fmin.value {
        m[k] := 0.0;
      }
    }
    if fmax.Some? {
      forall k | 0 <= k < n && freq[k] > fmax.value {
        m[k] := 0.0;
      }
    }
    mask := m[..];
  }

  predicate ValidMethod(kind: string) {
    kind == "direct" || kind == "coh" || kind == "freq"
  }

  /** `1.0 if parallel else -1.0`. */
  function Sign(parallel: bool): (s: real)
    ensures s == 1.0 || s == -1.0
  {
    if parallel then 1.0 else -1.0
  }

  /** The time-domain method: `response - sign * g * np.sin(source)`. */
  function Direct(response: seq<real>, source: seq<real>, sign: real, g: real, nm: Numerics): (out: seq<real>)
    requires |response| == |source|
    ensures |out| == |response|
  {
    seq(|response|, i requires 0 <= i < |response| => response[i] - sign * g * nm.sin(source[i]))
  }

  /** `Gr - corr`: the response spectrum minus the tilt contribution,
      `sign * g * Gs * mask` for the coherence method and
      `sign * conj(Ars) * Gs` for the frequency method. */
  function CorrectedSpectrum(spR: seq<Complex>, spS: seq<Complex>, ars: seq<Complex>, mask: seq<real>,
                             byCoherence: bool, sign: real, g: real): (z: seq<Complex>)
    requires |spS| == |spR| && |ars| == |spR| && |mask| == |spR|
    ensures |z| == |spR|
  {
    seq(|spR|, k requires 0 <= k < |spR| =>
      var corr := if byCoherence then Scale(Scale(spS[k], sign * g), mask[k])
                  else Mul(Scale(Conj(ars[k]), sign), spS[k]);
      Sub(spR[k], corr))
  }

  /** `np.fft.irfft(Gr - corr)[:ndat]`. */
  function Output(spR: seq<Complex>, spS: seq<Complex>, ars: seq<Complex>, mask: seq<real>,
                  byCoherence: bool, sign: real, g: real, ndat: nat, nm: Numerics): (out: seq<real>)
    requires WellShaped(nm)
    requires |spS| == |spR| && |ars| == |spR| && |mask| == |spR| && ndat <= 2 * (|spR| - 1)
    ensures |out| == ndat
  {
    nm.irfft(CorrectedSpectrum(spR, spS, ars, mask, byCoherence, sign, g))[..ndat]
  }

  /** The transfer function and coherence: given, or estimated from the
      signals. */
  function TransferAndCoherence(response: seq<real>, source: seq<real>, dt: real, smooth: real,
                                transCoh: Option<(seq<Complex>, seq<Complex>)>, nm: Numerics)
    : (r: Result<(seq<Complex>, seq<Complex>)>)
    requires WellShaped(nm)
  {
    match transCoh
    case Some(given) => Ok(given)
    case None =>
      var t :- TransferFunctionSpec(response, source, dt, smooth, nm);
      Ok((t.ars, t.coh))
  }

  /** The frequency-domain methods once the FFT length and the transfer
      function and coherence are known: transform the zero-padded signals,
      check that the given spectra match them line for line, mask, correct
      and transform back. */
  function FrequencyDomainSpec(response: seq<real>, source: seq<real>, nfft: int, dt: real,
                               fmin: Option<real>, fmax: Option<real>, sign: real, threshold: real, g: real,
                               byCoherence: bool, ars: seq<Complex>, coh: seq<Complex>, nm: Numerics)
    : (r: Result<seq<real>>)
    requires WellShaped(nm)
    requires |response| == |source| < nfft && nfft % 2 == 0
    ensures dt == 0.0 ==> r == Err(DivisionByZero)
    ensures dt != 0.0 ==> (r == Err(AssertionFailed) <==> |ars| != nfft / 2 + 1 || |coh| != nfft / 2 + 1)
    ensures dt != 0.0 ==> (r.Ok? <==> |ars| == nfft / 2 + 1 && |coh| == nfft / 2 + 1)
    ensures r.Ok? ==> |r.value| == |response|
  {
    var spR := nm.rfft(Padded(response, nfft));
    var spS := nm.rfft(Padded(source, nfft));
    if dt == 0.0 then Err(DivisionByZero)
    else
      var freq := RfftFreq(nfft, dt);
      if |ars| != |spR| || |coh| != |spR| then Err(AssertionFailed)
      else
        var mask := Mask(coh, freq, threshold, fmin, fmax);
        Ok(Output(spR, spS, ars, mask, byCoherence, sign, g, |response|, nm))
  }

  /** `remove_tilt(response, source, dt, fmin, fmax, parallel, threshold,
      smooth, g, kind, trans_coh)`. */
  function RemoveTiltSpec(response: seq<real>, source: seq<real>, dt: real, fmin: Option<real>, fmax: Option<real>,
                          parallel: bool, threshold: real, smooth: real, g: real, kind: string,
                          transCoh: Option<(seq<Complex>, seq<Complex>)>, nm: Numerics): (r: Result<seq<real>>)
    requires WellShaped(nm)
    // preconditions of the library, checked first
    ensures |response| != |source| || !ValidMethod(kind) ==> r == Err(AssertionFailed)
    // the time-domain method
    ensures |response| == |source| && kind == "direct" ==>
              r.Ok? && |r.value| == |response| &&
              forall i :: 0 <= i < |r.value| ==> r.value[i] == response[i] - Sign(parallel) * g * nm.sin(source[i])
    // the frequency-domain methods
    ensures |response| == |source| && ValidMethod(kind) && kind != "direct" ==>
              && (|response| == 0 ==> r == Err(MathDomain))
              && (|response| > 0 && dt == 0.0 ==> r == Err(DivisionByZero))
              && (|response| > 0 && dt != 0.0 && transCoh.Some? ==>
                    var m := FftLength(|response|).value / 2 + 1;
                    && (r == Err(AssertionFailed) <==> |transCoh.value.0| != m || |transCoh.value.1| != m)
                    && (r.Ok? <==> |transCoh.value.0| == m && |transCoh.value.1| == m))
              && (|response| > 0 && dt != 0.0 && transCoh.None? ==>
                    var nfft := FftLength(|response|).value;
                    var nsmooth := SmoothingWindow(nfft, dt, smooth);
                    && (r.Ok? <==> 0 <= nsmooth <= nfft / 2 + 1)
                    && (r == Err(EmptySequence) <==> nsmooth < 0)
                    && (r == Err(BroadcastMismatch) <==> nsmooth > nfft / 2 + 1))
    // the output is cut back to the input length
    ensures r.Ok? ==> |r.value| == |response|
  {
    if |response| != |source| || !ValidMethod(kind) then Err(AssertionFailed)
    else
      var sign := Sign(parallel);
      if kind == "direct" then
        Ok(Direct(response, source, sign, g, nm))
      else
        var nfft :- FftLength(|response|);
        var tc :- TransferAndCoherence(response, source, dt, smooth, transCoh, nm);
        FrequencyDomainSpec(response, source, nfft, dt, fmin, fmax, sign, threshold, g, kind == "coh", tc.0, tc.1, nm)
  }

  /** `remove_tilt`, estimating the transfer function when none is given. */
  method RemoveTilt(response: seq<real>, source: seq<real>, dt: real, fmin: Option<real>, fmax: Option<real>,
                    parallel: bool, threshold: real, smooth: real, g: real, kind: string,
                    transCoh: Option<(seq<Complex>, seq<Complex>)>, nm: Numerics) returns (r: Result<seq<real>>)
    requires WellShaped(nm)
    ensures r == RemoveTiltSpec(response, source, dt, fmin, fmax, parallel, threshold, smooth, g, kind, transCoh, nm)
  {
    if |response| != |source| || !ValidMethod(kind) {
      return Err(AssertionFailed);
    }
    var sign := Sign(parallel);
    if kind == "direct" {
      return Ok(Direct(response, source, sign, g, nm));
    }
    var nfft :- FftLength(|response|);
    var ars, coh;
    if transCoh.None? {
      var t :- TransferFunction(response, source, dt, smooth, nm);
      ars, coh := t.ars, t.coh;
    } else {
      ars, coh := transCoh.value.0, transCoh.value.1;
    }
    r := FrequencyDomain(response, source, nfft, dt, fmin, fmax, sign, threshold, g, kind == "coh", ars, coh, nm);
  }

  /** The frequency-domain part of `remove_tilt`, building the mask by
      indexed assignment. */
  method FrequencyDomain(response: seq<real>, source: seq<real>, nfft: int, dt: real,
                         fmin: Option<real>, fmax: Option<real>, sign: real, threshold: real, g: real,
                         byCoherence: bool, ars: seq<Complex>, coh: seq<Complex>, nm: Numerics)
    returns (r: Result<seq<real>>)
    requires WellShaped(nm)
    requires |response| == |source| < nfft && nfft % 2 == 0
    ensures r == FrequencyDomainSpec(response, source, nfft, dt, fmin, fmax, sign, threshold, g, byCoherence, ars, coh, nm)
  {
    var spR := nm.rfft(Padded(response, nfft));
    var spS := nm.rfft(Padded(source, nfft));
    if dt == 0.0 {
      return Err(DivisionByZero);
    }
    var freq := RfftFreq(nfft, dt);
    if |ars| != |spR| || |coh| != |spR| {
      return Err(AssertionFailed);
    }
    var mask := BuildMask(coh, freq, threshold, fmin, fmax);
    r := Ok(Output(spR, spS, ars, mask, byCoherence, sign, g, |response|, nm));
  }

  /** Without tilt (a zero tilt signal, and `sin 0 = 0`) the time-domain
      method returns the response unchanged. */
  lemma DirectWithoutTiltKeepsResponse(response: seq<real>, source: seq<real>, dt: real,
                                       fmin: Option<real>, fmax: Option<real>, parallel: bool,
                                       threshold: real, smooth: real, g: real,
                                       transCoh: Option<(seq<Complex>, seq<Complex>)>, nm: Numerics)
    requires WellShaped(nm) && nm.sin(0.0) == 0.0
    requires |response| == |source| && forall i :: 0 <= i < |source| ==> source[i] == 0.0
    ensures RemoveTiltSpec(response, source, dt, fmin, fmax, parallel, threshold, smooth, g, "direct", transCoh, nm)
            == Ok(response)
  {
    var out := Direct(response, source, Sign(parallel), g, nm);
    assert forall i :: 0 <= i < |out| ==> out[i] == response[i];
    assert out == response;
    assert ValidMethod("direct");
  }

  /** A band that starts above the Nyquist frequency `1 / (2 dt)` masks out
      every line, so the coherence method corrects nothing and returns the
      response, provided the inverse FFT undoes the forward one. */
  lemma BandAboveNyquistKeepsResponse(response: seq<real>, source: seq<real>, dt: real,
                                      fmin: real, fmax: Option<real>, parallel: bool,
                                      threshold: real, smooth: real, g: real,
                                      transCoh: Option<(seq<Complex>, seq<Complex>)>, nm: Numerics)
    requires WellShaped(nm) && InvertibleFft(nm)
    requires dt > 0.0 && fmin > 1.0 / (2.0 * dt)
    requires RemoveTiltSpec(response, source, dt, Some(fmin), fmax, parallel, threshold, smooth, g, "coh", transCoh, nm).Ok?
    ensures RemoveTiltSpec(response, source, dt, Some(fmin), fmax, parallel, threshold, smooth, g, "coh", transCoh, nm).value
            == response
  {
    var ndat := |response|;
    var nfft := FftLength(ndat).value;
    var tc := TransferAndCoherence(response, source, dt, smooth, transCoh, nm).value;
    var padded := Padded(response, nfft);
    var spR := nm.rfft(padded);
    var spS := nm.rfft(Padded(source, nfft));
    var freq := RfftFreq(nfft, dt);
    var mask := Mask(tc.1, freq, threshold, Some(fmin), fmax);
    MaskBelowBandIsZero(tc.1, nfft, dt, threshold, fmin, fmax);
    ZeroMaskCorrectsNothing(spR, spS, tc.0, mask, Sign(parallel), g);
    assert nm.irfft(spR) == padded;
    assert padded[..ndat] == response;
  }

  /** With `fmin` above the Nyquist frequency every mask entry is 0. */
  lemma MaskBelowBandIsZero(coh: seq<Complex>, nfft: nat, dt: real, threshold: real, fmin: real, fmax: Option<real>)
    requires nfft >= 2 && nfft % 2 == 0 && dt > 0.0 && fmin > 1.0 / (2.0 * dt)
    requires |coh| == nfft / 2 + 1
    ensures forall k :: 0 <= k < |coh| ==> Mask(coh, RfftFreq(nfft, dt), threshold, Some(fmin), fmax)[k] == 0.0
  {
    forall k | 0 <= k < |coh|
      ensures RfftFreq(nfft, dt)[k] < fmin
    {
      FrequencyBelowNyquist(nfft, dt, k);
    }
  }

  /** An all-zero mask leaves the response spectrum as it is. */
  lemma ZeroMaskCorrectsNothing(spR: seq<Complex>, spS: seq<Complex>, ars: seq<Complex>, mask: seq<real>, sign: real, g: real)
    requires |spS| == |spR| && |ars| == |spR| && |mask| == |spR|
    requires forall k :: 0 <= k < |mask| ==> mask[k] == 0.0
    ensures CorrectedSpectrum(spR, spS, ars, mask, true, sign, g) == spR
  {
    var z := CorrectedSpectrum(spR, spS, ars, mask, true, sign, g);
    forall k | 0 <= k < |spR|
      ensures z[k] == spR[k]
    {
      assert Scale(Scale(spS[k], sign * g), 0.0) == Complex(0.0, 0.0);
    }
  }

  /** Every line of `rfftfreq(n, dt)` is at most the Nyquist frequency
      `1 / (2 dt)`. */
  lemma FrequencyBelowNyquist(n: nat, dt: real, k: nat)
    requires n >= 2 && n % 2 == 0 && dt > 0.0 && k <= n / 2
    ensures RfftFreq(n, dt)[k] <= 1.0 / (2.0 * dt)
  {
    var df := 1.0 / (n as real * dt);
    var h := n / 2;
    assert n as real == 2.0 * h as real;
    assert df * (n as real * dt) == 1.0;
    assert h as real * df == 1.0 / (2.0 * dt) by {
      assert (h as real * df) * (2.0 * dt) == df * (n as real * dt);
    }
    assert df > 0.0;
    assert (h - k) as real * df >= 0.0;
  }
}
