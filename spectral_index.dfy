/**
 The log-log spectral energy distribution of a source and its infrared
 spectral index: the slope of log(lambda F_lambda) against log(lambda)
 between the shortest band (column 0) and the longest band (column 3).

 The base-10 logarithm is a parameter `log10`, like the exponential in Flux.
 */
module SpectralIndex {
  import opened Bands
  import opened Flux

  ghost predicate IncreasingOnPositives(log10: real -> real)
  {
    forall u, v :: 0.0 < u < v ==> log10(u) < log10(v)
  }

  /** The x data of the SED: log10 of each band's wavelength in cm,
      in column order. */
  function LogWavelengths(log10: real -> real): (x: seq<real>)
    ensures |x| == BandCount
    ensures forall j :: 0 <= j < BandCount ==> x[j] == log10(WavelengthCm(BandAt(j)))
  {
    [log10(WavelengthCm(W1)), log10(WavelengthCm(W2)),
     log10(WavelengthCm(W3)), log10(WavelengthCm(W4))]
  }

  /** One y datum of the SED: log10 of the weighted flux of a band. */
  function LogWeightedFlux(b: Band, magnitude: real, exp10: real -> real, log10: real -> real): (y: real)
  {
    log10(LambdaFlambda(Flambda(Fnu(b, magnitude, exp10), b), b))
  }

  /** The index's denominator: the log-wavelength span of the outer bands. */
  function Denominator(x: seq<real>): (d: real)
    requires |x| == BandCount
  {
    x[3] - x[0]
  }

  /** The index's numerator: the log-flux rise between the outer bands. */
  function Numerator(y: seq<real>): (n: real)
    requires |y| == BandCount
  {
    y[3] - y[0]
  }

  /** The spectral index alpha of one source's y data. */
  function Alpha(y: seq<real>, d: real): (alpha: real)
    requires |y| == BandCount
    requires d != 0.0
    ensures alpha * d == y[3] - y[0]
  {
    Numerator(y) / d
  }

  /** With a logarithm that grows on the positive reals (as log10 does) the
      denominator is positive, because 22 um > 3.4 um; so the division
      never fails. */
  lemma DenominatorPositive(log10: real -> real)
    requires IncreasingOnPositives(log10)
    ensures Denominator(LogWavelengths(log10)) > 0.0
  {
  }

  /** alpha reads the outer bands only: two sources that agree in columns 0
      and 3 have the same index, whatever their middle bands hold. */
  lemma AlphaBandIndependent(y1: seq<real>, y2: seq<real>, d: real)
    requires |y1| == BandCount && |y2| == BandCount && d != 0.0
    requires y1[0] == y2[0] && y1[3] == y2[3]
    ensures Alpha(y1, d) == Alpha(y2, d)
  {
  }

  /** With a positive denominator the index has the sign of the flux rise:
      positive when lambda F_lambda grows from w1 to w4, negative when it
      falls, zero when it is flat. */
  lemma AlphaSign(y: seq<real>, d: real)
    requires |y| == BandCount && d > 0.0
    ensures Alpha(y, d) > 0.0 <==> y[3] > y[0]
    ensures Alpha(y, d) < 0.0 <==> y[3] < y[0]
    ensures Alpha(y, d) == 0.0 <==> y[3] == y[0]
  {
  }

  /** With a positive denominator alpha grows with the numerator. */
  lemma AlphaMonotone(y1: seq<real>, y2: seq<real>, d: real)
    requires |y1| == BandCount && |y2| == BandCount && d > 0.0
    requires Numerator(y1) < Numerator(y2)
    ensures Alpha(y1, d) < Alpha(y2, d)
  {
  }

  /** A brighter magnitude gives a strictly larger log weighted flux in the
      same band (with strictly increasing, positive 10^x and a log10 that
      grows on the positive reals). */
  lemma LogWeightedFluxDecreasing(b: Band, m1: real, m2: real, exp10: real -> real, log10: real -> real)
    requires StrictlyIncreasing(exp10) && forall u :: exp10(u) > 0.0
    requires IncreasingOnPositives(log10)
    requires m1 < m2
    ensures LogWeightedFlux(b, m1, exp10, log10) > LogWeightedFlux(b, m2, exp10, log10)
  {
  }
}
