/**
 Conversion of a catalog magnitude into the three flux representations the
 classifier works with: the frequency flux density F_nu (Jy), the
 wavelength flux density F_lambda (erg s^-1 cm^-2 cm^-1) and the
 wavelength-weighted flux density lambda F_lambda.

 The exponential 10^x is transcendental; it is a parameter `exp10`, and the
 lemmas state which of its properties they rely on.
 */
module Flux {
  import opened Bands

  /** F_nu = Z * 10^(MagnitudeExponent * m). */
  const MagnitudeExponent: real := -0.4

  ghost predicate StrictlyIncreasing(f: real -> real)
  {
    forall u, v :: u < v ==> f(u) < f(v)
  }

  /** Frequency flux density, in Jy, of a source of the given magnitude. */
  function Fnu(b: Band, magnitude: real, exp10: real -> real): (fnu: real)
    ensures fnu > 0.0 <==> exp10(MagnitudeExponent * magnitude) > 0.0
  {
    ZeroPointJy(b) * exp10(MagnitudeExponent * magnitude)
  }

  /** Frequency flux density (Jy) to wavelength flux density (cgs):
      F_lambda = F_nu * 10^-23 * c / lambda_cm^2. */
  function Flambda(fnu: real, b: Band): (flambda: real)
    ensures flambda > 0.0 <==> fnu > 0.0
  {
    fnu * JyToCgs * (SpeedOfLightCgs / (WavelengthCm(b) * WavelengthCm(b)))
  }

  /** Wavelength flux density to wavelength-weighted flux density:
      lambda F_lambda = F_lambda * lambda_cm. */
  function LambdaFlambda(flambda: real, b: Band): (weighted: real)
    ensures weighted > 0.0 <==> flambda > 0.0
  {
    flambda * UmToCm * WavelengthUm(b)
  }

  /** The factor that turns F_nu into F_lambda in a band. */
  function FlambdaFactor(b: Band): (k: real)
    ensures k > 0.0
    ensures forall fnu :: Flambda(fnu, b) == k * fnu
  {
    JyToCgs * (SpeedOfLightCgs / (WavelengthCm(b) * WavelengthCm(b)))
  }

  /** Brighter means more flux: F_nu is strictly decreasing in the magnitude
      whenever 10^x is strictly increasing. */
  lemma FnuDecreasing(b: Band, m1: real, m2: real, exp10: real -> real)
    requires StrictlyIncreasing(exp10)
    requires m1 < m2
    ensures Fnu(b, m1, exp10) > Fnu(b, m2, exp10)
  {
  }

  /** A w1 source of magnitude 10 has F_nu = 309.54 * 10^-4 Jy. */
  lemma FnuKnownValue(exp10: real -> real)
    requires exp10(-4.0) == 1.0e-4
    ensures Fnu(W1, 10.0, exp10) == 0.030954
  {
  }

  /** Composing the two conversions gives
      lambda F_lambda = F_nu * 10^-23 * c / lambda_cm. */
  lemma WeightedFluxClosedForm(fnu: real, b: Band)
    ensures LambdaFlambda(Flambda(fnu, b), b) == fnu * JyToCgs * SpeedOfLightCgs / WavelengthCm(b)
  {
  }

  /** Both conversions are linear in the flux: scaling F_nu by k scales
      F_lambda and lambda F_lambda by k. */
  lemma ConversionLinear(fnu: real, k: real, b: Band)
    ensures Flambda(k * fnu, b) == k * Flambda(fnu, b)
    ensures LambdaFlambda(Flambda(k * fnu, b), b) == k * LambdaFlambda(Flambda(fnu, b), b)
  {
  }

  /** The conversions keep the sign of the flux: F_lambda and lambda F_lambda
      are positive exactly when F_nu is. */
  lemma ConversionPositive(fnu: real, b: Band)
    ensures Flambda(fnu, b) > 0.0 <==> fnu > 0.0
    ensures LambdaFlambda(Flambda(fnu, b), b) > 0.0 <==> fnu > 0.0
  {
  }

  /** A positive 10^x gives a positive weighted flux in every band, so its
      logarithm is defined. */
  lemma WeightedFluxPositive(b: Band, magnitude: real, exp10: real -> real)
    requires exp10(MagnitudeExponent * magnitude) > 0.0
    ensures LambdaFlambda(Flambda(Fnu(b, magnitude, exp10), b), b) > 0.0
  {
  }

  /** lambda F_lambda inherits the monotonicity of F_nu: a brighter magnitude
      gives a strictly larger weighted flux in the same band. */
  lemma WeightedFluxDecreasing(b: Band, m1: real, m2: real, exp10: real -> real)
    requires StrictlyIncreasing(exp10)
    requires m1 < m2
    ensures LambdaFlambda(Flambda(Fnu(b, m1, exp10), b), b) > LambdaFlambda(Flambda(Fnu(b, m2, exp10), b), b)
  {
  }
}
