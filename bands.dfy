/**
 The four WISE photometric bands, with the central wavelengths and zero-point
 fluxes the classifier uses, and the fixed unit-conversion constants.
 All values are exact rationals; the script holds them as floats.
 */
module Bands {

  /** The WISE channels w1..w4, in the script's column order. */
  datatype Band = W1 | W2 | W3 | W4

  /** Number of bands, i.e. the number of columns of every per-source table. */
  const BandCount: nat := 4

  /** The bands in column order: column j of a table holds band AllBands[j]. */
  const AllBands: seq<Band> := [W1, W2, W3, W4]

  function BandAt(j: nat): (b: Band)
    requires j < BandCount
    ensures Column(b) == j
  {
    AllBands[j]
  }

  /** The column a band occupies in every per-source table. */
  function Column(b: Band): (j: nat)
    ensures j < BandCount && AllBands[j] == b
  {
    match b
    case W1 => 0
    case W2 => 1
    case W3 => 2
    case W4 => 3
  }

  /** Central wavelength in micrometres. */
  function WavelengthUm(b: Band): (um: real)
    ensures um > 0.0
  {
    match b
    case W1 => 3.4
    case W2 => 4.6
    case W3 => 12.0
    case W4 => 22.0
  }

  /** Flux density, in Jansky, of a magnitude-zero source. */
  function ZeroPointJy(b: Band): (z: real)
    ensures z > 0.0
  {
    match b
    case W1 => 309.54
    case W2 => 171.79
    case W3 => 31.676
    case W4 => 8.3635
  }

  /** 1 Jy = 10^-23 erg s^-1 cm^-2 Hz^-1. */
  const JyToCgs: real := 1.0e-23

  /** Speed of light in cm/s, 2.99792458 * 10^10. */
  const SpeedOfLightCgs: real := 2.99792458e10

  /** 1 micrometre = 10^-4 cm. */
  const UmToCm: real := 1.0e-4

  /** Central wavelength in centimetres. */
  function WavelengthCm(b: Band): (l: real)
    ensures l > 0.0
  {
    UmToCm * WavelengthUm(b)
  }

  /** The columns are ordered by wavelength, so column 0 is the shortest
      and column 3 the longest band. */
  lemma WavelengthsIncrease(i: nat, j: nat)
    requires i < j < BandCount
    ensures WavelengthUm(BandAt(i)) < WavelengthUm(BandAt(j))
    ensures WavelengthCm(BandAt(i)) < WavelengthCm(BandAt(j))
  {
  }
}
