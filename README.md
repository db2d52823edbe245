# YSO_Analyzer classification core in Dafny

`detect_YSOs.py` classifies young stellar objects from their WISE photometry.
It reads a magnitude in each of the four bands w1..w4 (3.4, 4.6, 12 and 22 um)
for every source, then:

1. turns each magnitude into a frequency flux density F_nu = Z * 10^(-0.4 m) (Jy);
2. converts it to a wavelength flux density F_lambda = F_nu * 10^-23 * c / lambda_cm^2;
3. weights it by wavelength to get lambda F_lambda;
4. takes base-10 logarithms, which gives the log-log SED;
5. computes the infrared spectral index alpha = (y[3] - y[0]) / (x[3] - x[0]) from the outer bands only;
6. labels the source with an ordered chain of thresholds at 0.3, -0.3 and -1.6.

This project models those steps.

- `bands.dfy` (module `Bands`): the band table, the zero points and the unit constants, as exact rationals.
- `flux.dfy` (module `Flux`): the three flux representations. Lemmas cover monotonicity in magnitude, linearity, sign preservation and the closed form lambda F_lambda = F_nu * 10^-23 * c / lambda_cm.
- `spectral_index.dfy` (module `SpectralIndex`): the SED x data, the one-band log flux, and the numerator, denominator and index. Lemmas cover band independence, sign and monotonicity.
- `classifier.dfy` (module `Classifier`): the threshold chain and the text of each label. Lemmas cover the interval each label stands for, the partition of the real line, the boundary values and the monotone stage order.
- `pipeline.dfy` (module `Pipeline`): the script's batch loops, kept imperative.
  - Each per-source table is an `array2<real>` that starts full of 1s. Every one of its cells is then overwritten, band by band.
  - The lists `a` and `classification` are sequences built by appending.
  - `DetectYSOs` runs the whole batch. It returns one label text per source, in source order, and entry i depends on row i alone.

`10^x` and `log10` are transcendental, so they are function parameters (`exp10`, `log10`).
The `requires` of each member says what it assumes of them. The monotonicity lemmas assume 10^x strictly increasing (and, where a logarithm follows, positive) and log10 increasing on the positive reals. `Flux.FnuKnownValue` assumes the single value 10^-4 = 1.0e-4. `Pipeline.SourceLabel` asks only that the denominator d = x[3] - x[0] be non-zero. `Pipeline.DetectYSOs` asks that d be non-zero and that 10^x be positive, because `math.log` raises on a non-positive flux and the script would stop.

At exactly alpha = -1.6 neither `alpha > -1.6` nor `-1.6 > alpha` holds, so the chain falls through to "NOT CLASSIFIED", not Class III.
`Classifier.ClassifyMatchesRanges` and `Classifier.BoundaryCases` state this.
The script has no path for an undefined magnitude: see "Left out".

## Model

| member | source | states |
|---|---|---|
| Bands.WavelengthUm | detect_YSOs.py:15-20 | the definition of the central wavelengths 3.4, 4.6, 12 and 22 um of w1..w4; each is positive, and `Bands.WavelengthsIncrease` states their order |
| Bands.WavelengthsIncrease | detect_YSOs.py:15-20 | the columns are in wavelength order, so column 0 (w1) is the shortest band and column 3 (w4) the longest, in um and in cm |
| Bands.ZeroPointJy | detect_YSOs.py:22-27 | every band's zero-point flux is positive |
| Bands.WavelengthCm | detect_YSOs.py:70-75 | a band's wavelength converted to cm is positive, so the squared wavelength the conversion divides by is never zero |
| Flux.Fnu | detect_YSOs.py:62-65 | the definition F_nu = Z * 10^(-0.4 m); F_nu is positive exactly when 10^(-0.4 m) is. `Flux.FnuDecreasing` and `Flux.FnuKnownValue` state its monotonicity and a known value |
| Flux.Flambda | detect_YSOs.py:75-80 | the definition F_lambda = F_nu * 10^-23 * c / lambda_cm^2; F_lambda is positive exactly when F_nu is. `Flux.FlambdaFactor` and `Flux.ConversionLinear` state its linearity |
| Flux.LambdaFlambda | detect_YSOs.py:85-88 | the definition lambda F_lambda = F_lambda * 10^-4 * lambda_um; the result is positive exactly when F_lambda is. `Flux.WeightedFluxClosedForm` gives the composed formula |
| Flux.FnuDecreasing | detect_YSOs.py:60-65 | a brighter (smaller) magnitude gives a strictly larger F_nu in the same band, whenever 10^x is strictly increasing |
| Flux.FnuKnownValue | detect_YSOs.py:62 | a w1 source of magnitude 10 has F_nu = 309.54 * 10^-4 = 0.030954 Jy |
| Flux.FlambdaFactor | detect_YSOs.py:73-80 | F_lambda is F_nu times one positive factor for each band |
| Flux.WeightedFluxClosedForm | detect_YSOs.py:68-88 | the two conversions together give lambda F_lambda = F_nu * 10^-23 * c / lambda_cm |
| Flux.ConversionLinear | detect_YSOs.py:73-88 | scaling F_nu by any k scales F_lambda and lambda F_lambda by k |
| Flux.ConversionPositive | detect_YSOs.py:73-88 | F_lambda and lambda F_lambda are positive if and only if F_nu is |
| Flux.WeightedFluxPositive | detect_YSOs.py:60-88 | a positive 10^x gives a positive lambda F_lambda, so its logarithm at lines 111-114 is defined |
| Flux.WeightedFluxDecreasing | detect_YSOs.py:60-88 | a brighter magnitude gives a strictly larger lambda F_lambda in the same band |
| SpectralIndex.LogWavelengths | detect_YSOs.py:101-106 | the SED x data has four entries, and entry j is log10 of band j's wavelength in cm |
| SpectralIndex.LogWeightedFlux | detect_YSOs.py:111-114 | the definition of one SED y value, log10 of the band's lambda F_lambda; `SpectralIndex.LogWeightedFluxDecreasing` states that it falls as the magnitude grows |
| SpectralIndex.Denominator | detect_YSOs.py:126 | the definition d = x[3] - x[0]; `SpectralIndex.DenominatorPositive` states that it is positive |
| SpectralIndex.Numerator | detect_YSOs.py:130 | the definition y[3] - y[0]; `SpectralIndex.AlphaBandIndependent` states that only columns 0 and 3 matter |
| SpectralIndex.Alpha | detect_YSOs.py:134 | alpha is the slope between the outer bands: alpha * d = y[3] - y[0]. `SpectralIndex.AlphaSign` and `SpectralIndex.AlphaMonotone` state its sign and monotonicity |
| SpectralIndex.LogWeightedFluxDecreasing | detect_YSOs.py:108-114 | a brighter magnitude gives a strictly larger SED y value in the same band |
| SpectralIndex.DenominatorPositive | detect_YSOs.py:126 | with a logarithm that grows on the positive reals, d = x[3] - x[0] is positive, so the division at line 134 cannot fail |
| SpectralIndex.AlphaBandIndependent | detect_YSOs.py:126-134 | two y rows that agree in columns 0 and 3 give the same alpha, whatever columns 1 and 2 hold |
| SpectralIndex.AlphaSign | detect_YSOs.py:130-134 | with d > 0, alpha is positive, negative or zero exactly when lambda F_lambda rises, falls or stays level from w1 to w4 |
| SpectralIndex.AlphaMonotone | detect_YSOs.py:130-134 | with d > 0, a larger numerator gives a strictly larger alpha |
| Classifier.Classify | detect_YSOs.py:135-144 | the chain itself, test by test in the script's order; the label it gives lies in that label's interval. `Classifier.ClassifyMatchesRanges` and `Classifier.RangesPartition` state the converse and the partition |
| Classifier.ClassifyMatchesRanges | detect_YSOs.py:135-144 | the chain gives each label exactly on its interval: Class I for alpha > 0.3, Flat Spectrum for -0.3 < alpha <= 0.3, Class II for -1.6 < alpha <= -0.3, Class III for alpha < -1.6, and NOT CLASSIFIED only at alpha = -1.6 (both directions) |
| Classifier.RangesPartition | detect_YSOs.py:135-144 | the five intervals cover the real line and never overlap |
| Classifier.BoundaryCases | detect_YSOs.py:135-144 | 0.3 gives Flat Spectrum and 0.30000001 gives Class I; -0.3 gives Class II and -0.29999999 gives Flat Spectrum; -1.6 gives NOT CLASSIFIED, -1.59999999 gives Class II and -1.60000001 gives Class III |
| Classifier.ClassifyMonotone | detect_YSOs.py:135-142 | for alpha1 <= alpha2, both different from -1.6, both get a class, and alpha2's class is never later than alpha1's in the order Class I, Flat Spectrum, Class II, Class III |
| Classifier.Name | detect_YSOs.py:136-144 | the definition of the five texts the chain appends; `Classifier.NamesDistinct` states that they tell the labels apart |
| Classifier.NamesDistinct | detect_YSOs.py:136-144 | two labels are recorded as the same text exactly when they are the same label |
| Pipeline.SourceLabel | detect_YSOs.py:60-144 | the definition of one source's label as the composition magnitude, F_nu, F_lambda, lambda F_lambda, log10, alpha, chain; `Pipeline.DetectYSOs` states that the batch computes it for every row, and `Pipeline.SourceLabelBandIndependent` and `Pipeline.BrighterAtW4NeverLater` state its properties |
| Pipeline.NewTable | detect_YSOs.py:60-114 | a new per-source table has one row per source and four columns, all holding 1; it stands for the pre-filled lists `Fv`, `Fy`, `yFy` and `y` at lines 60, 73, 83 and 109 |
| Pipeline.FillByBand | detect_YSOs.py:60-114 | it stands for each of the four per-source loops at lines 61-65, 74-80, 84-88 and 110-114. After one of them, every cell (i, j) of the target table is that band's formula applied to cell (i, j) of the source table. The source table is not changed |
| Pipeline.Numerators | detect_YSOs.py:128-130 | `a` has one entry per source, in source order, and entry i is y[i][3] - y[i][0] of row i |
| Pipeline.ClassifyBatch | detect_YSOs.py:132-144 | `classification` has exactly one entry per entry of `a`, in order, and entry i is the text of the chain's label for a[i] / d |
| Pipeline.DetectYSOs | detect_YSOs.py:52-144 | the batch gives exactly one label text per source, in source order. Entry i is the label computed from source i's own four magnitudes through F_nu, F_lambda, lambda F_lambda, its logarithm, alpha and the chain. No other source affects it |
| Pipeline.SourceLabelBandIndependent | detect_YSOs.py:126-144 | two sources with the same w1 and w4 magnitudes get the same label, whatever their w2 and w3 magnitudes |
| Pipeline.BrighterAtW4NeverLater | detect_YSOs.py:60-142 | two sources have the same w1 magnitude, and one of them is brighter at w4. If both get a class, the brighter one never gets a later evolutionary stage. This assumes increasing 10^x and log10 and a positive 10^x |

## Left out

- Reading `coordinates.txt`, parsing the frame name, querying the IRSA catalog and copying the `w1mpro`..`w4mpro` fields into `wmpro` (lines 30-58). This is file and network I/O. The magnitude table is the input of `Pipeline.DetectYSOs`. In the script, `stellar_objects` is `len(dec_args)` while the query loop runs over `min(len(ra_args), len(dec_args))`. These are always equal, because lines 39-42 append to both lists in the same iteration.
- A catalog field can be a column of zero or several matches rather than one number. The script then stops with an error in `math.log` at line 111. The model takes exactly one magnitude per band and source.
- `pow(10, -0.4 * m)` and `math.log(., 10)` are transcendental. They are the parameters `exp10` and `log10`, and only the properties each lemma names are assumed of them.
- Floating point: every constant and every operation is an exact rational. Float rounding of 0.4, 10^-23, 2.99792458e10 and of the products is not modelled. So "alpha = -1.6 exactly" is a statement about reals.
- NaN and masked values: a NaN alpha would also reach the final `else` branch. The model has no undefined index, and `math.log` of a non-positive number raises an error in Python. `Flux.WeightedFluxPositive` shows that a positive 10^x never leads there.
- Plotting, colours, legend and the final `print` loop (lines 90-98, 115, 117-121, 147-148, 154). These are presentation only.
- The empty "Transition Disk Sources" section (line 150) has no behaviour.
