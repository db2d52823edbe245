/**
 The script's batch pass over all sources, kept in its imperative form: four
 per-source tables (F_nu, F_lambda, lambda F_lambda and their logarithms),
 each allocated full of 1s and then overwritten row by row and column by
 column, followed by the two loops that append each source's index
 numerator to `a` and its label to `classification`.

 The magnitude table (one row per source, columns w1..w4) is the input; the
 catalog query that fills it is not part of this model.
 */
module Pipeline {
  import opened Bands
  import opened Flux
  import opened SpectralIndex
  import opened Classifier

  /** Row i of a per-source table, as a sequence of its four band values. */
  function Row(t: array2<real>, i: nat): (r: seq<real>)
    reads t
    requires i < t.Length0 && t.Length1 == BandCount
    ensures |r| == BandCount
  {
    [t[i, 0], t[i, 1], t[i, 2], t[i, 3]]
  }

  /** The SED y data of one source: log10(lambda F_lambda) per band. */
  function SedY(magnitudes: seq<real>, exp10: real -> real, log10: real -> real): (y: seq<real>)
    requires |magnitudes| == BandCount
    ensures |y| == BandCount
  {
    [LogWeightedFlux(W1, magnitudes[0], exp10, log10), LogWeightedFlux(W2, magnitudes[1], exp10, log10),
     LogWeightedFlux(W3, magnitudes[2], exp10, log10), LogWeightedFlux(W4, magnitudes[3], exp10, log10)]
  }

  /** The label the pipeline gives one source, as a composition of the
      per-value steps: magnitude, flux, SED, index, class. */
  function SourceLabel(magnitudes: seq<real>, exp10: real -> real, log10: real -> real): (l: Label)
    requires |magnitudes| == BandCount
    requires Denominator(LogWavelengths(log10)) != 0.0
  {
    Classify(Alpha(SedY(magnitudes, exp10, log10), Denominator(LogWavelengths(log10))))
  }

  /** A fresh per-source table with every entry 1. */
  method NewTable(sources: nat) returns (t: array2<real>)
    ensures fresh(t)
    ensures t.Length0 == sources && t.Length1 == BandCount
    ensures forall i, j :: 0 <= i < sources && 0 <= j < BandCount ==> t[i, j] == 1.0
  {
    t := new real[sources, BandCount]((i, j) => 1.0);
  }

  /** One of the script's per-source loops: every column of every row of
      `dst` is overwritten from the same cell of `src`, through the formula
      `f` of that column's band. */
  method FillByBand(src: array2<real>, dst: array2<real>, f: (Band, real) -> real)
    requires src != dst
    requires src.Length1 == BandCount && dst.Length1 == BandCount
    requires src.Length0 == dst.Length0
    modifies dst
    ensures forall i, j :: 0 <= i < dst.Length0 && 0 <= j < BandCount ==> dst[i, j] == f(BandAt(j), src[i, j])
  {
    var i := 0;
    while i < dst.Length0
      invariant 0 <= i <= dst.Length0
      invariant forall k, j :: 0 <= k < i && 0 <= j < BandCount ==> dst[k, j] == f(BandAt(j), src[k, j])
    {
      dst[i, 0] := f(W1, src[i, 0]);
      dst[i, 1] := f(W2, src[i, 1]);
      dst[i, 2] := f(W3, src[i, 2]);
      dst[i, 3] := f(W4, src[i, 3]);
      i := i + 1;
    }
  }

  /** The loop that builds `a`: one entry per source, in source order, each
      the numerator of that source's own index. */
  method Numerators(y: array2<real>) returns (a: seq<real>)
    requires y.Length1 == BandCount
    ensures |a| == y.Length0
    ensures forall i :: 0 <= i < |a| ==> a[i] == Numerator(Row(y, i))
  {
    a := [];
    var i := 0;
    while i < y.Length0
      invariant 0 <= i <= y.Length0
      invariant |a| == i
      invariant forall k :: 0 <= k < i ==> a[k] == Numerator(Row(y, k))
    {
      a := a + [y[i, 3] - y[i, 0]];
      i := i + 1;
    }
  }

  /** The loop that builds `classification`: one label per source, in source
      order, each from that source's own index a[i] / d. */
  method ClassifyBatch(a: seq<real>, d: real) returns (classification: seq<string>)
    requires d != 0.0
    ensures |classification| == |a|
    ensures forall i :: 0 <= i < |a| ==> classification[i] == Name(Classify(a[i] / d))
  {
    classification := [];
    var i := 0;
    while i < |a|
      invariant 0 <= i <= |a|
      invariant |classification| == i
      invariant forall k :: 0 <= k < i ==> classification[k] == Name(Classify(a[k] / d))
    {
      // The script's chain and texts, written out; the invariant ties them
      // to Name(Classify(alpha)).
      var alpha := a[i] / d;
      var text: string;
      if alpha > ClassIThreshold {
        text := "Class I";
      } else if alpha > FlatThreshold {
        text := "Flat Spectrum";
      } else if alpha > ClassIIThreshold {
        text := "Class II";
      } else if ClassIIThreshold > alpha {
        text := "Class III";
      } else {
        text := "NOT CLASSIFIED";
      }
      classification := classification + [text];
      i := i + 1;
    }
  }

  /** The whole batch: from the magnitude table to one label text per
      source. The result has one entry per source, in source order, and
      entry i is the label of row i of the magnitudes alone. A positive 10^x
      keeps every flux positive, as the logarithm at detect_YSOs.py:111-114
      needs (Flux.WeightedFluxPositive). */
  method DetectYSOs(wmpro: array2<real>, exp10: real -> real, log10: real -> real)
    returns (classification: seq<string>)
    requires wmpro.Length1 == BandCount
    requires Denominator(LogWavelengths(log10)) != 0.0
    requires forall u :: exp10(u) > 0.0
    ensures |classification| == wmpro.Length0
    ensures forall i :: 0 <= i < wmpro.Length0 ==>
              classification[i] == Name(SourceLabel(Row(wmpro, i), exp10, log10))
  {
    var sources := wmpro.Length0;
    var fv := NewTable(sources);
    FillByBand(wmpro, fv, (b, m) => Fnu(b, m, exp10));
    var fy := NewTable(sources);
    FillByBand(fv, fy, (b, v) => Flambda(v, b));
    var yfy := NewTable(sources);
    FillByBand(fy, yfy, (b, v) => LambdaFlambda(v, b));
    var x := LogWavelengths(log10);
    var y := NewTable(sources);
    FillByBand(yfy, y, (b, v) => log10(v));

    var d := Denominator(x);
    var a := Numerators(y);
    classification := ClassifyBatch(a, d);

    forall i | 0 <= i < sources
      ensures a[i] == Numerator(SedY(Row(wmpro, i), exp10, log10))
    {
      assert y[i, 0] == LogWeightedFlux(W1, wmpro[i, 0], exp10, log10);
      assert y[i, 3] == LogWeightedFlux(W4, wmpro[i, 3], exp10, log10);
    }
  }

  /** The label of a source reads its w1 and w4 magnitudes only: two sources
      that agree in those bands get the same label, whatever their w2 and w3
      magnitudes. */
  lemma SourceLabelBandIndependent(m1: seq<real>, m2: seq<real>, exp10: real -> real, log10: real -> real)
    requires |m1| == BandCount && |m2| == BandCount
    requires Denominator(LogWavelengths(log10)) != 0.0
    requires m1[0] == m2[0] && m1[3] == m2[3]
    ensures SourceLabel(m1, exp10, log10) == SourceLabel(m2, exp10, log10)
  {
  }

  /** A source that is brighter at 22 um than another, with the same 3.4 um
      magnitude, has a larger index and so is never placed at a later
      evolutionary stage (with strictly increasing 10^x and log10, and a
      positive 10^x). */
  lemma BrighterAtW4NeverLater(m1: seq<real>, m2: seq<real>, exp10: real -> real, log10: real -> real)
    requires |m1| == BandCount && |m2| == BandCount
    requires StrictlyIncreasing(exp10) && forall u :: exp10(u) > 0.0
    requires IncreasingOnPositives(log10)
    requires m1[0] == m2[0] && m2[3] < m1[3]
    ensures SourceLabel(m1, exp10, log10) != NotClassified && SourceLabel(m2, exp10, log10) != NotClassified ==>
              Stage(SourceLabel(m2, exp10, log10)) <= Stage(SourceLabel(m1, exp10, log10))
  {
    var d := Denominator(LogWavelengths(log10));
    var y1, y2 := SedY(m1, exp10, log10), SedY(m2, exp10, log10);
    var a1, a2 := Alpha(y1, d), Alpha(y2, d);
    assert SourceLabel(m1, exp10, log10) == Classify(a1);
    assert SourceLabel(m2, exp10, log10) == Classify(a2);
    if Classify(a1) != NotClassified && Classify(a2) != NotClassified {
      DenominatorPositive(log10);
      LogWeightedFluxDecreasing(W4, m2[3], m1[3], exp10, log10);
      assert Numerator(y1) < Numerator(y2);
      AlphaMonotone(y1, y2, d);
      ClassifyMatchesRanges(a1, NotClassified);
      ClassifyMatchesRanges(a2, NotClassified);
      ClassifyMonotone(a1, a2);
    }
  }
}
