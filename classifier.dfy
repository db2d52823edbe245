/**
 The evolutionary class of a young stellar object, decided from its infrared
 spectral index alpha by an ordered chain of threshold tests. The first test
 that holds decides the label; a value that passes none of them falls through
 to "NOT CLASSIFIED", which among the reals happens only at alpha = -1.6.
 */
module Classifier {

  datatype Label = ClassI | FlatSpectrum | ClassII | ClassIII | NotClassified

  /** Above this index a source is Class I. */
  const ClassIThreshold: real := 0.3
  /** Above this index (and not Class I) a source has a flat spectrum. */
  const FlatThreshold: real := -0.3
  /** Above this index (and not flatter) a source is Class II; strictly
      below it, Class III. */
  const ClassIIThreshold: real := -1.6

  /** The text the script records for each label. */
  function Name(l: Label): (text: string)
  {
    match l
    case ClassI => "Class I"
    case FlatSpectrum => "Flat Spectrum"
    case ClassII => "Class II"
    case ClassIII => "Class III"
    case NotClassified => "NOT CLASSIFIED"
  }

  /** The threshold chain, test by test in the script's order. */
  function Classify(alpha: real): (l: Label)
    ensures InRange(l, alpha)
  {
    if alpha > ClassIThreshold then ClassI
    else if alpha > FlatThreshold then FlatSpectrum
    else if alpha > ClassIIThreshold then ClassII
    else if ClassIIThreshold > alpha then ClassIII
    else NotClassified
  }

  /** The interval of the real line each label stands for, stated
      independently of the chain's order. */
  predicate InRange(l: Label, alpha: real)
  {
    match l
    case ClassI => ClassIThreshold < alpha
    case FlatSpectrum => FlatThreshold < alpha <= ClassIThreshold
    case ClassII => ClassIIThreshold < alpha <= FlatThreshold
    case ClassIII => alpha < ClassIIThreshold
    case NotClassified => alpha == ClassIIThreshold
  }

  /** The chain gives a label exactly when alpha lies in that label's
      interval. */
  lemma ClassifyMatchesRanges(alpha: real, l: Label)
    ensures Classify(alpha) == l <==> InRange(l, alpha)
  {
  }

  /** The intervals partition the real line: every alpha lies in one of them
      and in no more than one. */
  lemma RangesPartition(alpha: real)
    ensures exists l :: InRange(l, alpha)
    ensures forall l1, l2 :: InRange(l1, alpha) && InRange(l2, alpha) ==> l1 == l2
  {
    assert InRange(Classify(alpha), alpha);
  }

  /** The exact values at the thresholds, just above them, and the
      fall-through at -1.6. */
  lemma BoundaryCases()
    ensures Classify(0.3) == FlatSpectrum && Classify(0.30000001) == ClassI
    ensures Classify(-0.3) == ClassII && Classify(-0.29999999) == FlatSpectrum
    ensures Classify(-1.6) == NotClassified
    ensures Classify(-1.59999999) == ClassII && Classify(-1.60000001) == ClassIII
  {
  }

  /** Position of a class in the evolutionary order
      Class I < Flat Spectrum < Class II < Class III. */
  function Stage(l: Label): (stage: nat)
    requires l != NotClassified
  {
    match l
    case ClassI => 0
    case FlatSpectrum => 1
    case ClassII => 2
    case ClassIII => 3
  }

  /** A larger index never gives a later stage. Away from -1.6 every value
      gets a class. */
  lemma ClassifyMonotone(alpha1: real, alpha2: real)
    requires alpha1 <= alpha2
    requires alpha1 != ClassIIThreshold && alpha2 != ClassIIThreshold
    ensures Classify(alpha1) != NotClassified && Classify(alpha2) != NotClassified
    ensures Stage(Classify(alpha2)) <= Stage(Classify(alpha1))
  {
  }

  /** The recorded texts tell the labels apart. */
  lemma NamesDistinct(l1: Label, l2: Label)
    ensures Name(l1) == Name(l2) <==> l1 == l2
  {
  }
}
