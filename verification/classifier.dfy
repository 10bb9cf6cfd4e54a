/** Turning the classifier's score vector into a displayed prediction:
    pick the index of the highest score, first one on ties, and return the
    label at that index together with its score.

    `scores` is row 0 of the network's output. The network is fed a batch of
    one image, so its output has shape (1, N); a flat argmax over that array
    is the same index as an argmax over its single row. Scores are `real`,
    abstracting the network's 32-bit floats. */
module Classifier {
  import opened Wrappers
  import opened ClassLabels

  /** `i` is the lowest index holding the maximum of `s`. */
  predicate IsFirstMax(s: seq<real>, i: int) {
    && 0 <= i < |s|
    && (forall j :: 0 <= j < |s| ==> s[j] <= s[i])
    && (forall j :: 0 <= j < i ==> s[j] < s[i])
  }

  /** Argmax with first-occurrence tie-breaking: a left-to-right scan that
      replaces its candidate only on a strictly greater score. */
  function ArgMax(s: seq<real>): (i: nat)
    requires |s| > 0
    ensures IsFirstMax(s, i)
  {
    if |s| == 1 then 0
    else
      var k := ArgMax(s[..|s| - 1]);
      if s[|s| - 1] > s[k] then |s| - 1 else k
  }

  /** The first maximum is unique, so `ArgMax` is the only index with that
      property. */
  lemma ArgMaxIsTheFirstMax(s: seq<real>, i: int)
    requires |s| > 0
    ensures IsFirstMax(s, i) <==> i == ArgMax(s)
  {
  }

  /** What the page shows: a label and the score it came with. */
  datatype Prediction = Prediction(className: string, confidence: real)

  /** How the lookup can fail. NumPy raises on the argmax of an empty array;
      Python raises on a label index past the end of the table. */
  datatype PredictError = EmptyScores | LabelIndexOutOfRange(index: nat)

  /** The label and confidence for one score vector. A vector of the
      table's length always succeeds. */
  function Predict(scores: seq<real>): (r: Result<Prediction, PredictError>)
    ensures |scores| == 0 <==> r == Err(EmptyScores)
    ensures |scores| > 0 ==>
      (r == Err(LabelIndexOutOfRange(ArgMax(scores))) <==> ArgMax(scores) >= |ClassNames|)
    ensures 0 < |scores| <= |ClassNames| ==> r.Ok?
    ensures r.Ok? ==>
      && r.value.className in ClassNames
      && r.value.confidence in scores
      && forall j :: 0 <= j < |scores| ==> scores[j] <= r.value.confidence
  {
    if |scores| == 0 then Err(EmptyScores)
    else
      var i := ArgMax(scores);
      if i < |ClassNames| then Ok(Prediction(ClassNames[i], scores[i]))
      else Err(LabelIndexOutOfRange(i))
  }

  /** A prediction names table entry `i` with score `scores[i]` exactly when
      `i` is the first maximum of the scores. The "only if" direction rests
      on the labels being distinct. */
  lemma PredictNamesFirstMax(scores: seq<real>, i: nat)
    requires i < |scores| && i < |ClassNames|
    ensures Predict(scores) == Ok(Prediction(ClassNames[i], scores[i])) <==> IsFirstMax(scores, i)
  {
  }

  /** On a full score vector the prediction is the (fruit, ripeness) class
      at the first maximum. */
  lemma PredictFullVector(scores: seq<real>)
    requires |scores| == |ClassNames|
    ensures Predict(scores).Ok?
    ensures
      var (f, r) := ClassOf(ArgMax(scores));
      Predict(scores).value.className == LabelOf(f, r)
  {
  }

  /** When every score is a probability, so is the confidence. */
  lemma ConfidenceIsProbability(scores: seq<real>, p: Prediction)
    requires forall j :: 0 <= j < |scores| ==> 0.0 <= scores[j] <= 1.0
    requires Predict(scores) == Ok(p)
    ensures 0.0 <= p.confidence <= 1.0
  {
  }

  function Sum(s: seq<real>): real {
    if s == [] then 0.0 else s[0] + Sum(s[1..])
  }

  /** A sum of `|s|` terms each at most `m` is at most `|s| * m`. */
  lemma {:induction false} SumAtMost(s: seq<real>, m: real)
    requires forall j :: 0 <= j < |s| ==> s[j] <= m
    ensures Sum(s) <= |s| as real * m
  {
    if s != [] {
      SumAtMost(s[1..], m);
    }
  }

  /** Any upper bound `m` of scores summing to at least `1 - eps` is, times
      the number of scores, at least `1 - eps`. */
  lemma UpperBoundAtLeastUniform(s: seq<real>, m: real, eps: real)
    requires forall j :: 0 <= j < |s| ==> s[j] <= m
    requires Sum(s) >= 1.0 - eps
    ensures |s| as real * m >= 1.0 - eps
  {
    SumAtMost(s, m);
  }

  /** For scores summing to one up to a rounding error `eps` (a softmax
      output in floating point), the confidence is at least that of a
      uniform guess, (1 - eps) / |scores|. */
  lemma ConfidenceAtLeastUniform(scores: seq<real>, p: Prediction, eps: real)
    requires Sum(scores) >= 1.0 - eps
    requires Predict(scores) == Ok(p)
    ensures |scores| as real * p.confidence >= 1.0 - eps
  {
    UpperBoundAtLeastUniform(scores, p.confidence, eps);
  }
}
