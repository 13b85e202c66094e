/**
 * The classifier's result presentation in kidney_app.py: the index of the
 * highest score, as numpy's argmax chooses it, looked up in the fixed list of
 * four diagnostic labels. Scores are real numbers; the forward pass that
 * produces them is not modelled.
 */
module Classifier {

  /** The label list, in the order of the model's output units. */
  const Labels: seq<string> := ["Cyst", "Normal", "Stone", "Tumor"]

  /** `i` holds a maximum score, and every score before it is strictly smaller. */
  ghost predicate IsFirstMax(scores: seq<real>, i: int)
  {
    0 <= i < |scores| &&
    (forall j :: 0 <= j < |scores| ==> scores[j] <= scores[i]) &&
    (forall j :: 0 <= j < i ==> scores[j] < scores[i])
  }

  /** The index of the first maximum of a non-empty score vector (np.argmax). */
  function ArgMax(scores: seq<real>): (k: nat)
    requires |scores| > 0
    ensures k < |scores|
    ensures forall j :: 0 <= j < |scores| ==> scores[j] <= scores[k]
    ensures forall j :: 0 <= j < k ==> scores[j] < scores[k]
    decreases |scores|
  {
    if |scores| == 1 then 0
    else
      var k := ArgMax(scores[..|scores| - 1]);
      if scores[k] < scores[|scores| - 1] then |scores| - 1 else k
  }

  /** The three properties of ArgMax single out one index. */
  lemma ArgMaxUnique(scores: seq<real>, i: int)
    requires IsFirstMax(scores, i)
    ensures i == ArgMax(scores)
  {
  }

  /** The label shown as the predicted class for a four-score prediction. */
  function Predict(scores: seq<real>): (predicted: string)
    requires |scores| == |Labels|
    ensures predicted in Labels
    ensures exists i :: 0 <= i < |Labels| && Labels[i] == predicted && IsFirstMax(scores, i)
  {
    var k := ArgMax(scores);
    assert IsFirstMax(scores, k);
    Labels[k]
  }

  /** The prediction is label `i` exactly when `i` is the first maximum. */
  lemma PredictIsLabelOfFirstMax(scores: seq<real>, i: nat)
    requires |scores| == |Labels| && i < |Labels|
    ensures Predict(scores) == Labels[i] <==> IsFirstMax(scores, i)
  {
    var j :| 0 <= j < |Labels| && Labels[j] == Predict(scores) && IsFirstMax(scores, j);
    ArgMaxUnique(scores, j);
    if IsFirstMax(scores, i) {
      ArgMaxUnique(scores, i);
    }
  }

  /** Equal scores everywhere: the lowest index wins, so the label is "Cyst". */
  lemma UniformScoresPredictCyst()
    ensures Predict([0.25, 0.25, 0.25, 0.25]) == "Cyst"
  {
    PredictIsLabelOfFirstMax([0.25, 0.25, 0.25, 0.25], 0);
  }

  /** "Stone" is predicted exactly when its score beats the two before it and ties no later one above it. */
  lemma StonePrediction(scores: seq<real>)
    requires |scores| == |Labels|
    ensures Predict(scores) == "Stone" <==>
      scores[0] < scores[2] && scores[1] < scores[2] && scores[3] <= scores[2]
  {
    PredictIsLabelOfFirstMax(scores, 2);
  }
}
