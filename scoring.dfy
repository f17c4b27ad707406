/**
 * make_prediction: the outage probability of the first row of a frame and
 * the label it gives against a threshold, with the fallbacks for a missing
 * model, a model without predict_proba and a decision function that raises;
 * and the per-row scoring loop of the two drivers.
 */
module Scoring {
  import opened Common
  import opened Values
  import opened Frames

  /** The decision threshold every caller passes. */
  const Threshold: real := 0.4753

  /** What `decision_function(df)` does. */
  datatype Decision = Raw(scores: seq<real>) | DecisionRaises

  /** What asking the classifier for `predict_proba(df)[:, 1]` does. */
  datatype Answer =
    | Proba(ps: seq<real>)          // one probability per row
    | ProbaRaises                   // predict_proba raised anything but AttributeError
    | NoProba(decision: Decision)   // AttributeError: no predict_proba

  /** The classifier, opaque: its answer on each frame. */
  datatype Classifier = NoModel | Model(answer: Frame -> Answer)

  /** The outcome of load_model. */
  datatype Loading = LoadRaises | Loaded(classifier: Classifier)

  datatype Prediction = Prediction(predicted: int, proba: seq<real>)

  /** `1 / (1 + exp(-x))`. */
  function Logistic(env: Env, x: real): real {
    1.0 / (1.0 + env.exp(-x))
  }

  lemma LogisticBounds(env: Env, x: real)
    ensures 0.0 < Logistic(env, x) < 1.0
  {
    var d := 1.0 + env.exp(-x);
    assert d > 1.0;
    assert Logistic(env, x) * d == 1.0;
  }

  /** `int(p >= threshold)`. */
  function Label(p: real, threshold: real): int {
    if p >= threshold then 1 else 0
  }

  /** The probability column the classifier's answer gives, or None when scoring raised. */
  function Probabilities(env: Env, a: Answer, height: nat): Option<seq<real>> {
    match a
    case Proba(ps) => Some(ps)
    case ProbaRaises => None
    case NoProba(Raw(xs)) => Some(seq(|xs|, i requires 0 <= i < |xs| => Logistic(env, xs[i])))
    case NoProba(DecisionRaises) => Some(seq(height, _ => 0.0))
  }

  /**
   * make_prediction(df, threshold). Loading errors, errors of predict_proba
   * and an empty probability column (proba[0] raises IndexError) are
   * Err(ScoringError).
   */
  function MakePrediction(env: Env, load: Loading, df: Frame, threshold: real): (r: Result<Prediction>)
  {
    match load
    case LoadRaises => Err(ScoringError)
    case Loaded(NoModel) => Ok(Prediction(Label(0.0, threshold), [0.0]))
    case Loaded(Model(answer)) =>
      match Probabilities(env, answer(df), df.height)
      case None => Err(ScoringError)
      case Some(ps) =>
        if |ps| == 0 then Err(ScoringError)
        else Ok(Prediction(Label(ps[0], threshold), ps))
  }

  /** The classifier's probabilities lie in [0, 1] on every frame. */
  ghost predicate Calibrated(c: Classifier) {
    c.Model? ==> forall df: Frame, i ::
      c.answer(df).Proba? && 0 <= i < |c.answer(df).ps| ==> 0.0 <= c.answer(df).ps[i] <= 1.0
  }

  /**
   * A prediction's label is 1 exactly when its first probability reaches
   * the threshold. Scoring fails exactly when loading fails, predict_proba
   * raises, or there is no first probability. Without a model the answer
   * is probability 0.0 and label 0; the decision-function fallback gives the
   * logistic of the first score, strictly between 0 and 1; a decision
   * function that raises gives probability 0.0 on every row.
   */
  lemma PredictionFacts(env: Env, load: Loading, df: Frame)
    ensures var r := MakePrediction(env, load, df, Threshold);
      && (r.Ok? ==>
            && |r.value.proba| > 0
            && (r.value.predicted == 1 <==> r.value.proba[0] >= Threshold)
            && (r.value.predicted == 0 <==> r.value.proba[0] < Threshold))
      && (r.Err? <==>
            || load.LoadRaises?
            || (load.classifier.Model? && match load.classifier.answer(df)
                  case ProbaRaises => true
                  case Proba(ps) => |ps| == 0
                  case NoProba(Raw(xs)) => |xs| == 0
                  case NoProba(DecisionRaises) => df.height == 0))
      && (load == Loaded(NoModel) ==> r == Ok(Prediction(0, [0.0])))
      && (r.Ok? && load.classifier.Model? && load.classifier.answer(df).NoProba? ==>
            0.0 <= r.value.proba[0] < 1.0 && r.value.predicted == Label(r.value.proba[0], Threshold))
      && (r.Ok? && load.classifier.Model? && load.classifier.answer(df) == NoProba(DecisionRaises) ==>
            r.value.proba == seq(df.height, _ => 0.0) && r.value.predicted == 0)
      && (r.Ok? && load.classifier.Model? && load.classifier.answer(df).NoProba?
          && load.classifier.answer(df).decision.Raw? ==>
            r.value.proba[0] == Logistic(env, load.classifier.answer(df).decision.scores[0]))
      && (r.Ok? && Calibrated(load.classifier) ==> 0.0 <= r.value.proba[0] <= 1.0)
  {
    if load.Loaded? && load.classifier.Model? {
      var a := load.classifier.answer(df);
      if a.NoProba? && a.decision.Raw? && |a.decision.scores| > 0 {
        LogisticBounds(env, a.decision.scores[0]);
      }
    }
  }

  /** The outcome of scoring row i alone: `make_prediction(df.iloc[[i]], 0.4753)`. */
  function RowScore(env: Env, load: Loading, f: Frame, i: nat): Result<Prediction>
    requires Valid(f) && i < f.height
  {
    MakePrediction(env, load, Row(f, i), Threshold)
  }

  /** The label the loop records for an outcome, None for a row whose scoring raised. */
  function LabelOf(r: Result<Prediction>): Option<int> {
    if r.Ok? then Some(r.value.predicted) else None
  }

  /** The probability the loop records: the first entry of the column, or None. */
  function ProbaOf(r: Result<Prediction>): Option<real> {
    if r.Ok? && |r.value.proba| > 0 then Some(r.value.proba[0]) else None
  }

  /** The labels the loop records, row by row. */
  function Labels(env: Env, load: Loading, f: Frame): (r: seq<Option<int>>)
    requires Valid(f)
    ensures |r| == f.height && forall i :: 0 <= i < f.height ==> r[i] == LabelOf(RowScore(env, load, f, i))
  {
    seq(f.height, i requires 0 <= i < f.height => LabelOf(RowScore(env, load, f, i)))
  }

  /** The probabilities the loop records, row by row. */
  function Probas(env: Env, load: Loading, f: Frame): (r: seq<Option<real>>)
    requires Valid(f)
    ensures |r| == f.height && forall i :: 0 <= i < f.height ==> r[i] == ProbaOf(RowScore(env, load, f, i))
  {
    seq(f.height, i requires 0 <= i < f.height => ProbaOf(RowScore(env, load, f, i)))
  }

  /**
   * The scoring loop: one label and one probability per row, both None for a
   * row whose scoring raised, a label of 1 exactly for a probability at or
   * above the threshold; a failing row does not stop the loop.
   */
  method ScoreRows(env: Env, load: Loading, f: Frame) returns (predictions: seq<Option<int>>, probabilities: seq<Option<real>>)
    requires Valid(f)
    ensures predictions == Labels(env, load, f) && probabilities == Probas(env, load, f)
    ensures forall i :: 0 <= i < f.height ==>
      && (predictions[i].Some? <==> probabilities[i].Some?)
      && (predictions[i] == Some(1) <==> probabilities[i].Some? && probabilities[i].value >= Threshold)
      && (predictions[i] == Some(0) <==> probabilities[i].Some? && probabilities[i].value < Threshold)
  {
    predictions, probabilities := [], [];
    var idx := 0;
    while idx < f.height
      invariant 0 <= idx <= f.height
      invariant |predictions| == idx && |probabilities| == idx
      invariant forall i :: 0 <= i < idx ==>
        predictions[i] == LabelOf(RowScore(env, load, f, i)) && probabilities[i] == ProbaOf(RowScore(env, load, f, i))
    {
      var row := Row(f, idx);
      var outcome := MakePrediction(env, load, row, Threshold);
      match outcome {
        case Ok(p) =>
          predictions := predictions + [Some(p.predicted)];
          probabilities := probabilities + [Some(p.proba[0])];
        case Err(_) =>
          predictions := predictions + [None];
          probabilities := probabilities + [None];
      }
      idx := idx + 1;
    }
    forall i | 0 <= i < f.height
      ensures && (predictions[i].Some? <==> probabilities[i].Some?)
              && (predictions[i] == Some(1) <==> probabilities[i].Some? && probabilities[i].value >= Threshold)
              && (predictions[i] == Some(0) <==> probabilities[i].Some? && probabilities[i].value < Threshold)
    {
      PredictionFacts(env, load, Row(f, i));
    }
  }

  /** Whether every row was scored: `None not in predictions`. */
  predicate AllScored(predictions: seq<Option<int>>) {
    forall i :: 0 <= i < |predictions| ==> predictions[i].Some?
  }

  /** `sum(predictions)` over rows that were all scored. */
  function OutageCount(predictions: seq<Option<int>>): int
    requires AllScored(predictions)
  {
    if predictions == [] then 0
    else OutageCount(predictions[..|predictions| - 1]) + predictions[|predictions| - 1].value
  }

  /** The number of probabilities at or above the threshold. */
  function Reaching(probabilities: seq<Option<real>>): nat {
    if probabilities == [] then 0
    else
      var last := probabilities[|probabilities| - 1];
      Reaching(probabilities[..|probabilities| - 1]) + if last.Some? && last.value >= Threshold then 1 else 0
  }

  /**
   * With labels that are 0 or 1 and probabilities that agree with them, the
   * outage count is the number of rows whose probability reaches the
   * threshold, between 0 and the number of rows.
   */
  lemma {:induction false} OutageCountReaching(predictions: seq<Option<int>>, probabilities: seq<Option<real>>)
    requires AllScored(predictions) && |probabilities| == |predictions|
    requires forall i :: 0 <= i < |predictions| ==>
      && (predictions[i].Some? <==> probabilities[i].Some?)
      && (predictions[i] == Some(1) <==> probabilities[i].Some? && probabilities[i].value >= Threshold)
      && (predictions[i] == Some(0) <==> probabilities[i].Some? && probabilities[i].value < Threshold)
    ensures OutageCount(predictions) == Reaching(probabilities)
    ensures 0 <= OutageCount(predictions) <= |predictions|
  {
    if predictions != [] {
      var n := |predictions| - 1;
      OutageCountReaching(predictions[..n], probabilities[..n]);
    }
  }
}
