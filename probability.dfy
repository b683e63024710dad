/**
 * The probability fallback chain of `get_probability` (app.py).
 *
 * A fitted classifier is probed three ways on one scaled input row; each probe
 * may raise.  The outputs of the three probes on that row are the fields of
 * `Classifier`, with `None` standing for "the call raised" (for instance a
 * support-vector model trained without probability estimates has no
 * `predict_proba`).  Indexing an empty matrix, row or array raises as well.
 */
module Probability {
  import opened Wrappers

  /** What a classifier returns, on one input row, from each of its three probes. */
  datatype Classifier = Classifier(
    probaMatrix: Option<seq<seq<real>>>,  // predict_proba(X): one row of class probabilities per input row
    decisionScores: Option<seq<real>>,    // decision_function(X): one margin per input row
    labels: Option<seq<int>>)             // predict(X): one hard label per input row

  /** The three rules. */
  datatype Rule = FromProbability | FromDecision | FromLabel

  /** The order in which the rules are tried: rule `a` is tried before rule `b`. */
  predicate TriedBefore(a: Rule, b: Rule)
  {
    match b
    case FromProbability => false
    case FromDecision => a == FromProbability
    case FromLabel => a != FromLabel
  }

  /** The constant probabilities of the label-only rule. */
  const PositiveProbability: real := 0.85
  const NegativeProbability: real := 0.15

  /**
   * What one rule yields when tried on its own; `None` when its probe raises or
   * the index it takes does not exist.  `logistic` stands for 1 / (1 + e^-x).
   */
  function Attempt(c: Classifier, logistic: real -> real, rule: Rule): Option<real>
  {
    match rule
    case FromProbability =>
      if c.probaMatrix.Some? && |c.probaMatrix.value| > 0 && |c.probaMatrix.value[0]| > 0
      then Some(c.probaMatrix.value[0][|c.probaMatrix.value[0]| - 1])
      else None
    case FromDecision =>
      if c.decisionScores.Some? && |c.decisionScores.value| > 0
      then Some(logistic(c.decisionScores.value[0]))
      else None
    case FromLabel =>
      if c.labels.Some? && |c.labels.value| > 0
      then Some(if c.labels.value[0] == 1 then PositiveProbability else NegativeProbability)
      else None
  }

  /**
   * get_probability: the first rule that succeeds wins.  `None` means the
   * last probe (`predict`), which is not guarded, raised to the caller.
   */
  function GetProbability(c: Classifier, logistic: real -> real): (p: Option<real>)
    ensures p.None? <==> forall rule :: Attempt(c, logistic, rule).None?
    ensures forall rule :: Attempt(c, logistic, rule).Some? &&
                           (forall earlier :: TriedBefore(earlier, rule) ==> Attempt(c, logistic, earlier).None?) ==>
                           p == Attempt(c, logistic, rule)
  {
    // each `try` block of the source: its probe, or fall through to the next
    var fromProbability := Attempt(c, logistic, FromProbability);
    if fromProbability.Some? then fromProbability
    else
      var fromDecision := Attempt(c, logistic, FromDecision);
      if fromDecision.Some? then fromDecision
      else Attempt(c, logistic, FromLabel)
  }

  /** Rule 1 wins whenever its first row is non-empty, whatever the other two probes would do. */
  lemma ProbabilityRuleWins(c: Classifier, logistic: real -> real,
                            otherScores: Option<seq<real>>, otherLabels: Option<seq<int>>)
    requires c.probaMatrix.Some? && |c.probaMatrix.value| > 0 && |c.probaMatrix.value[0]| > 0
    ensures GetProbability(c, logistic) == Some(c.probaMatrix.value[0][|c.probaMatrix.value[0]| - 1])
    ensures GetProbability(c.(decisionScores := otherScores, labels := otherLabels), logistic)
            == GetProbability(c, logistic)
  {
  }

  /** Rule 2 is used only when rule 1 fails, and then the label probe is not consulted. */
  lemma DecisionRuleIsSecond(c: Classifier, logistic: real -> real, otherLabels: Option<seq<int>>)
    requires Attempt(c, logistic, FromProbability).None?
    requires c.decisionScores.Some? && |c.decisionScores.value| > 0
    ensures GetProbability(c, logistic) == Some(logistic(c.decisionScores.value[0]))
    ensures GetProbability(c.(labels := otherLabels), logistic) == GetProbability(c, logistic)
  {
  }

  /** Rule 3 is used only when both others fail: exactly 0.85 for label 1, 0.15 for any other label. */
  lemma LabelRuleIsLast(c: Classifier, logistic: real -> real)
    requires Attempt(c, logistic, FromProbability).None? && Attempt(c, logistic, FromDecision).None?
    ensures c.labels.Some? && |c.labels.value| > 0 && c.labels.value[0] == 1 ==>
              GetProbability(c, logistic) == Some(0.85)
    ensures c.labels.Some? && |c.labels.value| > 0 && c.labels.value[0] != 1 ==>
              GetProbability(c, logistic) == Some(0.15)
    ensures c.labels.None? || |c.labels.value| == 0 ==> GetProbability(c, logistic).None?
  {
  }

  /** Whenever the entries the rules read are probabilities and the logistic maps into [0, 1], so does the result. */
  lemma ProbabilityInUnitInterval(c: Classifier, logistic: real -> real)
    requires forall x :: 0.0 <= logistic(x) <= 1.0
    requires c.probaMatrix.Some? && |c.probaMatrix.value| > 0 ==>
               forall k :: 0 <= k < |c.probaMatrix.value[0]| ==> 0.0 <= c.probaMatrix.value[0][k] <= 1.0
    ensures GetProbability(c, logistic).Some? ==>
              0.0 <= GetProbability(c, logistic).value <= 1.0
  {
    if Attempt(c, logistic, FromProbability).Some? {
      var row := c.probaMatrix.value[0];
      assert 0.0 <= row[|row| - 1] <= 1.0;
    } else if Attempt(c, logistic, FromDecision).Some? {
      var score := c.decisionScores.value[0];
      assert 0.0 <= logistic(score) <= 1.0;
    }
  }
}
