/** The decision rule and safety check of src/meta_controller/causal_engine.py. The
    DML estimator is outside the model: its average treatment effect is an input, `None`
    standing for both a `None` result and an exception during fitting. */
module CausalEngine {
  import opened Base
  import opened Text

  const EngineVersion := "2.1.0-adapted"
  const InvalidGoalMessage := "Invalid goal. Must include 'target_metric' and 'intervention'."
  const SafeBounds := "Effect is within safe bounds."
  const UnsafeBounds := "Effect is outside safe bounds."

  datatype Action = ApplyIntervention | DoNotApply

  function ActionName(a: Action): string
  {
    match a
    case ApplyIntervention => "APPLY_INTERVENTION"
    case DoNotApply => "DO_NOT_APPLY"
  }

  /** The decision dictionary; `formallyVerified` is absent until `analyze_and_decide` adds it. */
  datatype Decision = Decision(
    decisionId: string,
    action: Action,
    intervention: string,
    targetMetric: string,
    expectedEffect: real,
    confidence: real,
    engineVersion: string,
    formallyVerified: Option<bool>)

  /** The goal fields the engine reads; an absent `confounders` reads as the empty list. */
  datatype Goal = Goal(targetMetric: Option<string>, intervention: Option<string>, confounders: seq<string>)

  datatype Analysis = InvalidGoal(error: string) | Decided(decision: Decision)

  datatype Verification = Verification(verified: bool, reason: string)

  // ---------------------------------------------------------------------------

  /** The columns the estimator needs: treatment, outcome and every confounder. */
  function RequiredColumns(treatment: string, outcome: string, confounders: seq<string>): set<string>
  {
    {treatment, outcome} + set c | c in confounders
  }

  /** `doubly_robust_estimation` over the data's column names: 0.0 when a required column
      is missing or the estimator gives no number. */
  function DoublyRobustEstimation(columns: set<string>, treatment: string, outcome: string,
                                  confounders: seq<string>, ate: Option<real>): real
  {
    if !(RequiredColumns(treatment, outcome, confounders) <= columns) then 0.0
    else ate.GetOr(0.0)
  }

  /** `formal_verification`: the solver finds the constraints `effect == e`, `effect > -1.0`
      and `effect < 1.0` satisfiable exactly when `e` lies in the open interval; a decision
      without an expected effect is checked as 0.0. */
  function FormalVerification(expectedEffect: Option<real>): Verification
  {
    var e := expectedEffect.GetOr(0.0);
    if -1.0 < e < 1.0 then Verification(true, SafeBounds) else Verification(false, UnsafeBounds)
  }

  /** The decision table of `_generate_decision`. */
  predicate Recommends(targetMetric: string, effect: real)
  {
    (Contains(targetMetric, "reduce") && effect < 0.0) || (Contains(targetMetric, "increase") && effect > 0.0)
  }

  function GenerateDecision(intervention: string, targetMetric: string, effect: real, stamp: string): Decision
  {
    var action := if Recommends(targetMetric, effect) then ApplyIntervention else DoNotApply;
    var confidence := if action == ApplyIntervention then 0.90 else 0.85;
    Decision("dec_" + stamp, action, intervention, targetMetric, effect, confidence, EngineVersion, None)
  }

  /** `analyze_and_decide`: a goal without a (non-empty) target metric or intervention is
      rejected; otherwise estimate, decide, and attach the verification verdict. */
  function AnalyzeAndDecide(columns: set<string>, goal: Goal, ate: Option<real>, stamp: string): Analysis
  {
    if !PresentText(goal.targetMetric) || !PresentText(goal.intervention) then InvalidGoal(InvalidGoalMessage)
    else
      var target := goal.targetMetric.value;
      var intervention := goal.intervention.value;
      var effect := DoublyRobustEstimation(columns, intervention, target, goal.confounders, ate);
      var decision := GenerateDecision(intervention, target, effect, stamp);
      var verification := FormalVerification(Some(decision.expectedEffect));
      Decided(decision.(formallyVerified := Some(verification.verified)))
  }

  // ---------------------------------------------------------------------------

  /** The action is APPLY_INTERVENTION exactly when the metric name asks for a reduction and
      the effect is negative, or asks for an increase and the effect is positive; the
      confidence is 0.90 for APPLY_INTERVENTION and 0.85 otherwise, whatever the magnitude. */
  lemma DecisionRule(intervention: string, targetMetric: string, effect: real, stamp: string)
    ensures var d := GenerateDecision(intervention, targetMetric, effect, stamp);
      d.action == ApplyIntervention <==>
        (Contains(targetMetric, "reduce") && effect < 0.0) || (Contains(targetMetric, "increase") && effect > 0.0)
    ensures var d := GenerateDecision(intervention, targetMetric, effect, stamp);
      d.confidence == (if d.action == ApplyIntervention then 0.90 else 0.85)
    ensures var d := GenerateDecision(intervention, targetMetric, effect, stamp);
      d.intervention == intervention && d.targetMetric == targetMetric && d.expectedEffect == effect
      && d.engineVersion == EngineVersion && d.decisionId == "dec_" + stamp && d.formallyVerified.None?
  {
  }

  /** Two effects of the same sign give the same action and confidence: only the sign
      matters, never the magnitude. */
  lemma OnlySignMatters(intervention: string, targetMetric: string, e1: real, e2: real, stamp: string)
    requires (e1 < 0.0 <==> e2 < 0.0) && (e1 > 0.0 <==> e2 > 0.0)
    ensures GenerateDecision(intervention, targetMetric, e1, stamp).action
         == GenerateDecision(intervention, targetMetric, e2, stamp).action
    ensures GenerateDecision(intervention, targetMetric, e1, stamp).confidence
         == GenerateDecision(intervention, targetMetric, e2, stamp).confidence
  {
  }

  /** A zero effect is never acted on; neither is a metric whose name holds neither
      "reduce" nor "increase". A metric "reduce_..." with a negative effect is. */
  lemma NoActionWithoutDirection(intervention: string, targetMetric: string, effect: real, stamp: string)
    ensures effect == 0.0 ==> GenerateDecision(intervention, targetMetric, effect, stamp).action == DoNotApply
    ensures !Contains(targetMetric, "reduce") && !Contains(targetMetric, "increase") ==>
      GenerateDecision(intervention, targetMetric, effect, stamp).action == DoNotApply
    ensures effect < 0.0 ==>
      GenerateDecision(intervention, "reduce_" + targetMetric, effect, stamp).action == ApplyIntervention
  {
    ContainsPrefix("reduce_" + targetMetric, "reduce");
  }

  /** The safety check accepts exactly the open interval (-1.0, 1.0); the bounds themselves
      and 1.5 are rejected, 0.1 and a missing effect accepted. */
  lemma VerificationInterval(e: real)
    ensures FormalVerification(Some(e)).verified <==> -1.0 < e && e < 1.0
    ensures FormalVerification(Some(0.1)).verified && !FormalVerification(Some(1.5)).verified
    ensures !FormalVerification(Some(1.0)).verified && !FormalVerification(Some(-1.0)).verified
    ensures FormalVerification(None).verified
    ensures FormalVerification(Some(e)).reason == (if FormalVerification(Some(e)).verified then SafeBounds else UnsafeBounds)
  {
  }

  /** A goal lacking a target metric or an intervention gets the error and no decision; a
      goal with both always gets a decision. */
  lemma InvalidGoalIff(columns: set<string>, goal: Goal, ate: Option<real>, stamp: string)
    ensures AnalyzeAndDecide(columns, goal, ate, stamp).InvalidGoal? <==>
      !PresentText(goal.targetMetric) || !PresentText(goal.intervention)
    ensures AnalyzeAndDecide(columns, goal, ate, stamp).InvalidGoal? ==>
      AnalyzeAndDecide(columns, goal, ate, stamp).error == InvalidGoalMessage
  {
  }

  /** A decision echoes the goal's intervention and target metric, carries the estimate
      unchanged, and is marked verified exactly when that estimate is within the safe
      bounds, whatever the action. */
  lemma DecisionEchoesGoal(columns: set<string>, goal: Goal, ate: Option<real>, stamp: string)
    requires AnalyzeAndDecide(columns, goal, ate, stamp).Decided?
    ensures var d := AnalyzeAndDecide(columns, goal, ate, stamp).decision;
      d.intervention == goal.intervention.value && d.targetMetric == goal.targetMetric.value
      && d.expectedEffect == DoublyRobustEstimation(columns, goal.intervention.value, goal.targetMetric.value, goal.confounders, ate)
      && d.formallyVerified == Some(-1.0 < d.expectedEffect < 1.0)
  {
  }

  /** A treatment, outcome or confounder column missing from the data, or an estimator that
      gives nothing, yields the effect 0.0, hence DO_NOT_APPLY at confidence 0.85, verified,
      without an error. */
  lemma MissingDataFallsBack(columns: set<string>, goal: Goal, ate: Option<real>, stamp: string)
    requires PresentText(goal.targetMetric) && PresentText(goal.intervention)
    requires (exists c :: c in RequiredColumns(goal.intervention.value, goal.targetMetric.value, goal.confounders) && c !in columns)
             || ate.None?
    ensures AnalyzeAndDecide(columns, goal, ate, stamp).Decided?
    ensures var d := AnalyzeAndDecide(columns, goal, ate, stamp).decision;
      d.expectedEffect == 0.0 && d.action == DoNotApply && d.confidence == 0.85 && d.formallyVerified == Some(true)
  {
    var req := RequiredColumns(goal.intervention.value, goal.targetMetric.value, goal.confounders);
    if exists c :: c in req && c !in columns {
      assert !(req <= columns);
    }
  }
}
