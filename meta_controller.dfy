/** The decision loop of src/meta_controller/app.py: the objective cell, the
    observe-orient-decide-act cycle with its early exits, the decision counter, and the
    proposal sent to the code modifier. What the cycle observes (anomalies), the risk
    verdict and the causal decision are inputs; so are `str()` of a JSON value and the
    `:.4f` rendering of a number. */
module MetaController {
  import opened Base
  import opened Text
  import AdvancedMetrics
  import RiskAssessor

  const ObjectiveRequired := "A 'goal', 'target_metric', 'intervention', and 'affected_metrics' list are required."
  const ObjectiveAccepted := "Objective set and analysis triggered."
  const AbortedAnomaly := "ABORTED_ANOMALY"
  const AbortedRisk := "ABORTED_RISK"
  const ApplyIntervention := "APPLY_INTERVENTION"
  const UnknownAction := "UNKNOWN"
  const ProposalService := "orchestrator"
  const DescriptionHead := "Causal engine recommends applying intervention '"
  const DescriptionMetric := "' to affect '"
  const DescriptionEffect := "' with an expected effect of "

  /** What one cycle is given from outside: the anomalies observed, the overall risk
      level, and the causal decision's `action` (absent or not) and `expected_effect`. */
  datatype CycleInputs = CycleInputs(
    anomalies: seq<AdvancedMetrics.Anomaly>,
    riskLevel: RiskAssessor.RiskLevel,
    action: Option<string>,
    expectedEffect: real)

  /** How the description renders values: `str()` of a JSON value, and `:.4f`. */
  datatype Render = Render(show: Json -> string, fixed4: real -> string)

  datatype Proposal = Proposal(service: string, kind: Json, description: string)

  /** `nexus_decisions_total`, by (decision_type, outcome); the client library keys a
      series by the `str()` of each label value. */
  type Counters = map<(string, string), nat>

  datatype Response = Response(status: nat, message: string)

  /** A counter's value; a label pair never used reads 0. */
  function Count(c: Counters, key: (string, string)): nat
  {
    if key in c then c[key] else 0
  }

  /** `.labels(...).inc()`. */
  function Inc(c: Counters, key: (string, string)): (r: Counters)
    ensures Count(r, key) == Count(c, key) + 1
    ensures forall k :: k != key ==> Count(r, k) == Count(c, k)
  {
    c[key := Count(c, key) + 1]
  }

  predicate HasObjectiveKeys(data: map<string, Json>)
  {
    "goal" in data && "target_metric" in data && "intervention" in data && "affected_metrics" in data
  }

  function Description(objective: map<string, Json>, effect: real, render: Render): string
  {
    DescriptionHead + render.show(Field(objective, "intervention"))
      + DescriptionMetric + render.show(Field(objective, "target_metric"))
      + DescriptionEffect + render.fixed4(effect) + "."
  }

  datatype CycleResult = CycleResult(counters: Counters, proposal: Option<Proposal>)

  /** `analyze_and_act` as a function of the objective, the counters and the inputs. */
  function Cycle(objective: map<string, Json>, counters: Counters, inputs: CycleInputs, render: Render): CycleResult
  {
    if |objective| == 0 then CycleResult(counters, None)
    else
      var goal := render.show(Field(objective, "goal"));
      if inputs.anomalies != [] then CycleResult(Inc(counters, (goal, AbortedAnomaly)), None)
      else if inputs.riskLevel == RiskAssessor.High then CycleResult(Inc(counters, (goal, AbortedRisk)), None)
      else
        var action := inputs.action.GetOr(UnknownAction);
        var proposal :=
          if action == ApplyIntervention then
            Some(Proposal(ProposalService, Field(objective, "intervention"),
                          Description(objective, inputs.expectedEffect, render)))
          else None;
        CycleResult(Inc(counters, (goal, action)), proposal)
  }

  /** Whether `json.dumps` can render a risk assessment, as the cycle's log line asks before
      the risk gate. The verdict of a tested metric comes from comparing the NumPy p-values
      of `adfuller` and `kpss`, so it is a NumPy boolean, which the JSON encoder refuses;
      error entries are plain text. */
  predicate AssessmentLoggable(a: RiskAssessor.Assessment)
  {
    forall m :: m in a.metricStability ==> !a.metricStability[m].Tested?
  }

  /** `analyze_and_act` as written, given the assessment the risk assessor returned: when
      the log line cannot render that assessment, the cycle raises (`None`) before the risk
      gate, with no counter moved and nothing proposed. */
  function CycleAsWritten(objective: map<string, Json>, counters: Counters, inputs: CycleInputs,
                          assessment: RiskAssessor.Assessment, render: Render): Option<CycleResult>
  {
    var seen := inputs.(riskLevel := assessment.overallRiskLevel);
    if |objective| != 0 && inputs.anomalies == [] && !AssessmentLoggable(assessment) then None
    else Some(Cycle(objective, counters, seen, render))
  }

  /** The service's global state. */
  class MetaController {
    var currentObjective: map<string, Json>
    var decisionsTotal: Counters
    /** Every proposal handed to the code modifier, in order. */
    var proposals: seq<Proposal>

    constructor()
      ensures currentObjective == map[] && decisionsTotal == map[] && proposals == []
    {
      currentObjective := map[];
      decisionsTotal := map[];
      proposals := [];
    }

    /** `propose_modification`: the proposal is posted; a failure to reach the code modifier
        is caught and only logged, so the reply changes nothing here. */
    method ProposeModification(proposal: Proposal)
      modifies this
      ensures proposals == old(proposals) + [proposal]
      ensures currentObjective == old(currentObjective) && decisionsTotal == old(decisionsTotal)
    {
      proposals := proposals + [proposal];
    }

    /** `analyze_and_act`. */
    method AnalyzeAndAct(inputs: CycleInputs, render: Render)
      modifies this
      ensures var r := Cycle(old(currentObjective), old(decisionsTotal), inputs, render);
        decisionsTotal == r.counters
        && proposals == old(proposals) + (if r.proposal.Some? then [r.proposal.value] else [])
      ensures currentObjective == old(currentObjective)
    {
      if |currentObjective| == 0 {
        return;
      }
      var goal := render.show(Field(currentObjective, "goal"));
      if inputs.anomalies != [] {
        decisionsTotal := Inc(decisionsTotal, (goal, AbortedAnomaly));
        return;
      }
      if inputs.riskLevel == RiskAssessor.High {
        decisionsTotal := Inc(decisionsTotal, (goal, AbortedRisk));
        return;
      }
      var action := inputs.action.GetOr(UnknownAction);
      decisionsTotal := Inc(decisionsTotal, (goal, action));
      if action == ApplyIntervention {
        var proposal := Proposal(ProposalService, Field(currentObjective, "intervention"),
                                 Description(currentObjective, inputs.expectedEffect, render));
        ProposeModification(proposal);
      }
    }

    /** `set_objective`: 400 and no change unless the four keys are present; otherwise the
        objective is replaced by the request body and one cycle runs on it. */
    method SetObjective(data: map<string, Json>, inputs: CycleInputs, render: Render) returns (r: Response)
      modifies this
      ensures r.status == 400 <==> !HasObjectiveKeys(data)
      ensures r.status == 400 ==>
        r.message == ObjectiveRequired && currentObjective == old(currentObjective)
        && decisionsTotal == old(decisionsTotal) && proposals == old(proposals)
      ensures r.status != 400 ==>
        var c := Cycle(data, old(decisionsTotal), inputs, render);
        r == Response(200, ObjectiveAccepted) && currentObjective == data
        && decisionsTotal == c.counters
        && proposals == old(proposals) + (if c.proposal.Some? then [c.proposal.value] else [])
    {
      if !HasObjectiveKeys(data) {
        return Response(400, ObjectiveRequired);
      }
      currentObjective := data;
      AnalyzeAndAct(inputs, render);
      return Response(200, ObjectiveAccepted);
    }
  }

  // ---------------------------------------------------------------------------

  /** With no objective the cycle stands by: no counter moves and nothing is proposed. */
  lemma EmptyObjectiveStandsBy(counters: Counters, inputs: CycleInputs, render: Render)
    ensures Cycle(map[], counters, inputs, render) == CycleResult(counters, None)
  {
  }

  /** With an objective, exactly one counter goes up by one, labelled with the goal, and
      every other counter stays. */
  lemma OneIncrementPerCycle(objective: map<string, Json>, counters: Counters, inputs: CycleInputs, render: Render)
    requires |objective| != 0
    ensures var r := Cycle(objective, counters, inputs, render);
      var goal := render.show(Field(objective, "goal"));
      exists outcome :: Count(r.counters, (goal, outcome)) == Count(counters, (goal, outcome)) + 1
        && forall k :: k != (goal, outcome) ==> Count(r.counters, k) == Count(counters, k)
  {
    var goal := render.show(Field(objective, "goal"));
    var outcome :=
      if inputs.anomalies != [] then AbortedAnomaly
      else if inputs.riskLevel == RiskAssessor.High then AbortedRisk
      else inputs.action.GetOr(UnknownAction);
    assert Cycle(objective, counters, inputs, render).counters == Inc(counters, (goal, outcome));
  }

  /** Anomalies abort before the risk check, and HIGH risk aborts before the decision; each
      abort is counted under its own outcome and proposes nothing. */
  lemma AbortsInOrder(objective: map<string, Json>, counters: Counters, inputs: CycleInputs, render: Render)
    requires |objective| != 0
    ensures inputs.anomalies != [] ==>
      Cycle(objective, counters, inputs, render) == CycleResult(Inc(counters, (render.show(Field(objective, "goal")), AbortedAnomaly)), None)
    ensures inputs.anomalies == [] && inputs.riskLevel == RiskAssessor.High ==>
      Cycle(objective, counters, inputs, render) == CycleResult(Inc(counters, (render.show(Field(objective, "goal")), AbortedRisk)), None)
  {
  }

  /** A proposal goes out exactly when there is an objective, no anomaly, no HIGH risk, and
      the decision says APPLY_INTERVENTION; it targets the orchestrator with the objective's
      intervention as its type, and its description names the intervention, the target
      metric and the effect. */
  lemma ProposalIff(objective: map<string, Json>, counters: Counters, inputs: CycleInputs, render: Render)
    ensures Cycle(objective, counters, inputs, render).proposal.Some? <==>
      |objective| != 0 && inputs.anomalies == [] && inputs.riskLevel != RiskAssessor.High
      && inputs.action == Some(ApplyIntervention)
    ensures var p := Cycle(objective, counters, inputs, render).proposal;
      p.Some? ==>
        p.value.service == "orchestrator" && p.value.kind == Field(objective, "intervention")
        && Contains(p.value.description, render.show(Field(objective, "intervention")))
        && Contains(p.value.description, render.show(Field(objective, "target_metric")))
        && Contains(p.value.description, render.fixed4(inputs.expectedEffect))
  {
    var p := Cycle(objective, counters, inputs, render).proposal;
    if inputs.action.None? {
      assert UnknownAction != ApplyIntervention;
    }
    if p.Some? {
      var a := render.show(Field(objective, "intervention"));
      var t := render.show(Field(objective, "target_metric"));
      var e := render.fixed4(inputs.expectedEffect);
      var s1, s2, s3 := DescriptionHead, DescriptionMetric, DescriptionEffect;
      assert p.value.description == s1 + a + (s2 + t + s3 + e + ".");
      ContainsPrefix(a, a);
      ContainsWithin(s1, a, s2 + t + s3 + e + ".", a);
      assert p.value.description == s1 + a + s2 + t + (s3 + e + ".");
      ContainsPrefix(t, t);
      ContainsWithin(s1 + a + s2, t, s3 + e + ".", t);
      assert p.value.description == s1 + a + s2 + t + s3 + e + ".";
      ContainsPrefix(e, e);
      ContainsWithin(s1 + a + s2 + t + s3, e, ".", e);
    }
  }

  /** As written, an objective whose affected metrics name a column with 20 or more present
      values (the example objective's "latency" against the simulated frame) makes the
      cycle raise at the log line: nothing is counted, though the intended cycle counts one
      outcome. */
  lemma LoggingRaisesAsWritten(objective: map<string, Json>, counters: Counters, inputs: CycleInputs,
                               data: map<string, RiskAssessor.Column>, tests: seq<real> -> RiskAssessor.PValues,
                               metrics: seq<string>, i: nat, render: Render)
    requires |objective| != 0 && inputs.anomalies == []
    requires i < |metrics| && metrics[i] in data && |RiskAssessor.DropNa(data[metrics[i]])| >= RiskAssessor.MinPoints
    ensures var a := RiskAssessor.Assessment(RiskAssessor.Level(data, tests, metrics), RiskAssessor.Scores(data, tests, metrics));
      CycleAsWritten(objective, counters, inputs, a, render).None?
    ensures Cycle(objective, counters, inputs, render).counters != counters
  {
    var scores := RiskAssessor.Scores(data, tests, metrics);
    RiskAssessor.ScoresCoverRequested(data, tests, metrics);
    assert metrics[i] in scores;
    assert scores[metrics[i]].Tested?;
    OneIncrementPerCycle(objective, counters, inputs, render);
  }

  /** As written, a cycle that gets past the log line has seen a LOW verdict: a HIGH verdict
      needs a tested metric, which the log line cannot render, so ABORTED_RISK is never
      counted. */
  lemma RiskAbortUnreachableAsWritten(objective: map<string, Json>, counters: Counters, inputs: CycleInputs,
                                      data: map<string, RiskAssessor.Column>, tests: seq<real> -> RiskAssessor.PValues,
                                      metrics: seq<string>, render: Render)
    ensures var a := RiskAssessor.Assessment(RiskAssessor.Level(data, tests, metrics), RiskAssessor.Scores(data, tests, metrics));
      var r := CycleAsWritten(objective, counters, inputs, a, render);
      r.Some? ==> r.value == Cycle(objective, counters, inputs.(riskLevel := RiskAssessor.Low), render)
  {
    var level := RiskAssessor.Level(data, tests, metrics);
    var scores := RiskAssessor.Scores(data, tests, metrics);
    if level == RiskAssessor.High {
      RiskAssessor.HighIffSomeUnstable(data, tests, metrics);
      var i :| 0 <= i < |metrics| && RiskAssessor.Unstable(RiskAssessor.Assess(data, tests, metrics[i]));
      RiskAssessor.ScoresCoverRequested(data, tests, metrics);
      assert metrics[i] in scores && scores[metrics[i]].Tested?;
    }
  }
}
