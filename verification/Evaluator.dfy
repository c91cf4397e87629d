/** The deterministic task-success evaluator (src/blackwell_lab/workload/evaluator.py). */
module Evaluator {
  import opened Common
  import opened JsonValues
  import Agent = AgentLoop

  datatype Constraint =
    | LogLineContains(text: string)
    | ChangeIdEquals(changeId: string)
    | RunbookHasRemediation(remediationId: string)
    | MetricAvailable(metric: string)
    | HealthComponentStatus(component: string, status: string)

  datatype Alternative = Alternative(tool: string, argumentContains: seq<(string, string)>, result: Constraint)

  datatype EvidencePredicate = EvidencePredicate(id: string, description: string, alternatives: seq<Alternative>)

  datatype Scenario = Scenario(
    acceptedDiagnoses: seq<string>, acceptedRemediations: seq<string>, predicates: seq<EvidencePredicate>)

  datatype Trace = Trace(tool: string, arguments: map<string, Json>, result: map<string, Json>)

  datatype Execution = Execution(
    status: Agent.Status, category: Option<Agent.Category>, diagnosisId: Option<string>, remediationId: Option<string>,
    trace: seq<Trace>, turns: seq<Agent.TurnRecord>, e2e: real)

  datatype Gate = Gate(id: string, passed: bool)

  datatype Evaluation = Evaluation(
    success: bool, score: real, gates: seq<Gate>, diagnosisComponent: real, remediationComponent: real,
    evidenceComponent: real)

  // str.casefold is a parameter; only its being a function matters.
  type Fold = string -> string

  predicate OccursAt(needle: string, text: string, i: nat) {
    i + |needle| <= |text| && text[i..i + |needle|] == needle
  }

  predicate ContainsText(needle: string, text: string) {
    exists i :: 0 <= i <= |text| - |needle| && OccursAt(needle, text, i)
  }

  // A positive integer; true is an integer of value one.
  predicate PositiveCount(j: Json) {
    (j.Int? && j.n > 0) || j == Bool(true)
  }

  predicate LineMatches(fold: Fold, line: Json, text: string) {
    line.Obj? && Get(line.fields, "message").Str? && ContainsText(fold(text), fold(Get(line.fields, "message").s))
  }

  predicate ConstraintSatisfied(fold: Fold, c: Constraint, payload: map<string, Json>) {
    match c
    case LogLineContains(text) =>
      PositiveCount(Get(payload, "total_matches"))
      && exists line :: line in Members(Get(payload, "lines")) && LineMatches(fold, line, text)
    case ChangeIdEquals(changeId) =>
      exists change :: change in Members(Get(payload, "changes"))
                       && change.Obj? && Get(change.fields, "change_id") == Str(changeId)
    case RunbookHasRemediation(remediationId) =>
      && Get(payload, "found") == Bool(true)
      && Get(payload, "runbook").Obj?
      && (var ids := Get(Get(payload, "runbook").fields, "remediation_ids");
          ids.Arr? && Str(remediationId) in ids.items)
    case MetricAvailable(metric) =>
      && Get(payload, "found") == Bool(true)
      && Get(payload, "metric") == Str(metric)
      && Get(payload, "points").Arr? && Get(payload, "points").items != []
    case HealthComponentStatus(component, status) =>
      && Get(payload, "services").Obj?
      && exists service :: service in Get(payload, "services").fields
                           && ComponentHas(Get(payload, "services").fields[service], component, status)
  }

  predicate ComponentHas(components: Json, component: string, status: string) {
    components.Obj? && Get(components.fields, component) == Str(status)
  }

  predicate ArgumentMatches(fold: Fold, pair: (string, string), arguments: map<string, Json>) {
    Get(arguments, pair.0).Str? && ContainsText(fold(pair.1), fold(Get(arguments, pair.0).s))
  }

  predicate AlternativeMatches(fold: Fold, a: Alternative, t: Trace) {
    && t.tool == a.tool
    && (forall pair :: pair in a.argumentContains ==> ArgumentMatches(fold, pair, t.arguments))
    && ConstraintSatisfied(fold, a.result, t.result)
  }

  predicate PredicateSatisfied(fold: Fold, p: EvidencePredicate, trace: seq<Trace>) {
    exists a, t :: a in p.alternatives && t in trace && AlternativeMatches(fold, a, t)
  }

  predicate Completed(e: Execution) {
    e.status == Agent.Completed
  }

  predicate Listed(id: Option<string>, accepted: seq<string>) {
    id.Some? && id.value in accepted
  }

  // What success means.
  predicate Succeeds(fold: Fold, s: Scenario, e: Execution) {
    && Completed(e)
    && Listed(e.diagnosisId, s.acceptedDiagnoses)
    && Listed(e.remediationId, s.acceptedRemediations)
    && forall i :: 0 <= i < |s.predicates| ==> PredicateSatisfied(fold, s.predicates[i], e.trace)
  }

  predicate AllPassed(gates: seq<Gate>) {
    forall i :: 0 <= i < |gates| ==> gates[i].passed
  }

  function SatisfiedCount(fold: Fold, predicates: seq<EvidencePredicate>, trace: seq<Trace>): (n: nat)
    ensures n <= |predicates|
  {
    if predicates == [] then 0
    else
      var n := |predicates| - 1;
      SatisfiedCount(fold, predicates[..n], trace) + (if PredicateSatisfied(fold, predicates[n], trace) then 1 else 0)
  }

  lemma {:induction false} AllSatisfiedExactly(fold: Fold, predicates: seq<EvidencePredicate>, trace: seq<Trace>)
    ensures SatisfiedCount(fold, predicates, trace) == |predicates| <==>
            forall i :: 0 <= i < |predicates| ==> PredicateSatisfied(fold, predicates[i], trace)
  {
    hide PredicateSatisfied;
    if predicates != [] {
      var n := |predicates| - 1;
      AllSatisfiedExactly(fold, predicates[..n], trace);
      assert forall i :: 0 <= i < n ==> predicates[..n][i] == predicates[i];
    }
  }

  function EvidenceGates(fold: Fold, predicates: seq<EvidencePredicate>, trace: seq<Trace>): (r: seq<Gate>)
    ensures |r| == |predicates|
  {
    seq(|predicates|, i requires 0 <= i < |predicates| =>
      Gate("evidence:" + predicates[i].id, PredicateSatisfied(fold, predicates[i], trace)))
  }

  lemma EvidenceGatesStart(fold: Fold, trace: seq<Trace>)
    ensures EvidenceGates(fold, [], trace) == []
  {
  }

  lemma EvidenceGatesStep(fold: Fold, predicates: seq<EvidencePredicate>, trace: seq<Trace>, i: nat)
    requires i < |predicates|
    ensures EvidenceGates(fold, predicates[..i + 1], trace) ==
            EvidenceGates(fold, predicates[..i], trace)
            + [Gate("evidence:" + predicates[i].id, PredicateSatisfied(fold, predicates[i], trace))]
  {
    hide PredicateSatisfied;
  }

  function GatesOf(fold: Fold, s: Scenario, e: Execution): seq<Gate> {
    [Gate("task_completed", Completed(e)),
     Gate("diagnosis", Completed(e) && Listed(e.diagnosisId, s.acceptedDiagnoses)),
     Gate("remediation", Completed(e) && Listed(e.remediationId, s.acceptedRemediations))]
    + EvidenceGates(fold, s.predicates, e.trace)
  }

  // All gates pass exactly when the attempt succeeds.
  lemma GatesDecideSuccess(fold: Fold, s: Scenario, e: Execution)
    ensures AllPassed(GatesOf(fold, s, e)) <==> Succeeds(fold, s, e)
  {
    hide PredicateSatisfied;
    var gates := GatesOf(fold, s, e);
    if AllPassed(gates) {
      assert gates[0].passed && gates[1].passed && gates[2].passed;
      forall i | 0 <= i < |s.predicates| ensures PredicateSatisfied(fold, s.predicates[i], e.trace) {
        assert gates[3 + i].passed;
      }
    }
  }

  // One gate for completion, one for each id, one for each predicate in order;
  // success is all of them, the score is binary, and a success has every
  // diagnostic component at one.
  method Evaluate(fold: Fold, s: Scenario, e: Execution) returns (r: Evaluation)
    ensures r.gates == GatesOf(fold, s, e)
    ensures r.success <==> Succeeds(fold, s, e)
    ensures r.score == if r.success then 1.0 else 0.0
    ensures r.diagnosisComponent == (if r.gates[1].passed then 1.0 else 0.0)
    ensures r.remediationComponent == (if r.gates[2].passed then 1.0 else 0.0)
    ensures r.evidenceComponent == EvidenceFraction(SatisfiedCount(fold, s.predicates, e.trace), |s.predicates|)
    ensures r.success ==> r.diagnosisComponent == r.remediationComponent == r.evidenceComponent == 1.0
  {
    hide PredicateSatisfied, EvidenceGates;
    EvidenceGatesStart(fold, e.trace);
    var gates := [Gate("task_completed", Completed(e))];
    var diagnosisOk := Completed(e) && Listed(e.diagnosisId, s.acceptedDiagnoses);
    gates := gates + [Gate("diagnosis", diagnosisOk)];
    var remediationOk := Completed(e) && Listed(e.remediationId, s.acceptedRemediations);
    gates := gates + [Gate("remediation", remediationOk)];
    ghost var first := gates;
    var satisfied, i := 0, 0;
    while i < |s.predicates|
      invariant 0 <= i <= |s.predicates|
      invariant satisfied == SatisfiedCount(fold, s.predicates[..i], e.trace)
      invariant gates == first + EvidenceGates(fold, s.predicates[..i], e.trace)
    {
      assert s.predicates[..i + 1][..i] == s.predicates[..i];
      EvidenceGatesStep(fold, s.predicates, e.trace, i);
      var passed := PredicateSatisfied(fold, s.predicates[i], e.trace);
      satisfied := satisfied + if passed then 1 else 0;
      gates := gates + [Gate("evidence:" + s.predicates[i].id, passed)];
      i := i + 1;
    }
    assert s.predicates[..i] == s.predicates;
    var success := forall k :: 0 <= k < |gates| ==> gates[k].passed;
    GatesDecideSuccess(fold, s, e);
    assert success <==> AllPassed(gates);
    AllSatisfiedExactly(fold, s.predicates, e.trace);
    r := Evaluation(success, if success then 1.0 else 0.0, gates, if diagnosisOk then 1.0 else 0.0,
                    if remediationOk then 1.0 else 0.0, EvidenceFraction(satisfied, |s.predicates|));
  }

  function EvidenceFraction(satisfied: nat, count: nat): (f: real)
    requires satisfied <= count
    ensures 0.0 <= f <= 1.0
    ensures satisfied == count ==> f == 1.0
  {
    if count > 0 then satisfied as real / count as real else 1.0
  }

  // ---- what evidence depends on -------------------------------------------

  // The response fields a constraint looks at.
  function FieldsRead(c: Constraint): set<string> {
    match c
    case LogLineContains(_) => {"total_matches", "lines"}
    case ChangeIdEquals(_) => {"changes"}
    case RunbookHasRemediation(_) => {"found", "runbook"}
    case MetricAvailable(_) => {"found", "metric", "points"}
    case HealthComponentStatus(_, _) => {"services"}
  }

  // Echoed requests, "available" listings and any other field never count.
  lemma OnlyReturnedFieldsCount(fold: Fold, c: Constraint, p: map<string, Json>, q: map<string, Json>)
    requires forall f :: f in FieldsRead(c) ==> Get(p, f) == Get(q, f)
    ensures ConstraintSatisfied(fold, c, p) <==> ConstraintSatisfied(fold, c, q)
  {
    hide LineMatches, ComponentHas;
    match c
    case LogLineContains(_) =>
      assert Get(p, "total_matches") == Get(q, "total_matches") && Get(p, "lines") == Get(q, "lines");
    case ChangeIdEquals(_) => assert Get(p, "changes") == Get(q, "changes");
    case RunbookHasRemediation(_) =>
      assert Get(p, "found") == Get(q, "found") && Get(p, "runbook") == Get(q, "runbook");
    case MetricAvailable(_) =>
      assert Get(p, "found") == Get(q, "found") && Get(p, "metric") == Get(q, "metric")
        && Get(p, "points") == Get(q, "points");
    case HealthComponentStatus(_, _) => assert Get(p, "services") == Get(q, "services");
  }

  // A zero-match search, a lookup that was not found and an empty listing never
  // count, whatever else the response says.
  lemma RefusingResponsesNeverCount(fold: Fold, c: Constraint, p: map<string, Json>)
    requires ConstraintSatisfied(fold, c, p)
    ensures c.LogLineContains? ==> PositiveCount(Get(p, "total_matches")) && Members(Get(p, "lines")) != []
    ensures c.RunbookHasRemediation? || c.MetricAvailable? ==> Get(p, "found") == Bool(true)
    ensures c.MetricAvailable? ==> Get(p, "metric") == Str(c.metric) && Get(p, "points") != Arr([])
    ensures c.ChangeIdEquals? ==> Members(Get(p, "changes")) != []
    ensures c.HealthComponentStatus? ==> Get(p, "services") != Obj(map[])
  {
    hide LineMatches, ComponentHas;
  }

  // More trace entries never lose evidence, and neither their order nor their
  // repetition matters.
  lemma EvidenceIsMonotone(fold: Fold, p: EvidencePredicate, trace: seq<Trace>, more: seq<Trace>)
    requires forall t :: t in trace ==> t in more
    requires PredicateSatisfied(fold, p, trace)
    ensures PredicateSatisfied(fold, p, more)
  {
    var a, t :| a in p.alternatives && t in trace && AlternativeMatches(fold, a, t);
    assert t in more;
  }

  lemma SuccessIgnoresOrder(fold: Fold, s: Scenario, e: Execution, trace: seq<Trace>)
    requires forall t :: t in trace <==> t in e.trace
    ensures Succeeds(fold, s, e) <==> Succeeds(fold, s, e.(trace := trace))
  {
    hide PredicateSatisfied;
    var other := e.(trace := trace);
    if Succeeds(fold, s, e) {
      forall i | 0 <= i < |s.predicates| ensures PredicateSatisfied(fold, s.predicates[i], trace) {
        EvidenceIsMonotone(fold, s.predicates[i], e.trace, trace);
      }
    }
    if Succeeds(fold, s, other) {
      forall i | 0 <= i < |s.predicates| ensures PredicateSatisfied(fold, s.predicates[i], e.trace) {
        EvidenceIsMonotone(fold, s.predicates[i], trace, e.trace);
      }
    }
  }

  // The record the agent loop returns, with its entries read as JSON.
  function FromAgent(r: Agent.State, view: Agent.Entry -> Trace, e2e: real): Execution {
    Execution(
      r.status, r.category,
      if r.answer.Some? then Some(r.answer.value.diagnosisId) else None,
      if r.answer.Some? then Some(r.answer.value.remediationId) else None,
      seq(|r.trace|, i requires 0 <= i < |r.trace| => view(r.trace[i])), r.turns, e2e)
  }
}
