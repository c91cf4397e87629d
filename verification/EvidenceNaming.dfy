/** Which responses satisfy evidence, said of the response alone: the value a
    constraint names must be among the values returned, through its own tool and
    arguments (src/blackwell_lab/workload/evaluator.py). */
module EvidenceNaming {
  import opened Common
  import opened JsonValues
  import opened Evaluator
  import Agent = AgentLoop

  ghost predicate Within(needle: string, text: string) {
    exists before, after :: text == before + needle + after
  }

  // A log line whose folded message contains the folded text.
  ghost predicate Says(fold: Fold, line: Json, text: string) {
    && line.Obj? && "message" in line.fields && line.fields["message"].Str?
    && Within(fold(text), fold(line.fields["message"].s))
  }

  predicate HasText(j: Json, key: string, value: string) {
    j.Obj? && key in j.fields && j.fields[key] == Str(value)
  }

  // The response says that it found something.
  predicate Found(c: Constraint, payload: map<string, Json>) {
    match c
    case LogLineContains(_) =>
      "total_matches" in payload
      && (payload["total_matches"] == Bool(true)
          || (payload["total_matches"].Int? && payload["total_matches"].n >= 1))
    case RunbookHasRemediation(_) => "found" in payload && payload["found"] == Bool(true)
    case MetricAvailable(_) =>
      && "found" in payload && payload["found"] == Bool(true)
      && "points" in payload && payload["points"].Arr? && |payload["points"].items| > 0
    case ChangeIdEquals(_) => true
    case HealthComponentStatus(_, _) => true
  }

  // Among the values returned is the one the constraint names.
  ghost predicate Returns(fold: Fold, c: Constraint, payload: map<string, Json>) {
    match c
    case LogLineContains(text) =>
      "lines" in payload && payload["lines"].Arr?
      && exists i :: 0 <= i < |payload["lines"].items| && Says(fold, payload["lines"].items[i], text)
    case ChangeIdEquals(id) =>
      "changes" in payload && payload["changes"].Arr?
      && exists i :: 0 <= i < |payload["changes"].items| && HasText(payload["changes"].items[i], "change_id", id)
    case RunbookHasRemediation(id) =>
      "runbook" in payload && payload["runbook"].Obj? && "remediation_ids" in payload["runbook"].fields
      && payload["runbook"].fields["remediation_ids"].Arr?
      && Str(id) in payload["runbook"].fields["remediation_ids"].items
    case MetricAvailable(metric) => "metric" in payload && payload["metric"] == Str(metric)
    case HealthComponentStatus(component, status) =>
      "services" in payload && payload["services"].Obj?
      && exists service :: service in payload["services"].fields
                           && HasText(payload["services"].fields[service], component, status)
  }

  lemma WithinExactly(needle: string, text: string)
    ensures ContainsText(needle, text) <==> Within(needle, text)
  {
    if ContainsText(needle, text) {
      var i :| 0 <= i <= |text| - |needle| && OccursAt(needle, text, i);
      assert text == text[..i] + needle + text[i + |needle|..];
    }
    if Within(needle, text) {
      var before, after :| text == before + needle + after;
      assert text[|before|..|before| + |needle|] == needle;
      assert OccursAt(needle, text, |before|);
    }
  }

  lemma LineSays(fold: Fold, line: Json, text: string)
    ensures LineMatches(fold, line, text) <==> Says(fold, line, text)
  {
    hide ContainsText, Within;
    if line.Obj? && "message" in line.fields && line.fields["message"].Str? {
      WithinExactly(fold(text), fold(line.fields["message"].s));
    }
  }

  // A constraint holds exactly when the response found something and returns
  // the value the constraint names.
  lemma NamedValueDecides(fold: Fold, c: Constraint, payload: map<string, Json>)
    ensures ConstraintSatisfied(fold, c, payload) <==> Found(c, payload) && Returns(fold, c, payload)
  {
    hide LineMatches, Says;
    match c
    case LogLineContains(text) => LinesDecide(fold, text, payload);
    case ChangeIdEquals(id) => ChangesDecide(fold, id, payload);
    case RunbookHasRemediation(_) =>
    case MetricAvailable(_) =>
    case HealthComponentStatus(component, status) => ServicesDecide(fold, component, status, payload);
  }

  lemma LinesDecide(fold: Fold, text: string, payload: map<string, Json>)
    ensures var c := LogLineContains(text);
            ConstraintSatisfied(fold, c, payload) <==> Found(c, payload) && Returns(fold, c, payload)
  {
    hide LineMatches, Says;
    forall line ensures LineMatches(fold, line, text) <==> Says(fold, line, text) {
      LineSays(fold, line, text);
    }
    var lines := Members(Get(payload, "lines"));
    if line :| line in lines && LineMatches(fold, line, text) {
      var i :| 0 <= i < |lines| && lines[i] == line;
    }
    if "lines" in payload && payload["lines"].Arr? {
      if i :| 0 <= i < |lines| && Says(fold, lines[i], text) {
        assert lines[i] in lines;
      }
    }
  }

  lemma ChangesDecide(fold: Fold, id: string, payload: map<string, Json>)
    ensures var c := ChangeIdEquals(id);
            ConstraintSatisfied(fold, c, payload) <==> Found(c, payload) && Returns(fold, c, payload)
  {
    var changes := Members(Get(payload, "changes"));
    if change :| change in changes && HasText(change, "change_id", id) {
      var i :| 0 <= i < |changes| && changes[i] == change;
    }
    if "changes" in payload && payload["changes"].Arr? {
      if i :| 0 <= i < |changes| && HasText(changes[i], "change_id", id) {
        assert changes[i] in changes;
      }
    }
  }

  lemma ServicesDecide(fold: Fold, component: string, status: string, payload: map<string, Json>)
    ensures var c := HealthComponentStatus(component, status);
            ConstraintSatisfied(fold, c, payload) <==> Found(c, payload) && Returns(fold, c, payload)
  {
    forall j: Json ensures ComponentHas(j, component, status) <==> HasText(j, component, status) {
    }
    hide ComponentHas, HasText;
    var c := HealthComponentStatus(component, status);
    if "services" in payload && payload["services"].Obj? {
      var services := payload["services"].fields;
      assert Get(payload, "services").fields == services;
      assert ConstraintSatisfied(fold, c, payload) <==>
             exists service :: service in services && ComponentHas(services[service], component, status);
      if service :| service in services && ComponentHas(services[service], component, status) {
        assert HasText(services[service], component, status);
      }
      if service :| service in services && HasText(services[service], component, status) {
        assert ComponentHas(services[service], component, status);
      }
    }
  }

  // A response that returns nothing but the named value.
  function Showing(c: Constraint): map<string, Json> {
    match c
    case LogLineContains(text) =>
      map["total_matches" := Int(1), "lines" := Arr([Obj(map["message" := Str(text)])])]
    case ChangeIdEquals(id) => map["changes" := Arr([Obj(map["change_id" := Str(id)])])]
    case RunbookHasRemediation(id) =>
      map["found" := Bool(true), "runbook" := Obj(map["remediation_ids" := Arr([Str(id)])])]
    case MetricAvailable(metric) =>
      map["found" := Bool(true), "metric" := Str(metric), "points" := Arr([Null])]
    case HealthComponentStatus(component, status) =>
      map["services" := Obj(map["any" := Obj(map[component := Str(status)])])]
  }

  predicate SameKind(c: Constraint, d: Constraint) {
    match c
    case LogLineContains(_) => d.LogLineContains?
    case ChangeIdEquals(_) => d.ChangeIdEquals?
    case RunbookHasRemediation(_) => d.RunbookHasRemediation?
    case MetricAvailable(_) => d.MetricAvailable?
    case HealthComponentStatus(_, _) => d.HealthComponentStatus?
  }

  lemma ShowingReturns(fold: Fold, c: Constraint, d: Constraint)
    requires SameKind(c, d)
    ensures Found(d, Showing(c))
    ensures c.LogLineContains? ==> (Returns(fold, d, Showing(c)) <==> Within(fold(d.text), fold(c.text)))
    ensures !c.LogLineContains? ==> (Returns(fold, d, Showing(c)) <==> c == d)
  {
    hide Within;
    var payload := Showing(c);
    match c
    case LogLineContains(text) =>
      var line := payload["lines"].items[0];
      assert line == Obj(map["message" := Str(text)]) && |payload["lines"].items| == 1;
      assert Says(fold, line, d.text) <==> Within(fold(d.text), fold(text));
    case ChangeIdEquals(id) =>
      assert HasText(payload["changes"].items[0], "change_id", d.changeId) <==> id == d.changeId;
    case RunbookHasRemediation(id) =>
      assert payload["runbook"].fields["remediation_ids"].items == [Str(id)];
    case MetricAvailable(_) =>
    case HealthComponentStatus(component, status) =>
      var services := payload["services"].fields;
      assert services.Keys == {"any"};
      assert HasText(services["any"], d.component, d.status) <==> component == d.component && status == d.status;
  }

  lemma WithinIsOrder(a: string, b: string)
    requires Within(a, b) && Within(b, a)
    ensures a == b
  {
    var x, y :| b == x + a + y;
    var u, v :| a == u + b + v;
    assert |x| == |y| == |u| == |v| == 0;
  }

  lemma WithinItself(a: string)
    ensures Within(a, a)
  {
    assert a == [] + a + [];
  }

  // Every constraint can be satisfied, and two of one kind that name different
  // values (for log lines, texts that differ when folded) are told apart by the
  // response that shows one of them.
  lemma DifferentValuesDiffer(fold: Fold, c: Constraint, d: Constraint)
    requires SameKind(c, d)
    requires if c.LogLineContains? then fold(c.text) != fold(d.text) else c != d
    ensures ConstraintSatisfied(fold, c, Showing(c)) && ConstraintSatisfied(fold, d, Showing(d))
    ensures !ConstraintSatisfied(fold, d, Showing(c)) || !ConstraintSatisfied(fold, c, Showing(d))
    ensures !c.LogLineContains? ==> !ConstraintSatisfied(fold, d, Showing(c))
  {
    hide ConstraintSatisfied, Returns, Found, Showing, Within;
    NamedValueDecides(fold, c, Showing(c));
    NamedValueDecides(fold, d, Showing(d));
    NamedValueDecides(fold, d, Showing(c));
    NamedValueDecides(fold, c, Showing(d));
    ShowingReturns(fold, c, c);
    ShowingReturns(fold, d, d);
    ShowingReturns(fold, c, d);
    ShowingReturns(fold, d, c);
    if c.LogLineContains? {
      WithinItself(fold(c.text));
      WithinItself(fold(d.text));
      if Within(fold(c.text), fold(d.text)) && Within(fold(d.text), fold(c.text)) {
        WithinIsOrder(fold(c.text), fold(d.text));
      }
    }
  }

  // ---- evidence and success -----------------------------------------------

  // An entry of the trace that is this alternative: its tool, each named
  // argument containing its text, and the named value returned.
  ghost predicate Shows(fold: Fold, t: Trace, a: Alternative) {
    && t.tool == a.tool
    && (forall i :: 0 <= i < |a.argumentContains| ==>
          var (name, text) := a.argumentContains[i];
          name in t.arguments && t.arguments[name].Str? && Within(fold(text), fold(t.arguments[name].s)))
    && Found(a.result, t.result) && Returns(fold, a.result, t.result)
  }

  lemma AlternativeExactly(fold: Fold, a: Alternative, t: Trace)
    ensures AlternativeMatches(fold, a, t) <==> Shows(fold, t, a)
  {
    NamedValueDecides(fold, a.result, t.result);
    hide ConstraintSatisfied, Found, Returns, ContainsText, Within;
    forall i | 0 <= i < |a.argumentContains|
      ensures var (name, text) := a.argumentContains[i];
              ArgumentMatches(fold, a.argumentContains[i], t.arguments) <==>
              name in t.arguments && t.arguments[name].Str? && Within(fold(text), fold(t.arguments[name].s))
    {
      var (name, text) := a.argumentContains[i];
      if name in t.arguments && t.arguments[name].Str? {
        WithinExactly(fold(text), fold(t.arguments[name].s));
      }
    }
    hide ArgumentMatches;
    if AlternativeMatches(fold, a, t) {
      assert forall i :: 0 <= i < |a.argumentContains| ==> a.argumentContains[i] in a.argumentContains;
    }
  }

  ghost predicate Evidenced(fold: Fold, p: EvidencePredicate, trace: seq<Trace>) {
    exists i, j :: 0 <= i < |p.alternatives| && 0 <= j < |trace| && Shows(fold, trace[j], p.alternatives[i])
  }

  lemma EvidencedExactly(fold: Fold, p: EvidencePredicate, trace: seq<Trace>)
    ensures PredicateSatisfied(fold, p, trace) <==> Evidenced(fold, p, trace)
  {
    hide AlternativeMatches, Shows;
    forall a, t ensures AlternativeMatches(fold, a, t) <==> Shows(fold, t, a) {
      AlternativeExactly(fold, a, t);
    }
    if PredicateSatisfied(fold, p, trace) {
      var a, t :| a in p.alternatives && t in trace && AlternativeMatches(fold, a, t);
      var i :| 0 <= i < |p.alternatives| && p.alternatives[i] == a;
      var j :| 0 <= j < |trace| && trace[j] == t;
      assert Shows(fold, trace[j], p.alternatives[i]);
    }
    if Evidenced(fold, p, trace) {
      var i, j :| 0 <= i < |p.alternatives| && 0 <= j < |trace| && Shows(fold, trace[j], p.alternatives[i]);
      assert p.alternatives[i] in p.alternatives && trace[j] in trace;
    }
  }

  // Success, said of the attempt and the scenario alone.
  lemma SuccessExactly(fold: Fold, s: Scenario, e: Execution)
    ensures Succeeds(fold, s, e) <==>
            && e.status == Agent.Completed
            && e.diagnosisId.Some? && e.diagnosisId.value in s.acceptedDiagnoses
            && e.remediationId.Some? && e.remediationId.value in s.acceptedRemediations
            && forall i :: 0 <= i < |s.predicates| ==> Evidenced(fold, s.predicates[i], e.trace)
  {
    hide PredicateSatisfied, Evidenced;
    forall p ensures PredicateSatisfied(fold, p, e.trace) <==> Evidenced(fold, p, e.trace) {
      EvidencedExactly(fold, p, e.trace);
    }
  }

  // The gates in order: completion, diagnosis, remediation, then one for each
  // predicate under its own id.
  lemma GatesInOrder(fold: Fold, s: Scenario, e: Execution)
    ensures var gates := GatesOf(fold, s, e);
            && |gates| == 3 + |s.predicates|
            && gates[0] == Gate("task_completed", e.status == Agent.Completed)
            && gates[1].id == "diagnosis" && gates[2].id == "remediation"
            && (gates[1].passed <==> e.status == Agent.Completed && e.diagnosisId.Some?
                                     && e.diagnosisId.value in s.acceptedDiagnoses)
            && (gates[2].passed <==> e.status == Agent.Completed && e.remediationId.Some?
                                     && e.remediationId.value in s.acceptedRemediations)
            && forall i :: 0 <= i < |s.predicates| ==>
                 && gates[3 + i].id == "evidence:" + s.predicates[i].id
                 && (gates[3 + i].passed <==> Evidenced(fold, s.predicates[i], e.trace))
  {
    hide PredicateSatisfied, Evidenced;
    forall i | 0 <= i < |s.predicates|
      ensures GatesOf(fold, s, e)[3 + i].passed <==> Evidenced(fold, s.predicates[i], e.trace)
    {
      EvidencedExactly(fold, s.predicates[i], e.trace);
    }
  }
}
