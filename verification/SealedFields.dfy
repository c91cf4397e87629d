/** What each field of a decoded sealed task is, read off the document under its
    own keys (src/blackwell_lab/cloud/sealed_payload.py: _scenario and its
    parts, decode_sealed_task), without the encoder; and what the evaluator then
    accepts. */
module SealedFields {
  import opened Common
  import opened JsonValues
  import opened JsonCodecs
  import opened SealedPayload
  import opened Texts
  import Evaluator
  import Agent = AgentLoop

  // ---- reading one key ----------------------------------------------------

  predicate TextAt(j: Json, key: string, s: string) {
    j.Obj? && key in j.fields && j.fields[key] == Str(s)
  }

  predicate NumberAt(j: Json, key: string, n: int) {
    j.Obj? && key in j.fields && j.fields[key] == Int(n)
  }

  predicate IsTexts(j: Json, ts: seq<string>) {
    j.Arr? && |j.items| == |ts| && forall i :: 0 <= i < |ts| ==> j.items[i] == Str(ts[i])
  }

  predicate TextsAt(j: Json, key: string, ts: seq<string>) {
    j.Obj? && key in j.fields && IsTexts(j.fields[key], ts)
  }

  // A list whose elements read as these values, in order.
  predicate ListAt<T>(j: Json, key: string, ts: seq<T>, means: (Json, T) -> bool) {
    && j.Obj? && key in j.fields && j.fields[key].Arr? && |j.fields[key].items| == |ts|
    && forall i :: 0 <= i < |ts| ==> means(j.fields[key].items[i], ts[i])
  }

  // A dictionary whose values read as these, under the same keys.
  predicate TableAt<T>(j: Json, key: string, m: map<string, T>, means: (Json, T) -> bool) {
    && j.Obj? && key in j.fields && j.fields[key].Obj? && j.fields[key].fields.Keys == m.Keys
    && forall k :: k in m ==> means(j.fields[key].fields[k], m[k])
  }

  ghost predicate Reads<T(!new)>(decode: Json -> Option<T>, means: (Json, T) -> bool) {
    forall j, t :: decode(j) == Some(t) ==> means(j, t)
  }

  lemma ListReads<T(!new)>(decode: Json -> Option<T>, means: (Json, T) -> bool, j: Json, key: string, ts: seq<T>)
    requires Reads(decode, means) && j.Obj? && DecodeList(decode, Get(j.fields, key)) == Some(ts)
    ensures ListAt(j, key, ts, means)
  {
    DecodeAllMeans(decode, Get(j.fields, key).items, ts);
  }

  lemma TableReads<T(!new)>(
      decode: Json -> Option<T>, means: (Json, T) -> bool, j: Json, key: string, m: map<string, T>)
    requires Reads(decode, means) && j.Obj? && DecodeMap(decode, Get(j.fields, key)) == Some(m)
    ensures TableAt(j, key, m, means)
  {
  }

  lemma TextsRead(j: Json, ts: seq<string>)
    requires DecodeList(DecodeText, j) == Some(ts)
    ensures IsTexts(j, ts)
  {
    DecodeAllMeans(DecodeText, j.items, ts);
  }

  // ---- the parts ----------------------------------------------------------

  predicate PointReads(j: Json, p: Point) {
    NumberAt(j, "t_offset_s", p.offset) && "value" in j.fields && j.fields["value"] == p.value
  }

  predicate SeriesReads(j: Json, s: Series) {
    TextAt(j, "unit", s.unit) && ListAt(j, "points", s.points, PointReads)
  }

  predicate ComponentsRead(j: Json, m: map<string, string>) {
    j.Obj? && j.fields.Keys == m.Keys && forall k :: k in m ==> j.fields[k] == Str(m[k])
  }

  predicate LineReads(j: Json, l: LogLine) {
    && NumberAt(j, "t_offset_s", l.offset) && TextAt(j, "host", l.host)
    && TextAt(j, "level", l.level) && TextAt(j, "message", l.message)
  }

  predicate RunbookReads(j: Json, b: Runbook) {
    && TextAt(j, "title", b.title) && TextsAt(j, "steps", b.steps)
    && TextsAt(j, "remediation_ids", b.remediationIds)
  }

  predicate ChangeReads(j: Json, c: Change) {
    && TextAt(j, "change_id", c.changeId) && NumberAt(j, "t_offset_s", c.offset) && TextAt(j, "kind", c.kind)
    && TextAt(j, "service", c.service) && TextAt(j, "summary", c.summary)
  }

  predicate ConstraintReads(j: Json, c: Evaluator.Constraint) {
    match c
    case LogLineContains(text) => TextAt(j, "kind", "log_line_contains") && TextAt(j, "text", text)
    case ChangeIdEquals(id) => TextAt(j, "kind", "change_id_equals") && TextAt(j, "change_id", id)
    case RunbookHasRemediation(id) => TextAt(j, "kind", "runbook_has_remediation") && TextAt(j, "remediation_id", id)
    case MetricAvailable(metric) => TextAt(j, "kind", "metric_available") && TextAt(j, "metric", metric)
    case HealthComponentStatus(component, status) =>
      TextAt(j, "kind", "health_component_status") && TextAt(j, "component", component) && TextAt(j, "status", status)
  }

  predicate PairReads(j: Json, p: (string, string)) {
    j.Arr? && |j.items| == 2 && j.items[0] == Str(p.0) && j.items[1] == Str(p.1)
  }

  predicate AlternativeReads(j: Json, a: Evaluator.Alternative) {
    && TextAt(j, "tool", a.tool) && ListAt(j, "argument_contains", a.argumentContains, PairReads)
    && "result" in j.fields && ConstraintReads(j.fields["result"], a.result)
  }

  predicate PredicateReads(j: Json, p: Evaluator.EvidencePredicate) {
    && TextAt(j, "predicate_id", p.id) && TextAt(j, "description", p.description)
    && ListAt(j, "alternatives", p.alternatives, AlternativeReads)
  }

  predicate StepReads(j: Json, s: ToolStep) {
    TextAt(j, "tool", s.tool) && "arguments" in j.fields && j.fields["arguments"] == Obj(s.arguments)
  }

  lemma PartsRead()
    ensures Reads(DecodePoint, PointReads) && Reads(DecodeLine, LineReads) && Reads(DecodeChange, ChangeReads)
    ensures Reads(DecodePair, PairReads) && Reads(DecodeStep, StepReads)
  {
  }

  lemma ConstraintIsRead()
    ensures Reads(DecodeConstraint, ConstraintReads)
  {
    hide DecodeConstraint, ConstraintReads;
    forall j, c | DecodeConstraint(j) == Some(c) ensures ConstraintReads(j, c) {
      OneConstraintIsRead(j, c);
    }
  }

  lemma OneConstraintIsRead(j: Json, c: Evaluator.Constraint)
    requires DecodeConstraint(j) == Some(c)
    ensures ConstraintReads(j, c)
  {
    match c
    case LogLineContains(_) =>
    case ChangeIdEquals(_) =>
    case RunbookHasRemediation(_) =>
    case MetricAvailable(_) =>
    case HealthComponentStatus(_, _) =>
  }

  lemma ComponentsAreRead()
    ensures Reads(DecodeComponents, ComponentsRead)
  {
  }

  lemma SeriesIsRead()
    ensures Reads(DecodeSeries, SeriesReads)
  {
    PartsRead();
    hide DecodePoint, PointReads, DecodeList, ListAt;
    forall j, s | DecodeSeries(j) == Some(s) ensures SeriesReads(j, s) {
      ListReads(DecodePoint, PointReads, j, "points", s.points);
    }
  }

  lemma RunbookIsRead()
    ensures Reads(DecodeRunbook, RunbookReads)
  {
    hide DecodeList, IsTexts;
    forall j, b | DecodeRunbook(j) == Some(b) ensures RunbookReads(j, b) {
      TextsRead(j.fields["steps"], b.steps);
      TextsRead(j.fields["remediation_ids"], b.remediationIds);
    }
  }

  lemma AlternativeIsRead()
    ensures Reads(DecodeAlternative, AlternativeReads)
  {
    PartsRead();
    ConstraintIsRead();
    hide DecodePair, PairReads, DecodeConstraint, ConstraintReads, DecodeList, ListAt, KNOWN_TOOLS;
    forall j, a | DecodeAlternative(j) == Some(a) ensures AlternativeReads(j, a) {
      ListReads(DecodePair, PairReads, j, "argument_contains", a.argumentContains);
    }
  }

  lemma PredicateIsRead()
    ensures Reads(DecodePredicate, PredicateReads)
  {
    AlternativeIsRead();
    hide DecodeAlternative, AlternativeReads, DecodeList, ListAt;
    forall j, p | DecodePredicate(j) == Some(p) ensures PredicateReads(j, p) {
      ListReads(DecodeAlternative, AlternativeReads, j, "alternatives", p.alternatives);
    }
  }

  // ---- the scenario -------------------------------------------------------

  predicate NarrativeReads(j: Json, n: Narrative) {
    && TextAt(j, "scenario_id", n.scenarioId) && TextAt(j, "incident_class", n.incidentClass)
    && TextAt(j, "title", n.title) && TextAt(j, "description", n.description)
    && TextAt(j, "affected_service", n.affectedService) && TextAt(j, "root_cause_summary", n.rootCauseSummary)
  }

  predicate SurfaceReads(j: Json, s: Surface) {
    && TableAt(j, "health", s.health, ComponentsRead) && TableAt(j, "metrics", s.metrics, SeriesReads)
    && ListAt(j, "logs", s.logs, LineReads) && TableAt(j, "runbooks", s.runbooks, RunbookReads)
    && ListAt(j, "recent_changes", s.recentChanges, ChangeReads)
  }

  predicate AnswersRead(j: Json, a: Answers) {
    && TextAt(j, "root_cause_id", a.rootCauseId)
    && TextsAt(j, "accepted_diagnoses", a.acceptedDiagnoses)
    && TextsAt(j, "distractor_diagnoses", a.distractorDiagnoses)
    && TextsAt(j, "accepted_remediations", a.acceptedRemediations)
    && TextsAt(j, "distractor_remediations", a.distractorRemediations)
  }

  predicate EvidenceReads(j: Json, e: Evidence) {
    && ListAt(j, "evidence_predicates", e.predicates, PredicateReads)
    && ListAt(j, "reference_tool_sequence", e.reference, StepReads)
    && ListAt(j, "alternative_tool_sequence", e.alternative, StepReads)
  }

  lemma NarrativeIsRead(j: Json, n: Narrative)
    requires j.Obj? && DecodeNarrative(j.fields) == Some(n)
    ensures NarrativeReads(j, n)
  {
  }

  lemma SurfaceIsRead(j: Json, s: Surface)
    requires j.Obj? && DecodeSurface(j.fields) == Some(s)
    ensures SurfaceReads(j, s)
  {
    PartsRead();
    ComponentsAreRead();
    SeriesIsRead();
    RunbookIsRead();
    hide DecodeComponents, ComponentsRead, DecodeSeries, SeriesReads, DecodeLine, LineReads, DecodeRunbook,
         RunbookReads, DecodeChange, ChangeReads, DecodeMap, DecodeList, ListAt, TableAt;
    TableReads(DecodeComponents, ComponentsRead, j, "health", s.health);
    TableReads(DecodeSeries, SeriesReads, j, "metrics", s.metrics);
    ListReads(DecodeLine, LineReads, j, "logs", s.logs);
    TableReads(DecodeRunbook, RunbookReads, j, "runbooks", s.runbooks);
    ListReads(DecodeChange, ChangeReads, j, "recent_changes", s.recentChanges);
  }

  lemma AnswersAreRead(j: Json, a: Answers)
    requires j.Obj? && DecodeAnswers(j.fields) == Some(a)
    ensures AnswersRead(j, a)
    ensures a.rootCauseId in a.acceptedDiagnoses
    ensures Distinct(a.acceptedDiagnoses) && Distinct(a.acceptedRemediations)
    ensures forall x :: x in a.acceptedDiagnoses ==> x !in a.distractorDiagnoses
    ensures forall x :: x in a.acceptedRemediations ==> x !in a.distractorRemediations
  {
    TextsRead(Get(j.fields, "accepted_diagnoses"), a.acceptedDiagnoses);
    TextsRead(Get(j.fields, "distractor_diagnoses"), a.distractorDiagnoses);
    TextsRead(Get(j.fields, "accepted_remediations"), a.acceptedRemediations);
    TextsRead(Get(j.fields, "distractor_remediations"), a.distractorRemediations);
    DistinctSize(a.acceptedDiagnoses);
    DistinctSize(a.acceptedRemediations);
    NotBoth(a.acceptedDiagnoses, a.distractorDiagnoses);
    NotBoth(a.acceptedRemediations, a.distractorRemediations);
    hide DecodeList, IsTexts, Distinct, Disjoint;
  }

  lemma NotBoth(a: seq<string>, b: seq<string>)
    ensures Disjoint(a, b) ==> forall x :: x in a ==> x !in b
  {
    if Disjoint(a, b) {
      forall x | x in a ensures x !in b {
        assert x in Elements(a) && x !in Elements(a) * Elements(b);
      }
    }
  }

  lemma EvidenceIsRead(j: Json, e: Evidence)
    requires j.Obj? && DecodeEvidence(j.fields) == Some(e)
    ensures EvidenceReads(j, e)
  {
    PartsRead();
    PredicateIsRead();
    hide DecodePredicate, PredicateReads, DecodeStep, StepReads, DecodeList, ListAt, DistinctIds;
    ListReads(DecodePredicate, PredicateReads, j, "evidence_predicates", e.predicates);
    ListReads(DecodeStep, StepReads, j, "reference_tool_sequence", e.reference);
    ListReads(DecodeStep, StepReads, j, "alternative_tool_sequence", e.alternative);
  }

  // ---- the task -----------------------------------------------------------

  predicate InstanceReads(j: Json, i: Instance) {
    && NumberAt(j, "instance_seed", i.seed) && TextAt(j, "tracking_id", i.trackingId)
    && NumberAt(j, "reported_minute", i.reportedMinute)
  }

  // The document under "scenario" and "instance", and the ids the instance takes
  // from them.
  predicate TaskReads(j: Json, t: SealedTask) {
    && TextAt(j, "task_id", t.id) && "scenario" in j.fields && "instance" in j.fields
    && (var s := j.fields["scenario"];
        && NarrativeReads(s, t.scenario.narrative) && SurfaceReads(s, t.scenario.surface)
        && AnswersRead(s, t.scenario.answers) && EvidenceReads(s, t.scenario.evidence)
        && TextAt(s, "scenario_id", t.instance.templateId))
    && InstanceReads(j.fields["instance"], t.instance) && t.instance.instanceId == t.id
  }

  // A decoded task carries, field by field, what its document says under the
  // key of that field.
  lemma FieldsAreRead(limits: Json -> bool, j: Json, expectedId: string, t: SealedTask)
    requires DecodeSealedTask(limits, j, expectedId) == Some(t)
    ensures TaskReads(j, t) && t.id == expectedId
  {
    hide DecodeNarrative, DecodeSurface, DecodeAnswers, DecodeEvidence, NarrativeReads, SurfaceReads, AnswersRead,
         EvidenceReads, ValidId;
    var s := j.fields["scenario"];
    NarrativeIsRead(s, t.scenario.narrative);
    SurfaceIsRead(s, t.scenario.surface);
    AnswersAreRead(s, t.scenario.answers);
    EvidenceIsRead(s, t.scenario.evidence);
    ScenarioIdIsRead(s, t.scenario.narrative);
  }

  lemma ScenarioIdIsRead(j: Json, n: Narrative)
    requires NarrativeReads(j, n)
    ensures TextAt(j, "scenario_id", n.scenarioId)
  {
  }

  lemma ListedExactly(j: Json, key: string, ts: seq<string>, x: string)
    requires TextsAt(j, key, ts)
    ensures x in ts <==> Str(x) in j.fields[key].items
  {
    if x in ts {
      var i :| 0 <= i < |ts| && ts[i] == x;
      assert j.fields[key].items[i] == Str(x);
    }
    if Str(x) in j.fields[key].items {
      var i :| 0 <= i < |j.fields[key].items| && j.fields[key].items[i] == Str(x);
      assert Str(ts[i]) == Str(x);
    }
  }

  // The scenario as the evaluator grades against it.
  function Graded(s: Scenario): Evaluator.Scenario {
    Evaluator.Scenario(s.answers.acceptedDiagnoses, s.answers.acceptedRemediations, s.evidence.predicates)
  }

  // A completed attempt at a decoded task passes the diagnosis gate exactly for
  // the ids its document lists as accepted diagnoses, and the remediation gate
  // exactly for those it lists as accepted remediations; a distractor passes
  // neither.
  lemma DocumentDecidesGates(
      limits: Json -> bool, j: Json, expectedId: string, t: SealedTask, fold: Evaluator.Fold, e: Evaluator.Execution)
    requires DecodeSealedTask(limits, j, expectedId) == Some(t)
    requires e.status == Agent.Completed && e.diagnosisId.Some? && e.remediationId.Some?
    ensures TaskReads(j, t)
    ensures var s := j.fields["scenario"].fields;
            var gates := Evaluator.GatesOf(fold, Graded(t.scenario), e);
            && gates[1].id == "diagnosis" && gates[2].id == "remediation"
            && (gates[1].passed <==> Str(e.diagnosisId.value) in s["accepted_diagnoses"].items)
            && (gates[2].passed <==> Str(e.remediationId.value) in s["accepted_remediations"].items)
            && (Str(e.diagnosisId.value) in s["distractor_diagnoses"].items ==> !gates[1].passed)
            && (Str(e.remediationId.value) in s["distractor_remediations"].items ==> !gates[2].passed)
  {
    FieldsAreRead(limits, j, expectedId, t);
    var s, a := j.fields["scenario"], t.scenario.answers;
    DecodedAnswers(limits, j, expectedId, t);
    AnswersAreRead(s, a);
    ListedExactly(s, "accepted_diagnoses", a.acceptedDiagnoses, e.diagnosisId.value);
    ListedExactly(s, "distractor_diagnoses", a.distractorDiagnoses, e.diagnosisId.value);
    ListedExactly(s, "accepted_remediations", a.acceptedRemediations, e.remediationId.value);
    ListedExactly(s, "distractor_remediations", a.distractorRemediations, e.remediationId.value);
    hide DecodeSealedTask, DecodeAnswers, NarrativeReads, SurfaceReads, EvidenceReads, Evaluator.PredicateSatisfied;
  }

  lemma DecodedAnswers(limits: Json -> bool, j: Json, expectedId: string, t: SealedTask)
    requires DecodeSealedTask(limits, j, expectedId) == Some(t)
    ensures j.Obj? && "scenario" in j.fields && j.fields["scenario"].Obj?
    ensures DecodeAnswers(j.fields["scenario"].fields) == Some(t.scenario.answers)
  {
    hide DecodeNarrative, DecodeSurface, DecodeAnswers, DecodeEvidence, ValidId;
  }
}
