/** The sealed-task payload contract (src/blackwell_lab/cloud/sealed_payload.py)
    on JSON values: decoding is exactly the inverse of encoding. */
module SealedPayload {
  import opened Common
  import opened JsonValues
  import opened JsonCodecs
  import opened Evaluator
  import opened Texts

  const PAYLOAD_SCHEMA_VERSION := "1.0.0"
  const PAYLOAD_KIND := "sealed-qualification-task"
  const MAX_PAYLOAD_BYTES := 1_048_576
  const KNOWN_TOOLS := {
    "get_service_health", "query_metrics", "search_logs", "retrieve_runbook", "check_recent_changes",
    "recommend_remediation"}

  datatype Point = Point(offset: int, value: Json)
  datatype Series = Series(unit: string, points: seq<Point>)
  datatype LogLine = LogLine(offset: int, host: string, level: string, message: string)
  datatype Runbook = Runbook(title: string, steps: seq<string>, remediationIds: seq<string>)
  datatype Change = Change(changeId: string, offset: int, kind: string, service: string, summary: string)
  datatype ToolStep = ToolStep(tool: string, arguments: map<string, Json>)

  datatype Narrative = Narrative(
    scenarioId: string, incidentClass: string, title: string, description: string, affectedService: string,
    rootCauseSummary: string)
  datatype Surface = Surface(
    health: map<string, map<string, string>>, metrics: map<string, Series>, logs: seq<LogLine>,
    runbooks: map<string, Runbook>, recentChanges: seq<Change>)
  datatype Answers = Answers(
    rootCauseId: string, acceptedDiagnoses: seq<string>, distractorDiagnoses: seq<string>,
    acceptedRemediations: seq<string>, distractorRemediations: seq<string>)
  datatype Evidence = Evidence(predicates: seq<EvidencePredicate>, reference: seq<ToolStep>, alternative: seq<ToolStep>)

  datatype Scenario = Scenario(narrative: Narrative, surface: Surface, answers: Answers, evidence: Evidence)

  datatype Instance = Instance(
    templateId: string, instanceId: string, seed: int, trackingId: string, reportedMinute: int)

  datatype SealedTask = SealedTask(id: string, instance: Instance, scenario: Scenario)

  predicate Exactly(j: Json, keys: set<string>) {
    j.Obj? && j.fields.Keys == keys
  }

  // _int: a float is refused even where it is integral, and so is a boolean.
  function DecodeInt(j: Json): Option<int> {
    if j.Int? then Some(j.n) else None
  }

  predicate IsNumber(j: Json) {
    j.Int? || j.Float?
  }

  // ---- the surface a task shows -------------------------------------------

  function DecodePoint(j: Json): Option<Point> {
    if Exactly(j, {"t_offset_s", "value"}) && IsNumber(j.fields["value"]) then
      var offset :- DecodeInt(j.fields["t_offset_s"]);
      Some(Point(offset, j.fields["value"]))
    else None
  }

  function EncodePoint(p: Point): Json {
    Obj(map["t_offset_s" := Int(p.offset), "value" := p.value])
  }

  predicate ValidPoint(p: Point) {
    IsNumber(p.value)
  }

  lemma PointInverse()
    ensures Inverse(DecodePoint, EncodePoint, ValidPoint)
  {
    forall j, p ensures DecodePoint(j) == Some(p) <==> ValidPoint(p) && j == EncodePoint(p) {
      if DecodePoint(j) == Some(p) {
        assert j.fields == EncodePoint(p).fields;
      }
    }
  }

  function DecodeSeries(j: Json): Option<Series> {
    if Exactly(j, {"unit", "points"}) then
      var unit :- DecodeText(j.fields["unit"]);
      var points :- DecodeList(DecodePoint, j.fields["points"]);
      Some(Series(unit, points))
    else None
  }

  function EncodeSeries(s: Series): Json {
    Obj(map["unit" := Str(s.unit), "points" := EncodeList(EncodePoint, s.points)])
  }

  predicate ValidSeries(s: Series) {
    Every(ValidPoint, s.points)
  }

  lemma SeriesInverse()
    ensures Inverse(DecodeSeries, EncodeSeries, ValidSeries)
  {
    hide DecodePoint, EncodePoint, DecodeList, EncodeList, Every;
    PointInverse();
    forall j, s ensures DecodeSeries(j) == Some(s) <==> ValidSeries(s) && j == EncodeSeries(s) {
      if Exactly(j, {"unit", "points"}) {
        ListInverse(DecodePoint, EncodePoint, ValidPoint, j.fields["points"], s.points);
        if DecodeSeries(j) == Some(s) {
          assert j.fields == EncodeSeries(s).fields;
        }
      }
    }
  }

  function DecodeComponents(j: Json): Option<map<string, string>> {
    DecodeMap(DecodeText, j)
  }

  function EncodeComponents(m: map<string, string>): Json {
    EncodeMap(EncodeText, m)
  }

  lemma ComponentsInverse()
    ensures Inverse(DecodeComponents, EncodeComponents, Any<map<string, string>>)
  {
    hide DecodeMap, EncodeMap, EveryValue;
    TextInverse();
    forall j, m: map<string, string> ensures DecodeComponents(j) == Some(m) <==> j == EncodeComponents(m) {
      MapInverse(DecodeText, EncodeText, Any<string>, j, m);
      AnyValue(m);
    }
  }

  lemma AnyValue<T>(m: map<string, T>)
    ensures EveryValue(Any<T>, m)
  {
  }

  lemma AnyItem<T>(ts: seq<T>)
    ensures Every(Any<T>, ts)
  {
  }

  function DecodeLine(j: Json): Option<LogLine> {
    if Exactly(j, {"t_offset_s", "host", "level", "message"}) then
      var offset :- DecodeInt(j.fields["t_offset_s"]);
      var host :- DecodeText(j.fields["host"]);
      var level :- DecodeText(j.fields["level"]);
      var message :- DecodeText(j.fields["message"]);
      Some(LogLine(offset, host, level, message))
    else None
  }

  function EncodeLine(l: LogLine): Json {
    Obj(map["t_offset_s" := Int(l.offset), "host" := Str(l.host), "level" := Str(l.level), "message" := Str(l.message)])
  }

  lemma LineInverse()
    ensures Inverse(DecodeLine, EncodeLine, Any<LogLine>)
  {
    forall j, l ensures DecodeLine(j) == Some(l) <==> j == EncodeLine(l) {
      if DecodeLine(j) == Some(l) {
        assert j.fields == EncodeLine(l).fields;
      }
    }
  }

  function DecodeRunbook(j: Json): Option<Runbook> {
    if Exactly(j, {"title", "steps", "remediation_ids"}) then
      var title :- DecodeText(j.fields["title"]);
      var steps :- DecodeList(DecodeText, j.fields["steps"]);
      var ids :- DecodeList(DecodeText, j.fields["remediation_ids"]);
      Some(Runbook(title, steps, ids))
    else None
  }

  function EncodeRunbook(b: Runbook): Json {
    Obj(map["title" := Str(b.title), "steps" := EncodeList(EncodeText, b.steps),
            "remediation_ids" := EncodeList(EncodeText, b.remediationIds)])
  }

  lemma TextsInverse(j: Json, ts: seq<string>)
    ensures DecodeList(DecodeText, j) == Some(ts) <==> j == EncodeList(EncodeText, ts)
  {
    TextInverse();
    ListInverse(DecodeText, EncodeText, Any<string>, j, ts);
    AnyItem(ts);
  }

  lemma RunbookInverse()
    ensures Inverse(DecodeRunbook, EncodeRunbook, Any<Runbook>)
  {
    hide DecodeList, EncodeList;
    forall j, b ensures DecodeRunbook(j) == Some(b) <==> j == EncodeRunbook(b) {
      if Exactly(j, {"title", "steps", "remediation_ids"}) {
        TextsInverse(j.fields["steps"], b.steps);
        TextsInverse(j.fields["remediation_ids"], b.remediationIds);
        if DecodeRunbook(j) == Some(b) {
          assert j.fields == EncodeRunbook(b).fields;
        }
      }
    }
  }

  function DecodeChange(j: Json): Option<Change> {
    if Exactly(j, {"change_id", "t_offset_s", "kind", "service", "summary"}) then
      var changeId :- DecodeText(j.fields["change_id"]);
      var offset :- DecodeInt(j.fields["t_offset_s"]);
      var kind :- DecodeText(j.fields["kind"]);
      var service :- DecodeText(j.fields["service"]);
      var summary :- DecodeText(j.fields["summary"]);
      Some(Change(changeId, offset, kind, service, summary))
    else None
  }

  function EncodeChange(c: Change): Json {
    Obj(map["change_id" := Str(c.changeId), "t_offset_s" := Int(c.offset), "kind" := Str(c.kind),
            "service" := Str(c.service), "summary" := Str(c.summary)])
  }

  lemma ChangeInverse()
    ensures Inverse(DecodeChange, EncodeChange, Any<Change>)
  {
    forall j, c ensures DecodeChange(j) == Some(c) <==> j == EncodeChange(c) {
      if DecodeChange(j) == Some(c) {
        assert j.fields == EncodeChange(c).fields;
      }
    }
  }

  // ---- evidence -----------------------------------------------------------

  // A non-empty text under the only key beside "kind".
  function TextField(j: Json, key: string): Option<string> {
    if Exactly(j, {"kind", key}) && j.fields[key].Str? && j.fields[key].s != "" then Some(j.fields[key].s) else None
  }

  function DecodeConstraint(j: Json): Option<Constraint> {
    if !j.Obj? then None
    else
      var kind := Get(j.fields, "kind");
      if kind == Str("log_line_contains") then
        var text :- TextField(j, "text");
        Some(LogLineContains(text))
      else if kind == Str("change_id_equals") then
        var id :- TextField(j, "change_id");
        Some(ChangeIdEquals(id))
      else if kind == Str("runbook_has_remediation") then
        var id :- TextField(j, "remediation_id");
        Some(RunbookHasRemediation(id))
      else if kind == Str("metric_available") then
        var metric :- TextField(j, "metric");
        Some(MetricAvailable(metric))
      else if kind == Str("health_component_status") && Exactly(j, {"kind", "component", "status"}) then
        var component :- DecodeText(j.fields["component"]);
        var status :- DecodeText(j.fields["status"]);
        if component == "" || status == "" then None else Some(HealthComponentStatus(component, status))
      else None
  }

  function EncodeConstraint(c: Constraint): Json {
    match c
    case LogLineContains(text) => Obj(map["kind" := Str("log_line_contains"), "text" := Str(text)])
    case ChangeIdEquals(id) => Obj(map["kind" := Str("change_id_equals"), "change_id" := Str(id)])
    case RunbookHasRemediation(id) => Obj(map["kind" := Str("runbook_has_remediation"), "remediation_id" := Str(id)])
    case MetricAvailable(metric) => Obj(map["kind" := Str("metric_available"), "metric" := Str(metric)])
    case HealthComponentStatus(component, status) =>
      Obj(map["kind" := Str("health_component_status"), "component" := Str(component), "status" := Str(status)])
  }

  predicate ValidConstraint(c: Constraint) {
    match c
    case LogLineContains(text) => text != ""
    case ChangeIdEquals(id) => id != ""
    case RunbookHasRemediation(id) => id != ""
    case MetricAvailable(metric) => metric != ""
    case HealthComponentStatus(component, status) => component != "" && status != ""
  }

  lemma DecodedConstraint(j: Json)
    requires DecodeConstraint(j).Some?
    ensures ValidConstraint(DecodeConstraint(j).value) && j == EncodeConstraint(DecodeConstraint(j).value)
  {
    var c := DecodeConstraint(j).value;
    assert j.fields == EncodeConstraint(c).fields;
  }

  lemma EncodedConstraint(c: Constraint)
    requires ValidConstraint(c)
    ensures DecodeConstraint(EncodeConstraint(c)) == Some(c)
  {
  }

  lemma ConstraintInverse()
    ensures Inverse(DecodeConstraint, EncodeConstraint, ValidConstraint)
  {
    hide DecodeConstraint, EncodeConstraint, ValidConstraint;
    forall j, c ensures DecodeConstraint(j) == Some(c) <==> ValidConstraint(c) && j == EncodeConstraint(c) {
      if DecodeConstraint(j).Some? {
        DecodedConstraint(j);
      }
      if ValidConstraint(c) {
        EncodedConstraint(c);
      }
    }
  }

  // A two-item list of an argument name, which is not empty, and a text.
  function DecodePair(j: Json): Option<(string, string)> {
    if j.Arr? && |j.items| == 2 && j.items[0].Str? && j.items[1].Str? && j.items[0].s != ""
    then Some((j.items[0].s, j.items[1].s))
    else None
  }

  function EncodePair(p: (string, string)): Json {
    Arr([Str(p.0), Str(p.1)])
  }

  predicate ValidPair(p: (string, string)) {
    p.0 != ""
  }

  lemma PairInverse()
    ensures Inverse(DecodePair, EncodePair, ValidPair)
  {
    forall j, p ensures DecodePair(j) == Some(p) <==> ValidPair(p) && j == EncodePair(p) {
      if DecodePair(j) == Some(p) {
        assert j.items == EncodePair(p).items;
      }
    }
  }

  function DecodeAlternative(j: Json): Option<Alternative> {
    if Exactly(j, {"tool", "result", "argument_contains"}) then
      var tool :- DecodeText(j.fields["tool"]);
      if tool !in KNOWN_TOOLS then None
      else
        var pairs :- DecodeList(DecodePair, j.fields["argument_contains"]);
        var result :- DecodeConstraint(j.fields["result"]);
        Some(Alternative(tool, pairs, result))
    else None
  }

  function EncodeAlternative(a: Alternative): Json {
    Obj(map["tool" := Str(a.tool), "result" := EncodeConstraint(a.result),
            "argument_contains" := EncodeList(EncodePair, a.argumentContains)])
  }

  predicate ValidAlternative(a: Alternative) {
    a.tool in KNOWN_TOOLS && Every(ValidPair, a.argumentContains) && ValidConstraint(a.result)
  }

  lemma AlternativeInverse()
    ensures Inverse(DecodeAlternative, EncodeAlternative, ValidAlternative)
  {
    hide DecodeConstraint, EncodeConstraint, ValidConstraint, DecodePair, EncodePair, DecodeList, EncodeList, Every,
         KNOWN_TOOLS;
    PairInverse();
    ConstraintInverse();
    forall j, a ensures DecodeAlternative(j) == Some(a) <==> ValidAlternative(a) && j == EncodeAlternative(a) {
      if Exactly(j, {"tool", "result", "argument_contains"}) {
        ListInverse(DecodePair, EncodePair, ValidPair, j.fields["argument_contains"], a.argumentContains);
        assert DecodeConstraint(j.fields["result"]) == Some(a.result) <==>
               ValidConstraint(a.result) && j.fields["result"] == EncodeConstraint(a.result);
        if DecodeAlternative(j) == Some(a) {
          assert j.fields == EncodeAlternative(a).fields;
        }
      }
    }
  }

  function DecodePredicate(j: Json): Option<EvidencePredicate> {
    if Exactly(j, {"predicate_id", "description", "alternatives"}) then
      var id :- DecodeText(j.fields["predicate_id"]);
      var description :- DecodeText(j.fields["description"]);
      var alternatives :- DecodeList(DecodeAlternative, j.fields["alternatives"]);
      Some(EvidencePredicate(id, description, alternatives))
    else None
  }

  function EncodePredicate(p: EvidencePredicate): Json {
    Obj(map["predicate_id" := Str(p.id), "description" := Str(p.description),
            "alternatives" := EncodeList(EncodeAlternative, p.alternatives)])
  }

  predicate ValidPredicate(p: EvidencePredicate) {
    Every(ValidAlternative, p.alternatives)
  }

  lemma PredicateInverse()
    ensures Inverse(DecodePredicate, EncodePredicate, ValidPredicate)
  {
    hide DecodeAlternative, EncodeAlternative, ValidAlternative, DecodeList, EncodeList, Every;
    AlternativeInverse();
    forall j, p ensures DecodePredicate(j) == Some(p) <==> ValidPredicate(p) && j == EncodePredicate(p) {
      if Exactly(j, {"predicate_id", "description", "alternatives"}) {
        ListInverse(DecodeAlternative, EncodeAlternative, ValidAlternative, j.fields["alternatives"], p.alternatives);
        if DecodePredicate(j) == Some(p) {
          assert j.fields == EncodePredicate(p).fields;
        }
      }
    }
  }

  predicate DistinctIds(ps: seq<EvidencePredicate>) {
    forall i, j :: 0 <= i < j < |ps| ==> ps[i].id != ps[j].id
  }

  function DecodePredicates(j: Json): Option<seq<EvidencePredicate>> {
    var ps :- DecodeList(DecodePredicate, j);
    if DistinctIds(ps) then Some(ps) else None
  }

  function Ids(ps: seq<EvidencePredicate>): set<string> {
    set k | 0 <= k < |ps| :: ps[k].id
  }

  lemma OneMoreId(ps: seq<EvidencePredicate>, p: EvidencePredicate)
    ensures Ids(ps + [p]) == Ids(ps) + {p.id}
  {
    var more := ps + [p];
    assert forall k :: 0 <= k < |ps| ==> more[k] == ps[k];
    assert more[|ps|].id in Ids(more);
    forall id | id in Ids(ps) ensures id in Ids(more) {
      var k :| 0 <= k < |ps| && ps[k].id == id;
      assert more[k].id == id;
    }
  }

  // The loop that refuses a repeated id as soon as it is seen.
  method Predicates(raw: seq<Json>) returns (r: Option<seq<EvidencePredicate>>)
    ensures r == DecodePredicates(Arr(raw))
  {
    hide DecodePredicate;
    var predicates: seq<EvidencePredicate>, seen: set<string> := [], {};
    var i := 0;
    while i < |raw|
      invariant 0 <= i <= |raw|
      invariant DecodeAll(DecodePredicate, raw[..i]) == Some(predicates)
      invariant DistinctIds(predicates)
      invariant seen == Ids(predicates)
    {
      assert raw[..i + 1][..i] == raw[..i];
      var next := DecodePredicate(raw[i]);
      if next.None? {
        PrefixFails(DecodePredicate, raw, i + 1);
        return None;
      }
      if next.value.id in seen {
        RepeatedId(raw, i, predicates, next.value);
        return None;
      }
      OneMoreId(predicates, next.value);
      seen := seen + {next.value.id};
      predicates := predicates + [next.value];
      i := i + 1;
    }
    assert raw[..i] == raw;
    return Some(predicates);
  }

  lemma {:induction false} PrefixFails<T>(decode: Json -> Option<T>, js: seq<Json>, k: nat)
    requires k <= |js| && DecodeAll(decode, js[..k]).None?
    ensures DecodeAll(decode, js).None?
    decreases |js|
  {
    if k == |js| {
      assert js[..k] == js;
    } else {
      assert js[..|js| - 1][..k] == js[..k];
      PrefixFails(decode, js[..|js| - 1], k);
    }
  }

  // A later list of the same documents starts with what the prefix decodes to.
  lemma {:induction false} PrefixDecodes<T>(decode: Json -> Option<T>, js: seq<Json>, k: nat)
    requires k <= |js| && DecodeAll(decode, js).Some?
    ensures DecodeAll(decode, js[..k]).Some? && DecodeAll(decode, js[..k]).value <= DecodeAll(decode, js).value
    decreases |js|
  {
    if k == |js| {
      assert js[..k] == js;
    } else {
      assert js[..|js| - 1][..k] == js[..k];
      PrefixDecodes(decode, js[..|js| - 1], k);
    }
  }

  lemma RepeatedId(raw: seq<Json>, i: nat, predicates: seq<EvidencePredicate>, next: EvidencePredicate)
    requires i < |raw| && DecodeAll(DecodePredicate, raw[..i]) == Some(predicates)
    requires DecodePredicate(raw[i]) == Some(next)
    requires next.id in Ids(predicates)
    ensures DecodePredicates(Arr(raw)).None?
  {
    hide DecodePredicate;
    assert raw[..i + 1][..i] == raw[..i];
    var all := DecodeAll(DecodePredicate, raw);
    if all.Some? {
      PrefixDecodes(DecodePredicate, raw, i + 1);
      var k :| 0 <= k < |predicates| && predicates[k].id == next.id;
      var shown := predicates + [next];
      assert shown <= all.value;
      assert all.value[k] == shown[k] && all.value[|predicates|] == shown[|predicates|];
    }
  }

  lemma PredicatesInverse(j: Json, ps: seq<EvidencePredicate>)
    ensures DecodePredicates(j) == Some(ps) <==>
            Every(ValidPredicate, ps) && DistinctIds(ps) && j == EncodeList(EncodePredicate, ps)
  {
    hide DecodePredicate, EncodePredicate, ValidPredicate, DecodeList, EncodeList, Every;
    PredicateInverse();
    ListInverse(DecodePredicate, EncodePredicate, ValidPredicate, j, ps);
  }

  function DecodeStep(j: Json): Option<ToolStep> {
    if Exactly(j, {"tool", "arguments"}) && j.fields["arguments"].Obj? then
      var tool :- DecodeText(j.fields["tool"]);
      if tool in KNOWN_TOOLS then Some(ToolStep(tool, j.fields["arguments"].fields)) else None
    else None
  }

  function EncodeStep(s: ToolStep): Json {
    Obj(map["tool" := Str(s.tool), "arguments" := Obj(s.arguments)])
  }

  predicate ValidStep(s: ToolStep) {
    s.tool in KNOWN_TOOLS
  }

  lemma StepInverse()
    ensures Inverse(DecodeStep, EncodeStep, ValidStep)
  {
    hide KNOWN_TOOLS;
    forall j, s ensures DecodeStep(j) == Some(s) <==> ValidStep(s) && j == EncodeStep(s) {
      if DecodeStep(j) == Some(s) {
        assert j.fields == EncodeStep(s).fields;
      }
    }
  }

  // ---- the scenario -------------------------------------------------------

  const NARRATIVE_KEYS := {
    "scenario_id", "incident_class", "title", "description", "affected_service", "root_cause_summary"}
  const SURFACE_KEYS := {"health", "metrics", "logs", "runbooks", "recent_changes"}
  const ANSWER_KEYS := {
    "root_cause_id", "accepted_diagnoses", "distractor_diagnoses", "accepted_remediations", "distractor_remediations"}
  const EVIDENCE_KEYS := {"evidence_predicates", "reference_tool_sequence", "alternative_tool_sequence"}

  function DecodeNarrative(m: map<string, Json>): Option<Narrative> {
    var scenarioId :- DecodeText(Get(m, "scenario_id"));
    var incidentClass :- DecodeText(Get(m, "incident_class"));
    var title :- DecodeText(Get(m, "title"));
    var description :- DecodeText(Get(m, "description"));
    var affectedService :- DecodeText(Get(m, "affected_service"));
    var rootCauseSummary :- DecodeText(Get(m, "root_cause_summary"));
    Some(Narrative(scenarioId, incidentClass, title, description, affectedService, rootCauseSummary))
  }

  function EncodeNarrative(n: Narrative): (r: map<string, Json>)
    ensures r.Keys == NARRATIVE_KEYS
  {
    map["scenario_id" := Str(n.scenarioId), "incident_class" := Str(n.incidentClass), "title" := Str(n.title),
        "description" := Str(n.description), "affected_service" := Str(n.affectedService),
        "root_cause_summary" := Str(n.rootCauseSummary)]
  }

  lemma NarrativeInverse(m: map<string, Json>, n: Narrative)
    ensures DecodeNarrative(m) == Some(n) <==> Agrees(m, EncodeNarrative(n))
  {
    var part := EncodeNarrative(n);
    if Agrees(m, part) {
      assert forall k :: k in NARRATIVE_KEYS ==> k in part;
      assert "scenario_id" in part && "incident_class" in part && "title" in part && "description" in part;
      assert "affected_service" in part && "root_cause_summary" in part;
    }
  }

  function DecodeSurface(m: map<string, Json>): Option<Surface> {
    var health :- DecodeMap(DecodeComponents, Get(m, "health"));
    var metrics :- DecodeMap(DecodeSeries, Get(m, "metrics"));
    var logs :- DecodeList(DecodeLine, Get(m, "logs"));
    var runbooks :- DecodeMap(DecodeRunbook, Get(m, "runbooks"));
    var changes :- DecodeList(DecodeChange, Get(m, "recent_changes"));
    Some(Surface(health, metrics, logs, runbooks, changes))
  }

  function EncodeSurface(s: Surface): (r: map<string, Json>)
    ensures r.Keys == SURFACE_KEYS
  {
    map["health" := EncodeMap(EncodeComponents, s.health), "metrics" := EncodeMap(EncodeSeries, s.metrics),
        "logs" := EncodeList(EncodeLine, s.logs), "runbooks" := EncodeMap(EncodeRunbook, s.runbooks),
        "recent_changes" := EncodeList(EncodeChange, s.recentChanges)]
  }

  predicate ValidSurface(s: Surface) {
    EveryValue(ValidSeries, s.metrics)
  }

  lemma SurfaceFields(m: map<string, Json>, s: Surface)
    ensures DecodeMap(DecodeComponents, Get(m, "health")) == Some(s.health) <==>
            Get(m, "health") == EncodeMap(EncodeComponents, s.health)
    ensures DecodeMap(DecodeSeries, Get(m, "metrics")) == Some(s.metrics) <==>
            EveryValue(ValidSeries, s.metrics) && Get(m, "metrics") == EncodeMap(EncodeSeries, s.metrics)
    ensures DecodeList(DecodeLine, Get(m, "logs")) == Some(s.logs) <==>
            Get(m, "logs") == EncodeList(EncodeLine, s.logs)
    ensures DecodeMap(DecodeRunbook, Get(m, "runbooks")) == Some(s.runbooks) <==>
            Get(m, "runbooks") == EncodeMap(EncodeRunbook, s.runbooks)
    ensures DecodeList(DecodeChange, Get(m, "recent_changes")) == Some(s.recentChanges) <==>
            Get(m, "recent_changes") == EncodeList(EncodeChange, s.recentChanges)
  {
    hide DecodeComponents, EncodeComponents, DecodeSeries, EncodeSeries, DecodeLine, EncodeLine, DecodeRunbook,
         EncodeRunbook, DecodeChange, EncodeChange, DecodeMap, EncodeMap, DecodeList, EncodeList, EveryValue, Every;
    ComponentsInverse();
    MapInverse(DecodeComponents, EncodeComponents, Any<map<string, string>>, Get(m, "health"), s.health);
    AnyValue(s.health);
    SeriesInverse();
    MapInverse(DecodeSeries, EncodeSeries, ValidSeries, Get(m, "metrics"), s.metrics);
    LineInverse();
    ListInverse(DecodeLine, EncodeLine, Any<LogLine>, Get(m, "logs"), s.logs);
    AnyItem(s.logs);
    RunbookInverse();
    MapInverse(DecodeRunbook, EncodeRunbook, Any<Runbook>, Get(m, "runbooks"), s.runbooks);
    AnyValue(s.runbooks);
    ChangeInverse();
    ListInverse(DecodeChange, EncodeChange, Any<Change>, Get(m, "recent_changes"), s.recentChanges);
    AnyItem(s.recentChanges);
  }

  lemma SurfaceInverse(m: map<string, Json>, s: Surface)
    ensures DecodeSurface(m) == Some(s) <==> ValidSurface(s) && Agrees(m, EncodeSurface(s))
  {
    SurfaceFields(m, s);
    NotNull(s);
    hide DecodeMap, EncodeMap, DecodeList, EncodeList, EveryValue;
    var part := EncodeSurface(s);
    assert Agrees(m, part) <==>
           && Get(m, "health") == part["health"] && Get(m, "metrics") == part["metrics"]
           && Get(m, "logs") == part["logs"]
           && Get(m, "runbooks") == part["runbooks"] && Get(m, "recent_changes") == part["recent_changes"];
  }

  lemma NotNull(s: Surface)
    ensures Null !in EncodeSurface(s).Values
  {
    forall k | k in EncodeSurface(s) ensures EncodeSurface(s)[k] != Null {
    }
  }

  function UniqueTexts(j: Json): Option<seq<string>> {
    var ts :- DecodeList(DecodeText, j);
    if |Elements(ts)| == |ts| then Some(ts) else None
  }

  lemma UniqueTextsInverse(j: Json, ts: seq<string>)
    ensures UniqueTexts(j) == Some(ts) <==> Distinct(ts) && j == EncodeList(EncodeText, ts)
  {
    TextsInverse(j, ts);
    DistinctSize(ts);
  }

  predicate Disjoint(a: seq<string>, b: seq<string>) {
    Elements(a) * Elements(b) == {}
  }

  function DecodeAnswers(m: map<string, Json>): Option<Answers> {
    var accepted :- UniqueTexts(Get(m, "accepted_diagnoses"));
    var distractors :- UniqueTexts(Get(m, "distractor_diagnoses"));
    var remediations :- UniqueTexts(Get(m, "accepted_remediations"));
    var others :- UniqueTexts(Get(m, "distractor_remediations"));
    var rootCause :- DecodeText(Get(m, "root_cause_id"));
    if !Disjoint(accepted, distractors) || !Disjoint(remediations, others) || rootCause !in accepted then None
    else Some(Answers(rootCause, accepted, distractors, remediations, others))
  }

  function EncodeAnswers(a: Answers): (r: map<string, Json>)
    ensures r.Keys == ANSWER_KEYS
  {
    map["root_cause_id" := Str(a.rootCauseId), "accepted_diagnoses" := EncodeList(EncodeText, a.acceptedDiagnoses),
        "distractor_diagnoses" := EncodeList(EncodeText, a.distractorDiagnoses),
        "accepted_remediations" := EncodeList(EncodeText, a.acceptedRemediations),
        "distractor_remediations" := EncodeList(EncodeText, a.distractorRemediations)]
  }

  predicate ValidAnswers(a: Answers) {
    && Distinct(a.acceptedDiagnoses) && Distinct(a.distractorDiagnoses)
    && Distinct(a.acceptedRemediations) && Distinct(a.distractorRemediations)
    && Disjoint(a.acceptedDiagnoses, a.distractorDiagnoses)
    && Disjoint(a.acceptedRemediations, a.distractorRemediations)
    && a.rootCauseId in a.acceptedDiagnoses
  }

  lemma AnswersInverse(m: map<string, Json>, a: Answers)
    ensures DecodeAnswers(m) == Some(a) <==> ValidAnswers(a) && Agrees(m, EncodeAnswers(a))
  {
    UniqueTextsInverse(Get(m, "accepted_diagnoses"), a.acceptedDiagnoses);
    UniqueTextsInverse(Get(m, "distractor_diagnoses"), a.distractorDiagnoses);
    UniqueTextsInverse(Get(m, "accepted_remediations"), a.acceptedRemediations);
    UniqueTextsInverse(Get(m, "distractor_remediations"), a.distractorRemediations);
    ListsAreNotNull(a);
    hide EncodeList, UniqueTexts, Distinct, Disjoint;
    var part := EncodeAnswers(a);
    assert Agrees(m, part) <==>
           && Get(m, "root_cause_id") == part["root_cause_id"]
           && Get(m, "accepted_diagnoses") == part["accepted_diagnoses"]
           && Get(m, "distractor_diagnoses") == part["distractor_diagnoses"]
           && Get(m, "accepted_remediations") == part["accepted_remediations"]
           && Get(m, "distractor_remediations") == part["distractor_remediations"];
  }

  lemma ListsAreNotNull(a: Answers)
    ensures Null !in EncodeAnswers(a).Values
  {
    forall k | k in EncodeAnswers(a) ensures EncodeAnswers(a)[k] != Null {
    }
  }

  function DecodeEvidence(m: map<string, Json>): Option<Evidence> {
    var predicates :- DecodePredicates(Get(m, "evidence_predicates"));
    var reference :- DecodeList(DecodeStep, Get(m, "reference_tool_sequence"));
    var alternative :- DecodeList(DecodeStep, Get(m, "alternative_tool_sequence"));
    Some(Evidence(predicates, reference, alternative))
  }

  function EncodeEvidence(e: Evidence): (r: map<string, Json>)
    ensures r.Keys == EVIDENCE_KEYS
  {
    map["evidence_predicates" := EncodeList(EncodePredicate, e.predicates),
        "reference_tool_sequence" := EncodeList(EncodeStep, e.reference),
        "alternative_tool_sequence" := EncodeList(EncodeStep, e.alternative)]
  }

  predicate ValidEvidence(e: Evidence) {
    && Every(ValidPredicate, e.predicates) && DistinctIds(e.predicates)
    && Every(ValidStep, e.reference) && Every(ValidStep, e.alternative)
  }

  lemma EvidenceInverse(m: map<string, Json>, e: Evidence)
    ensures DecodeEvidence(m) == Some(e) <==> ValidEvidence(e) && Agrees(m, EncodeEvidence(e))
  {
    PredicatesInverse(Get(m, "evidence_predicates"), e.predicates);
    StepInverse();
    ListInverse(DecodeStep, EncodeStep, ValidStep, Get(m, "reference_tool_sequence"), e.reference);
    ListInverse(DecodeStep, EncodeStep, ValidStep, Get(m, "alternative_tool_sequence"), e.alternative);
    hide DecodePredicates, DecodeList, EncodeList, Every, DistinctIds;
    EvidenceAgrees(m, e);
  }

  lemma EvidenceAgrees(m: map<string, Json>, e: Evidence)
    ensures var part := EncodeEvidence(e);
            Agrees(m, part) <==>
            && Get(m, "evidence_predicates") == part["evidence_predicates"]
            && Get(m, "reference_tool_sequence") == part["reference_tool_sequence"]
            && Get(m, "alternative_tool_sequence") == part["alternative_tool_sequence"]
  {
    EvidenceIsNotNull(e);
    hide EncodeList;
  }

  lemma EvidenceIsNotNull(e: Evidence)
    ensures Null !in EncodeEvidence(e).Values
  {
    forall k | k in EncodeEvidence(e) ensures EncodeEvidence(e)[k] != Null {
    }
  }

  predicate ValidScenario(s: Scenario) {
    ValidSurface(s.surface) && ValidAnswers(s.answers) && ValidEvidence(s.evidence)
  }

  function DecodeScenario(j: Json): Option<Scenario> {
    if Exactly(j, NARRATIVE_KEYS + SURFACE_KEYS + ANSWER_KEYS + EVIDENCE_KEYS) then
      var answers :- DecodeAnswers(j.fields);
      var narrative :- DecodeNarrative(j.fields);
      var surface :- DecodeSurface(j.fields);
      var evidence :- DecodeEvidence(j.fields);
      Some(Scenario.Scenario(narrative, surface, answers, evidence))
    else None
  }

  // scenario_document
  function EncodeScenario(s: Scenario): Json {
    Obj(EncodeNarrative(s.narrative) + EncodeSurface(s.surface) + EncodeAnswers(s.answers) + EncodeEvidence(s.evidence))
  }

  lemma KeysAreDisjoint()
    ensures NARRATIVE_KEYS !! SURFACE_KEYS !! ANSWER_KEYS !! EVIDENCE_KEYS
  {
  }

  lemma ScenarioInverse()
    ensures Inverse(DecodeScenario, EncodeScenario, ValidScenario)
  {
    hide DecodeNarrative, EncodeNarrative, DecodeSurface, EncodeSurface, DecodeAnswers, EncodeAnswers, DecodeEvidence,
         EncodeEvidence, ValidSurface, ValidAnswers, ValidEvidence, Agrees, NARRATIVE_KEYS, SURFACE_KEYS, ANSWER_KEYS,
         EVIDENCE_KEYS;
    forall j, s ensures DecodeScenario(j) == Some(s) <==> ValidScenario(s) && j == EncodeScenario(s) {
      KeysAreDisjoint();
      var keys := NARRATIVE_KEYS + SURFACE_KEYS + ANSWER_KEYS + EVIDENCE_KEYS;
      var n, f, a, e :=
        EncodeNarrative(s.narrative), EncodeSurface(s.surface), EncodeAnswers(s.answers), EncodeEvidence(s.evidence);
      assert (n + f + a + e).Keys == keys;
      if Exactly(j, keys) {
        NarrativeInverse(j.fields, s.narrative);
        SurfaceInverse(j.fields, s.surface);
        AnswersInverse(j.fields, s.answers);
        EvidenceInverse(j.fields, s.evidence);
        AgreesSum(j.fields, n, f);
        AgreesSum(j.fields, n + f, a);
        AgreesSum(j.fields, n + f + a, e);
        AgreesExactly(j.fields, n + f + a + e);
      }
    }
  }

  // ---- sealed tasks -------------------------------------------------------

  function EncodeInstance(i: Instance): Json {
    Obj(map["instance_seed" := Int(i.seed), "tracking_id" := Str(i.trackingId),
            "reported_minute" := Int(i.reportedMinute)])
  }

  function DecodeInstance(j: Json, id: string, scenario: Scenario): Option<Instance> {
    if Exactly(j, {"instance_seed", "tracking_id", "reported_minute"}) then
      var seed :- DecodeInt(j.fields["instance_seed"]);
      var trackingId :- DecodeText(j.fields["tracking_id"]);
      var reportedMinute :- DecodeInt(j.fields["reported_minute"]);
      Some(Instance(scenario.narrative.scenarioId, id, seed, trackingId, reportedMinute))
    else None
  }

  predicate ValidTask(t: SealedTask) {
    && ValidId(t.id) && ValidScenario(t.scenario)
    && t.instance.templateId == t.scenario.narrative.scenarioId && t.instance.instanceId == t.id
  }

  // The task document; limits stands for the schema's bounds on sizes and on
  // the form of single texts.
  function DecodeSealedTask(limits: Json -> bool, j: Json, expectedId: string): Option<SealedTask> {
    if !ValidId(expectedId) || !limits(j) then None
    else if !Exactly(j, {"payload_schema_version", "kind", "task_id", "instance", "scenario"}) then None
    else if j.fields["payload_schema_version"] != Str(PAYLOAD_SCHEMA_VERSION) || j.fields["kind"] != Str(PAYLOAD_KIND)
            || j.fields["task_id"] != Str(expectedId)
    then None
    else
      var scenario :- DecodeScenario(j.fields["scenario"]);
      var instance :- DecodeInstance(j.fields["instance"], expectedId, scenario);
      Some(SealedTask(expectedId, instance, scenario))
  }

  function EncodeSealedTask(t: SealedTask): Json {
    Obj(map["payload_schema_version" := Str(PAYLOAD_SCHEMA_VERSION), "kind" := Str(PAYLOAD_KIND), "task_id" :=
      Str(t.id),
            "instance" := EncodeInstance(t.instance), "scenario" := EncodeScenario(t.scenario)])
  }

  lemma InstanceInverse(j: Json, id: string, scenario: Scenario, i: Instance)
    ensures DecodeInstance(j, id, scenario) == Some(i) <==>
            j == EncodeInstance(i) && i.templateId == scenario.narrative.scenarioId && i.instanceId == id
  {
    if DecodeInstance(j, id, scenario) == Some(i) {
      assert j.fields == EncodeInstance(i).fields;
    }
  }

  // A document decodes to a task exactly when it is within the limits, the value
  // is valid and carries the expected id, and the document is its encoding:
  // decoding an encoded task returns it, and nothing else is accepted.
  lemma DecodingInvertsEncoding(limits: Json -> bool, j: Json, expectedId: string, t: SealedTask)
    ensures DecodeSealedTask(limits, j, expectedId) == Some(t) <==>
            limits(j) && ValidTask(t) && t.id == expectedId && j == EncodeSealedTask(t)
  {
    hide DecodeScenario, EncodeScenario, ValidScenario, DecodeInstance, EncodeInstance, ValidId;
    ScenarioInverse();
    if Exactly(j, {"payload_schema_version", "kind", "task_id", "instance", "scenario"}) {
      InstanceInverse(j.fields["instance"], expectedId, t.scenario, t.instance);
      assert DecodeScenario(j.fields["scenario"]) == Some(t.scenario) <==>
             ValidScenario(t.scenario) && j.fields["scenario"] == EncodeScenario(t.scenario);
      if DecodeSealedTask(limits, j, expectedId) == Some(t) {
        assert j.fields == EncodeSealedTask(t).fields;
      }
    }
  }

  // ---- bytes --------------------------------------------------------------

  // JSON text: parsing refuses repeated keys and non-finite numbers, and reads
  // back every document the encoder prints.
  datatype Text = Text(print_: Json -> string, parse: string -> Option<Json>)

  ghost predicate ReadsBack(text: Text, j: Json) {
    text.parse(text.print_(j)) == Some(j)
  }

  function DecodeBytes(text: Text, limits: Json -> bool, payload: string, expectedId: string): Option<SealedTask> {
    if payload == "" || |payload| > MAX_PAYLOAD_BYTES then None
    else
      var j :- text.parse(payload);
      DecodeSealedTask(limits, j, expectedId)
  }

  // Encode, then decode: the same task, for every valid task whose payload
  // keeps within the limits.
  lemma PayloadRoundTrip(text: Text, limits: Json -> bool, t: SealedTask)
    requires ValidTask(t) && limits(EncodeSealedTask(t)) && ReadsBack(text, EncodeSealedTask(t))
    requires 0 < |text.print_(EncodeSealedTask(t))| <= MAX_PAYLOAD_BYTES
    ensures DecodeBytes(text, limits, text.print_(EncodeSealedTask(t)), t.id) == Some(t)
    ensures forall other :: other != t.id ==> DecodeBytes(text, limits, text.print_(EncodeSealedTask(t)), other).None?
  {
    hide ValidTask, EncodeSealedTask, DecodeSealedTask;
    var j := EncodeSealedTask(t);
    DecodingInvertsEncoding(limits, j, t.id, t);
    forall other | other != t.id ensures DecodeBytes(text, limits, text.print_(j), other).None? {
      OtherId(limits, t, other);
    }
  }

  lemma OtherId(limits: Json -> bool, t: SealedTask, other: string)
    requires other != t.id
    ensures DecodeSealedTask(limits, EncodeSealedTask(t), other).None?
  {
    hide EncodeScenario, EncodeInstance, DecodeScenario, DecodeInstance;
  }
}
