/** Qualification metrics and gates (src/blackwell_lab/cloud/qualification.py). */
module Qualification {
  import opened Common
  import opened RealAverages
  import opened Ordering
  import Agent = AgentLoop
  import Telemetry

  const STUDY_ENTRY_MIN_AGGREGATE := 0.60
  const STUDY_ENTRY_MIN_SCENARIO := 0.40
  const PRODUCTION_LIKE_MIN_AGGREGATE := 0.90
  const PRODUCTION_LIKE_MIN_SCENARIO := 0.80
  const MIN_VALID_NATIVE_TOOL_CALL_RATE := 0.99
  const MAX_INVALID_TOOL_NAME_RATE := 0.0
  const MAX_INVALID_ARGUMENT_RATE := 0.01
  const MAX_REQUEST_INFERENCE_ERROR_RATE := 0.01
  const MAX_TIMEOUTS := 0
  const MAX_INTERACTIVE_TTFT_P95_MS := 2500.0
  const MAX_INTERACTIVE_E2E_P95_MS := 60000.0

  // One persisted observation, as _field reads it.
  datatype Observation = Observation(
    template: string, success: bool, category: Option<Agent.Category>, toolCalls: nat, e2e: Option<real>,
    ttft: Option<real>)

  datatype Metrics = Metrics(
    attempted: nat, succeeded: nat, aggregateQuality: real,
    scenarioQuality: map<string, real>, scenarioAttempted: map<string, nat>,
    validToolCallRate: real, invalidNameRate: real, invalidArgumentRate: real, inferenceErrorRate: real, timeouts: nat,
    ttftP95: Option<real>, e2eP95: Option<real>, provenanceOk: bool, verificationOk: bool)

  datatype Refused = NoObservations | NoToolCalls

  // ---- counts -------------------------------------------------------------

  function Attempts(s: seq<Observation>, template: string): nat {
    if s == [] then 0 else Attempts(s[..|s| - 1], template) + (if s[|s| - 1].template == template then 1 else 0)
  }

  function Successes(s: seq<Observation>, template: string): nat {
    if s == [] then 0
    else
      var last := s[|s| - 1];
      Successes(s[..|s| - 1], template) + (if last.template == template && last.success then 1 else 0)
  }

  function AllSuccesses(s: seq<Observation>): nat {
    if s == [] then 0 else AllSuccesses(s[..|s| - 1]) + (if s[|s| - 1].success then 1 else 0)
  }

  function CategoryCount(s: seq<Observation>, categories: set<Agent.Category>): (n: nat)
    ensures n <= |s|
  {
    if s == [] then 0
    else
      var c := s[|s| - 1].category;
      CategoryCount(s[..|s| - 1], categories) + (if c.Some? && c.value in categories then 1 else 0)
  }

  function ToolCalls(s: seq<Observation>): nat {
    if s == [] then 0 else ToolCalls(s[..|s| - 1]) + s[|s| - 1].toolCalls
  }

  const STRUCTURAL_TOOL_FAILURES := {Agent.MalformedToolCall, Agent.InvalidToolName, Agent.InvalidToolArguments}

  function Ttfts(s: seq<Observation>): seq<real> {
    if s == [] then []
    else
      var value := s[|s| - 1].ttft;
      Ttfts(s[..|s| - 1]) + (if value.Some? then [value.value] else [])
  }

  function E2es(s: seq<Observation>): seq<real> {
    if s == [] then []
    else
      var value := s[|s| - 1].e2e;
      E2es(s[..|s| - 1]) + (if value.Some? then [value.value] else [])
  }

  function P95Of(values: seq<real>): Option<real> {
    if values == [] then None else Some(Telemetry.P95(values))
  }

  function Templates(s: seq<Observation>): set<string> {
    set o | o in s :: o.template
  }

  lemma {:induction false} SuccessesWithinAttempts(s: seq<Observation>, template: string)
    ensures Successes(s, template) <= Attempts(s, template)
    ensures Attempts(s, template) > 0 <==> template in Templates(s)
  {
    if s != [] {
      var n := |s| - 1;
      SuccessesWithinAttempts(s[..n], template);
      assert s == s[..n] + [s[n]];
    }
  }

  // Successes over attempts; an unobserved template scores zero.
  function Quality(s: seq<Observation>, template: string): real {
    Share(Successes(s, template), Attempts(s, template))
  }

  function Reported(s: seq<Observation>, expected: Option<seq<string>>): set<string> {
    if expected.Some? then Elements(expected.value) else Templates(s)
  }

  predicate IsScenarioQuality(m: map<string, real>, s: seq<Observation>, expected: Option<seq<string>>) {
    m.Keys == Reported(s, expected) && forall t :: t in m ==> m[t] == Quality(s, t)
  }

  ghost predicate CountsAttempts(m: map<string, nat>, s: seq<Observation>) {
    forall t :: (t in m <==> Attempts(s, t) > 0) && (t in m ==> m[t] == Attempts(s, t))
  }

  ghost predicate CountsSuccesses(m: map<string, nat>, s: seq<Observation>) {
    forall t :: (t in m <==> Successes(s, t) > 0) && (t in m ==> m[t] == Successes(s, t))
  }

  function Add(m: map<string, nat>, t: string): map<string, nat> {
    m[t := CountIn(m, t) + 1]
  }

  // A Counter: an absent template counts zero.
  method CountScenarios(s: seq<Observation>) returns (attempted: map<string, nat>, succeeded: map<string, nat>)
    ensures CountsAttempts(attempted, s) && CountsSuccesses(succeeded, s)
  {
    attempted, succeeded := map[], map[];
    var i := 0;
    while i < |s|
      invariant 0 <= i <= |s|
      invariant CountsAttempts(attempted, s[..i]) && CountsSuccesses(succeeded, s[..i])
    {
      var o := s[i];
      assert s[..i + 1][..i] == s[..i];
      assert forall t :: Attempts(s[..i + 1], t) == Attempts(s[..i], t) + if o.template == t then 1 else 0;
      assert forall t ::
        Successes(s[..i + 1], t) == Successes(s[..i], t) + if o.template == t && o.success then 1 else 0;
      attempted := Add(attempted, o.template);
      if o.success {
        succeeded := Add(succeeded, o.template);
      }
      i := i + 1;
    }
    assert s[..i] == s;
  }

  datatype Tally = Tally(
    succeeded: nat, names: nat, arguments: nat, inference: nat, timeouts: nat, calls: nat, structural: nat,
    e2e: seq<real>, ttft: seq<real>)

  function TallyOf(s: seq<Observation>): Tally {
    Tally(AllSuccesses(s), CategoryCount(s, {Agent.InvalidToolName}), CategoryCount(s, {Agent.InvalidToolArguments}),
          CategoryCount(s, {Agent.EndpointError}), CategoryCount(s, {Agent.TaskTimeout}), ToolCalls(s),
          CategoryCount(s, STRUCTURAL_TOOL_FAILURES), E2es(s), Ttfts(s))
  }

  method TallyObservations(s: seq<Observation>) returns (r: Tally)
    ensures r == TallyOf(s)
  {
    r := Tally(0, 0, 0, 0, 0, 0, 0, [], []);
    var i := 0;
    while i < |s|
      invariant 0 <= i <= |s|
      invariant r == TallyOf(s[..i])
    {
      var o := s[i];
      assert s[..i + 1][..i] == s[..i];
      if o.success {
        r := r.(succeeded := r.succeeded + 1);
      }
      if o.category == Some(Agent.InvalidToolName) {
        r := r.(names := r.names + 1);
      }
      if o.category == Some(Agent.InvalidToolArguments) {
        r := r.(arguments := r.arguments + 1);
      }
      if o.category == Some(Agent.EndpointError) {
        r := r.(inference := r.inference + 1);
      }
      if o.category == Some(Agent.TaskTimeout) {
        r := r.(timeouts := r.timeouts + 1);
      }
      r := r.(calls := r.calls + o.toolCalls);
      if o.category.Some? && o.category.value in STRUCTURAL_TOOL_FAILURES {
        r := r.(structural := r.structural + 1);
      }
      if o.e2e.Some? {
        r := r.(e2e := r.e2e + [o.e2e.value]);
      }
      if o.ttft.Some? {
        r := r.(ttft := r.ttft + [o.ttft.value]);
      }
      i := i + 1;
    }
    assert s[..i] == s;
  }

  method ComputeQualificationMetrics(
      s: seq<Observation>, provenanceOk: bool, verificationOk: bool, expected: Option<seq<string>>)
    returns (r: Result<Metrics, Refused>)
    ensures r == Err(NoObservations) <==> s == []
    ensures r == Err(NoToolCalls) <==> s != [] && ToolCalls(s) + CategoryCount(s, STRUCTURAL_TOOL_FAILURES) == 0
    ensures r.Ok? ==>
      Measures(r.value, s, expected) && r.value.provenanceOk == provenanceOk && r.value.verificationOk == verificationOk
  {
    hide Quality, Share, P95Of;
    if s == [] {
      return Err(NoObservations);
    }
    var tally := TallyObservations(s);
    var attempted, succeeded := CountScenarios(s);
    var calls := tally.calls + tally.structural;
    if calls < 1 {
      return Err(NoToolCalls);
    }
    var quality := ScenarioQuality(s, expected, attempted, succeeded);
    return Ok(Metrics(
      |s|, tally.succeeded, Share(tally.succeeded, |s|), quality, attempted, Share(tally.calls, calls),
      Share(tally.names, |s|), Share(tally.arguments, |s|), Share(tally.inference, |s|), tally.timeouts,
      P95Of(tally.ttft), P95Of(tally.e2e), provenanceOk, verificationOk));
  }

  // Counter lookup.
  function CountIn(m: map<string, nat>, t: string): nat {
    if t in m then m[t] else 0
  }

  function ScenarioQuality(
    s: seq<Observation>, expected: Option<seq<string>>, attempted: map<string, nat>, succeeded: map<string, nat>)
    : (r: map<string, real>)
    requires CountsAttempts(attempted, s) && CountsSuccesses(succeeded, s)
    ensures IsScenarioQuality(r, s, expected)
  {
    hide Share, Attempts, Successes, Templates;
    CounterKeys(s, attempted);
    var reported := if expected.Some? then Elements(expected.value) else attempted.Keys;
    map t | t in reported :: Share(CountIn(succeeded, t), CountIn(attempted, t))
  }

  lemma CounterKeys(s: seq<Observation>, attempted: map<string, nat>)
    requires CountsAttempts(attempted, s)
    ensures attempted.Keys == Templates(s)
  {
    forall t ensures t in attempted.Keys <==> t in Templates(s) {
      SuccessesWithinAttempts(s, t);
    }
  }

  // ---- the aggregate and the scenarios ------------------------------------

  function SumAttempts(s: seq<Observation>, templates: seq<string>): nat {
    if templates == [] then 0
      else SumAttempts(s, templates[..|templates| - 1]) + Attempts(s, templates[|templates| - 1])
  }

  // The attempt-weighted total of the scenario qualities.
  function Weighted(s: seq<Observation>, templates: seq<string>): real {
    if templates == [] then 0.0
    else
      var t := templates[|templates| - 1];
      Weighted(s, templates[..|templates| - 1]) + Times(Quality(s, t), Attempts(s, t))
  }

  // Observations whose template is listed, and the successes among them.
  function Within(s: seq<Observation>, templates: seq<string>): seq<Observation> {
    if s == [] then []
    else Within(s[..|s| - 1], templates) + (if s[|s| - 1].template in templates then [s[|s| - 1]] else [])
  }

  predicate Covers(templates: seq<string>, s: seq<Observation>) {
    forall i :: 0 <= i < |s| ==> s[i].template in templates
  }

  predicate CoversSuccesses(templates: seq<string>, s: seq<Observation>) {
    forall i :: 0 <= i < |s| && s[i].success ==> s[i].template in templates
  }

  lemma {:induction false} WithinOne(s: seq<Observation>, front: seq<string>, t: string)
    requires t !in front
    ensures |Within(s, front + [t])| == |Within(s, front)| + Attempts(s, t)
    ensures AllSuccesses(Within(s, front + [t])) == AllSuccesses(Within(s, front)) + Successes(s, t)
  {
    if s != [] {
      var n := |s| - 1;
      WithinOne(s[..n], front, t);
      Extends(Within(s[..n], front + [t]), s[n]);
      Extends(Within(s[..n], front), s[n]);
      WithinStep(s, front);
      WithinStep(s, front + [t]);
      hide Within;
    }
  }

  lemma WithinStep(s: seq<Observation>, templates: seq<string>)
    requires s != []
    ensures var n := |s| - 1;
            Within(s, templates) == Within(s[..n], templates) + (if s[n].template in templates then [s[n]] else [])
  {
  }

  lemma Extends(s: seq<Observation>, o: Observation)
    ensures AllSuccesses(s + [o]) == AllSuccesses(s) + (if o.success then 1 else 0)
    ensures s + [] == s
  {
    assert (s + [o])[..|s|] == s;
  }

  lemma {:induction false} WithinNone(s: seq<Observation>)
    ensures Within(s, []) == []
  {
    if s != [] {
      WithinNone(s[..|s| - 1]);
    }
  }

  // Over distinct templates, the attempts sum to the observations of those
  // templates and the weighted qualities to their successes.
  lemma {:induction false} ScenariosSum(s: seq<Observation>, templates: seq<string>)
    requires Distinct(templates)
    ensures SumAttempts(s, templates) == |Within(s, templates)|
    ensures Weighted(s, templates) == AllSuccesses(Within(s, templates)) as real
  {
    hide Quality, Times;
    if templates == [] {
      WithinNone(s);
    } else {
      var n := |templates| - 1;
      ScenariosSum(s, templates[..n]);
      assert templates[..n] + [templates[n]] == templates;
      WithinOne(s, templates[..n], templates[n]);
      QualityTotal(s, templates[n]);
    }
  }

  lemma QualityTotal(s: seq<Observation>, t: string)
    ensures Times(Quality(s, t), Attempts(s, t)) == Successes(s, t) as real
    ensures 0.0 <= Quality(s, t) <= 1.0
  {
    SuccessesWithinAttempts(s, t);
    hide Times, Share;
    ShareTotal(Successes(s, t), Attempts(s, t));
  }

  lemma {:induction false} WithinAll(s: seq<Observation>, templates: seq<string>)
    ensures |Within(s, templates)| <= |s| && AllSuccesses(Within(s, templates)) <= AllSuccesses(s)
    ensures |Within(s, templates)| == |s| <==> Covers(templates, s)
    ensures AllSuccesses(Within(s, templates)) == AllSuccesses(s) <==> CoversSuccesses(templates, s)
  {
    if s != [] {
      var n := |s| - 1;
      WithinAll(s[..n], templates);
      WithinStep(s, templates);
      Extends(Within(s[..n], templates), s[n]);
      hide Within;
    }
  }

  // The scenario attempts sum to the total exactly when every observed template
  // is listed; the weighted mean of the scenario qualities is the aggregate
  // exactly when every template with an observed success is listed.
  lemma AggregateIsWeightedMean(s: seq<Observation>, templates: seq<string>)
    requires s != [] && Distinct(templates)
    ensures SumAttempts(s, templates) == |s| <==> Covers(templates, s)
    ensures Weighted(s, templates) == Times(Share(AllSuccesses(s), |s|), |s|) <==>
            CoversSuccesses(templates, s)
  {
    hide Times, Share, Within, Weighted, SumAttempts;
    ScenariosSum(s, templates);
    WithinAll(s, templates);
    SuccessesAtMostAll(s);
    ShareTotal(AllSuccesses(s), |s|);
  }

  lemma {:induction false} SuccessesAtMostAll(s: seq<Observation>)
    ensures AllSuccesses(s) <= |s|
  {
    if s != [] {
      SuccessesAtMostAll(s[..|s| - 1]);
    }
  }

  predicate QualityAtLeast(s: seq<Observation>, templates: seq<string>, m: real) {
    forall i :: 0 <= i < |templates| ==> Quality(s, templates[i]) >= m
  }

  lemma {:induction false} WeightedAtLeast(s: seq<Observation>, templates: seq<string>, m: real)
    requires QualityAtLeast(s, templates, m)
    ensures Weighted(s, templates) >= Times(m, SumAttempts(s, templates))
  {
    hide Quality, Times;
    if templates == [] {
      TimesZero(m);
    } else {
      var n := |templates| - 1;
      var t := templates[n];
      WeightedAtLeast(s, templates[..n], m);
      assert Quality(s, t) >= m;
      TimesAdds(m, Quality(s, t), SumAttempts(s, templates[..n]), Attempts(s, t));
    }
  }

  // When the listed templates cover the observations, a bound every scenario
  // meets is met by the aggregate.
  lemma EveryScenarioBoundsAggregate(s: seq<Observation>, templates: seq<string>, m: real)
    requires s != [] && Distinct(templates)
    requires Covers(templates, s)
    requires QualityAtLeast(s, templates, m)
    ensures Share(AllSuccesses(s), |s|) >= m
  {
    hide Quality, Times, Share, Weighted, SumAttempts;
    AggregateIsWeightedMean(s, templates);
    WeightedAtLeast(s, templates, m);
    TimesCancels(Share(AllSuccesses(s), |s|), m, |s|);
  }

  // With a template missing from the expected list the aggregate can be below
  // every listed scenario.
  lemma UnlistedTemplateLowersAggregate()
    ensures var good := Observation("listed", true, None, 1, None, None);
            var bad := Observation("other", false, None, 1, None, None);
            QualityAtLeast([good, bad], ["listed"], 1.0) && Share(AllSuccesses([good, bad]), 2) == 0.5
  {
    var good := Observation("listed", true, None, 1, None, None);
    var bad := Observation("other", false, None, 1, None, None);
    var s := [good, bad];
    assert s[..1] == [good] && [good][..0] == [];
    assert Attempts([good], "listed") == 1 && Successes([good], "listed") == 1;
    assert Attempts(s, "listed") == 1 && Successes(s, "listed") == 1;
    assert AllSuccesses([good]) == AllSuccesses([]) + 1;
    assert AllSuccesses(s) == AllSuccesses([good]);
  }

  // ---- the gates ----------------------------------------------------------

  predicate Structural(m: Metrics) {
    && m.validToolCallRate >= MIN_VALID_NATIVE_TOOL_CALL_RATE
    && m.invalidNameRate <= MAX_INVALID_TOOL_NAME_RATE
    && m.invalidArgumentRate <= MAX_INVALID_ARGUMENT_RATE
    && m.inferenceErrorRate <= MAX_REQUEST_INFERENCE_ERROR_RATE
    && m.timeouts <= MAX_TIMEOUTS
    && m.ttftP95.Some? && m.ttftP95.value <= MAX_INTERACTIVE_TTFT_P95_MS
    && m.e2eP95.Some? && m.e2eP95.value <= MAX_INTERACTIVE_E2E_P95_MS
    && m.provenanceOk && m.verificationOk
  }

  function ScenarioFailures(m: Metrics, minScenario: real): map<string, real> {
    map t | t in m.scenarioQuality && m.scenarioQuality[t] < minScenario :: m.scenarioQuality[t]
  }

  predicate EvaluateQualityLevel(m: Metrics, minAggregate: real, minScenario: real, requireStructural: bool) {
    && m.aggregateQuality >= minAggregate
    && ScenarioFailures(m, minScenario) == map[]
    && (requireStructural ==> Structural(m))
  }

  predicate StudyEntryGate(m: Metrics) {
    EvaluateQualityLevel(m, STUDY_ENTRY_MIN_AGGREGATE, STUDY_ENTRY_MIN_SCENARIO, true)
  }

  predicate ProductionLikeTarget(m: Metrics) {
    EvaluateQualityLevel(m, PRODUCTION_LIKE_MIN_AGGREGATE, PRODUCTION_LIKE_MIN_SCENARIO, true)
  }

  lemma NoFailuresExactly(m: Metrics, minScenario: real)
    ensures ScenarioFailures(m, minScenario) == map[] <==>
      forall t :: t in m.scenarioQuality ==> m.scenarioQuality[t] >= minScenario
  {
    if t :| t in m.scenarioQuality && m.scenarioQuality[t] < minScenario {
      assert t in ScenarioFailures(m, minScenario);
    }
  }

  // A configuration that meets the production-like target may enter the study.
  lemma ProductionImpliesStudyEntry(m: Metrics)
    ensures ProductionLikeTarget(m) ==> StudyEntryGate(m)
  {
    NoFailuresExactly(m, PRODUCTION_LIKE_MIN_SCENARIO);
    NoFailuresExactly(m, STUDY_ENTRY_MIN_SCENARIO);
  }

  // The metrics are those of these observations.
  ghost predicate Measures(m: Metrics, s: seq<Observation>, expected: Option<seq<string>>) {
    var calls := ToolCalls(s) + CategoryCount(s, STRUCTURAL_TOOL_FAILURES);
    && s != [] && calls > 0
    && m.attempted == |s| && m.succeeded == AllSuccesses(s) && m.aggregateQuality == Share(AllSuccesses(s), |s|)
    && IsScenarioQuality(m.scenarioQuality, s, expected) && CountsAttempts(m.scenarioAttempted, s)
    && m.validToolCallRate == Share(ToolCalls(s), calls)
    && m.invalidNameRate == Share(CategoryCount(s, {Agent.InvalidToolName}), |s|)
    && m.invalidArgumentRate == Share(CategoryCount(s, {Agent.InvalidToolArguments}), |s|)
    && m.inferenceErrorRate == Share(CategoryCount(s, {Agent.EndpointError}), |s|)
    && m.timeouts == CategoryCount(s, {Agent.TaskTimeout})
    && m.ttftP95 == P95Of(Ttfts(s)) && m.e2eP95 == P95Of(E2es(s))
  }

  // Passing study entry, in whole numbers: three fifths of the attempts succeed,
  // and two fifths of every reported scenario's.
  lemma StudyEntryQuality(s: seq<Observation>, expected: Option<seq<string>>, m: Metrics)
    requires Measures(m, s, expected) && StudyEntryGate(m)
    ensures 10 * AllSuccesses(s) >= 6 * |s|
    ensures forall t :: t in Reported(s, expected) ==> 10 * Successes(s, t) >= 4 * Attempts(s, t)
  {
    hide Share, P95Of, Quality, Structural, CategoryCount, CountsAttempts;
    SuccessesAtMostAll(s);
    WholeShareAtLeast(AllSuccesses(s), |s|, 6, 10);
    NoFailuresExactly(m, STUDY_ENTRY_MIN_SCENARIO);
    forall t | t in Reported(s, expected) ensures 10 * Successes(s, t) >= 4 * Attempts(s, t) {
      assert Quality(s, t) >= STUDY_ENTRY_MIN_SCENARIO;
      QualityAtLeastWhole(s, t);
    }
  }

  // Passing study entry means no timeout, no invalid tool name, and at most one
  // invalid argument list, endpoint error or structural failure in a hundred.
  lemma StudyEntryStructure(s: seq<Observation>, expected: Option<seq<string>>, m: Metrics)
    requires Measures(m, s, expected) && StudyEntryGate(m)
    ensures CategoryCount(s, {Agent.TaskTimeout}) == 0 && CategoryCount(s, {Agent.InvalidToolName}) == 0
    ensures 100 * CategoryCount(s, {Agent.InvalidToolArguments}) <= |s|
    ensures 100 * CategoryCount(s, {Agent.EndpointError}) <= |s|
    ensures 100 * CategoryCount(s, STRUCTURAL_TOOL_FAILURES) <= ToolCalls(s)
      + CategoryCount(s, STRUCTURAL_TOOL_FAILURES)
    ensures m.provenanceOk && m.verificationOk
  {
    hide Share, P95Of, IsScenarioQuality, CountsAttempts, ScenarioFailures, CategoryCount, ToolCalls;
    ShareIsZero(CategoryCount(s, {Agent.InvalidToolName}), |s|);
    WholeShareAtMost(CategoryCount(s, {Agent.InvalidToolArguments}), |s|);
    WholeShareAtMost(CategoryCount(s, {Agent.EndpointError}), |s|);
    WholeShareAtLeast(ToolCalls(s), ToolCalls(s) + CategoryCount(s, STRUCTURAL_TOOL_FAILURES), 99, 100);
  }

  // Passing study entry means at least 95 percent of the timings are within
  // their limits, and there are timings of both kinds.
  lemma StudyEntryTimings(s: seq<Observation>, expected: Option<seq<string>>, m: Metrics)
    requires Measures(m, s, expected) && StudyEntryGate(m)
    ensures Mostly(Ttfts(s), MAX_INTERACTIVE_TTFT_P95_MS) && Mostly(E2es(s), MAX_INTERACTIVE_E2E_P95_MS)
  {
    hide Share, P95Of, IsScenarioQuality, CountsAttempts, ScenarioFailures, CategoryCount, Mostly;
    WithinLimit(Ttfts(s), MAX_INTERACTIVE_TTFT_P95_MS);
    WithinLimit(E2es(s), MAX_INTERACTIVE_E2E_P95_MS);
  }

  lemma QualityAtLeastWhole(s: seq<Observation>, t: string)
    requires Quality(s, t) >= STUDY_ENTRY_MIN_SCENARIO
    ensures 10 * Successes(s, t) >= 4 * Attempts(s, t)
  {
    SuccessesWithinAttempts(s, t);
    if Attempts(s, t) > 0 {
      WholeShareAtLeast(Successes(s, t), Attempts(s, t), 4, 10);
    }
  }

  lemma WholeShareAtLeast(c: nat, a: nat, n: nat, d: nat)
    requires 0 < a && c <= a && (d == 10 || d == 100)
    ensures Share(c, a) >= n as real / d as real ==> d * c >= n * a
  {
    ShareAtLeast(c, a, n as real / d as real);
    if Share(c, a) >= n as real / d as real {
      assert c as real >= n as real / d as real * a as real;
      assert (d * c) as real >= (n * a) as real;
    }
  }

  lemma WholeShareAtMost(c: nat, a: nat)
    requires 0 < a && c <= a
    ensures Share(c, a) <= 0.01 ==> 100 * c <= a
  {
    ShareTotal(c, a);
    if Share(c, a) <= 0.01 {
      TimesZero(0.01);
      TimesAdds(Share(c, a), 0.01, 0, a);
      TimesZero(Share(c, a));
      assert c as real <= 0.01 * a as real;
    }
  }

  // At least 95 percent of the values are within the limit, and there are some.
  predicate Mostly(values: seq<real>, limit: real) {
    values != [] && 100 * Telemetry.Count(values, x => x <= limit) >= 95 * |values|
  }

  lemma WithinLimit(values: seq<real>, limit: real)
    requires P95Of(values).Some? && P95Of(values).value <= limit
    ensures Mostly(values, limit)
  {
    Telemetry.P95IsThePercentile(values, 0.0);
    var v := P95Of(values).value;
    Telemetry.CountMonotone(values, x => x <= v, x => x <= limit);
  }

  // ---- the gate exactly ---------------------------------------------------

  lemma WholeShareReaches(c: nat, a: nat, n: nat, d: nat)
    requires 0 < a && c <= a && (d == 10 || d == 100) && d * c >= n * a
    ensures Share(c, a) >= n as real / d as real
  {
    ShareTotal(c, a);
    assert (d * c) as real >= (n * a) as real;
    assert c as real >= n as real / d as real * a as real;
    TimesCancels(Share(c, a), n as real / d as real, a);
  }

  lemma WholeShareStays(c: nat, a: nat)
    requires 0 < a && c <= a && 100 * c <= a
    ensures Share(c, a) <= 0.01
  {
    ShareTotal(c, a);
    assert 0.01 * a as real >= c as real;
    TimesCancels(0.01, Share(c, a), a);
  }

  lemma LimitHolds(values: seq<real>, limit: real)
    requires Mostly(values, limit)
    ensures P95Of(values).Some? && P95Of(values).value <= limit
  {
    Telemetry.P95IsThePercentile(values, 0.0);
    var v := P95Of(values).value;
    if v > limit {
      Telemetry.CountMonotone(values, x => x <= limit, x => x < v);
    }
  }

  // What study entry asks of the observations, in whole numbers.
  ghost predicate Qualifies(s: seq<Observation>, expected: Option<seq<string>>) {
    && 10 * AllSuccesses(s) >= 6 * |s|
    && (forall t :: t in Reported(s, expected) ==> Attempts(s, t) > 0 && 10 * Successes(s, t) >= 4 * Attempts(s, t))
    && CategoryCount(s, {Agent.TaskTimeout}) == 0 && CategoryCount(s, {Agent.InvalidToolName}) == 0
    && 100 * CategoryCount(s, {Agent.InvalidToolArguments}) <= |s|
    && 100 * CategoryCount(s, {Agent.EndpointError}) <= |s|
    && 100 * CategoryCount(s, STRUCTURAL_TOOL_FAILURES) <=
       ToolCalls(s) + CategoryCount(s, STRUCTURAL_TOOL_FAILURES)
    && Mostly(Ttfts(s), 2500.0) && Mostly(E2es(s), 60000.0)
  }

  // The study-entry gate opens exactly for these observations, with provenance
  // and verification in order; a reported template without an attempt closes it.
  lemma StudyEntryExactly(s: seq<Observation>, expected: Option<seq<string>>, m: Metrics)
    requires Measures(m, s, expected)
    ensures StudyEntryGate(m) <==> Qualifies(s, expected) && m.provenanceOk && m.verificationOk
  {
    StudyEntryParts(m);
    hide Measures, StudyEntryGate, Structural, ScenarioFailures, Mostly, CategoryCount, AllSuccesses, Attempts,
         Successes, ToolCalls;
    if StudyEntryGate(m) {
      StudyEntryQuality(s, expected, m);
      StudyEntryStructure(s, expected, m);
      StudyEntryTimings(s, expected, m);
      StudyEntryObserved(s, expected, m);
    }
    if Qualifies(s, expected) && m.provenanceOk && m.verificationOk {
      QualifyingQuality(s, expected, m);
      QualifyingStructure(s, expected, m);
    }
  }

  lemma StudyEntryParts(m: Metrics)
    ensures StudyEntryGate(m) <==>
            && m.aggregateQuality >= STUDY_ENTRY_MIN_AGGREGATE
            && ScenarioFailures(m, STUDY_ENTRY_MIN_SCENARIO) == map[] && Structural(m)
    ensures StudyEntryGate(m) ==> m.provenanceOk && m.verificationOk
  {
    hide ScenarioFailures;
  }

  lemma StudyEntryObserved(s: seq<Observation>, expected: Option<seq<string>>, m: Metrics)
    requires Measures(m, s, expected) && StudyEntryGate(m)
    ensures forall t :: t in Reported(s, expected) ==> Attempts(s, t) > 0
  {
    hide P95Of, Structural, CategoryCount, CountsAttempts, Attempts, Successes;
    NoFailuresExactly(m, STUDY_ENTRY_MIN_SCENARIO);
    forall t | t in Reported(s, expected) ensures Attempts(s, t) > 0 {
      assert Quality(s, t) >= STUDY_ENTRY_MIN_SCENARIO;
    }
  }

  // The production-like target is met exactly by configurations that may enter
  // the study with nine tenths of the attempts and eight tenths of those of every
  // reported scenario successful.
  lemma ProductionExactly(s: seq<Observation>, expected: Option<seq<string>>, m: Metrics)
    requires Measures(m, s, expected)
    ensures ProductionLikeTarget(m) <==>
            && StudyEntryGate(m) && 10 * AllSuccesses(s) >= 9 * |s|
            && forall t :: t in Reported(s, expected) ==> 10 * Successes(s, t) >= 8 * Attempts(s, t)
  {
    ProductionImpliesStudyEntry(m);
    ProductionParts(m);
    if StudyEntryGate(m) {
      ProductionQuality(s, expected, m);
    }
    hide ProductionLikeTarget, StudyEntryGate, Measures, AllSuccesses, Attempts, Successes;
  }

  lemma ProductionParts(m: Metrics)
    ensures ProductionLikeTarget(m) <==>
            m.aggregateQuality >= 0.90 && Structural(m) && forall t :: t in m.scenarioQuality ==>
              m.scenarioQuality[t] >= 0.80
    ensures StudyEntryGate(m) ==> Structural(m)
  {
    NoFailuresExactly(m, PRODUCTION_LIKE_MIN_SCENARIO);
    hide Structural, ScenarioFailures;
  }

  lemma ProductionQuality(s: seq<Observation>, expected: Option<seq<string>>, m: Metrics)
    requires Measures(m, s, expected) && StudyEntryGate(m)
    ensures m.aggregateQuality >= 0.90 <==> 10 * AllSuccesses(s) >= 9 * |s|
    ensures (forall t :: t in m.scenarioQuality ==> m.scenarioQuality[t] >= 0.80) <==>
            forall t :: t in Reported(s, expected) ==> 10 * Successes(s, t) >= 8 * Attempts(s, t)
  {
    StudyEntryObserved(s, expected, m);
    SuccessesAtMostAll(s);
    hide Share, P95Of, CategoryCount, CountsAttempts, Attempts, Successes, AllSuccesses, ToolCalls, StudyEntryGate;
    TenthsExactly(AllSuccesses(s), |s|, 9);
    forall t | t in Reported(s, expected)
      ensures m.scenarioQuality[t] >= 0.80 <==> 10 * Successes(s, t) >= 8 * Attempts(s, t)
    {
      SuccessesWithinAttempts(s, t);
      TenthsExactly(Successes(s, t), Attempts(s, t), 8);
    }
  }

  lemma TenthsExactly(c: nat, a: nat, n: nat)
    requires 0 < a && c <= a
    ensures Share(c, a) >= n as real / 10.0 <==> 10 * c >= n * a
  {
    hide Share;
    WholeShareAtLeast(c, a, n, 10);
    if 10 * c >= n * a {
      WholeShareReaches(c, a, n, 10);
    }
  }

  lemma QualifyingQuality(s: seq<Observation>, expected: Option<seq<string>>, m: Metrics)
    requires Measures(m, s, expected) && Qualifies(s, expected)
    ensures m.aggregateQuality >= STUDY_ENTRY_MIN_AGGREGATE && ScenarioFailures(m, STUDY_ENTRY_MIN_SCENARIO) == map[]
  {
    hide Share, P95Of, CategoryCount, CountsAttempts, Attempts, Successes, AllSuccesses, Mostly, ToolCalls;
    SuccessesAtMostAll(s);
    WholeShareReaches(AllSuccesses(s), |s|, 6, 10);
    NoFailuresExactly(m, STUDY_ENTRY_MIN_SCENARIO);
    forall t | t in m.scenarioQuality ensures m.scenarioQuality[t] >= STUDY_ENTRY_MIN_SCENARIO {
      SuccessesWithinAttempts(s, t);
      WholeShareReaches(Successes(s, t), Attempts(s, t), 4, 10);
    }
  }

  lemma QualifyingStructure(s: seq<Observation>, expected: Option<seq<string>>, m: Metrics)
    requires Measures(m, s, expected) && Qualifies(s, expected) && m.provenanceOk && m.verificationOk
    ensures Structural(m)
  {
    hide Share, P95Of, CategoryCount, IsScenarioQuality, CountsAttempts, Attempts, Successes, AllSuccesses, Mostly,
         ToolCalls;
    var structural := CategoryCount(s, STRUCTURAL_TOOL_FAILURES);
    WholeShareReaches(ToolCalls(s), ToolCalls(s) + structural, 99, 100);
    ShareIsZero(CategoryCount(s, {Agent.InvalidToolName}), |s|);
    WholeShareStays(CategoryCount(s, {Agent.InvalidToolArguments}), |s|);
    WholeShareStays(CategoryCount(s, {Agent.EndpointError}), |s|);
    LimitHolds(Ttfts(s), MAX_INTERACTIVE_TTFT_P95_MS);
    LimitHolds(E2es(s), MAX_INTERACTIVE_E2E_P95_MS);
  }

  // Every tally composes over parts of the observations.
  lemma {:induction false} TalliesCompose(a: seq<Observation>, b: seq<Observation>, template: string)
    ensures Attempts(a + b, template) == Attempts(a, template) + Attempts(b, template)
    ensures Successes(a + b, template) == Successes(a, template) + Successes(b, template)
    ensures AllSuccesses(a + b) == AllSuccesses(a) + AllSuccesses(b)
    ensures ToolCalls(a + b) == ToolCalls(a) + ToolCalls(b)
    ensures Ttfts(a + b) == Ttfts(a) + Ttfts(b) && E2es(a + b) == E2es(a) + E2es(b)
  {
    if b == [] {
      assert a + b == a;
    } else {
      hide Attempts, Successes, AllSuccesses, ToolCalls, Ttfts, E2es;
      var n := |b| - 1;
      TalliesCompose(a, b[..n], template);
      assert a + b == (a + b[..n]) + [b[n]] && b == b[..n] + [b[n]];
      OneMoreTallied(a + b[..n], b[n], template);
      OneMoreTallied(b[..n], b[n], template);
    }
  }

  lemma OneMoreTallied(s: seq<Observation>, o: Observation, template: string)
    ensures Attempts(s + [o], template) == Attempts(s, template) + if o.template == template then 1 else 0
    ensures Successes(s + [o], template) ==
            Successes(s, template) + if o.template == template && o.success then 1 else 0
    ensures AllSuccesses(s + [o]) == AllSuccesses(s) + if o.success then 1 else 0
    ensures ToolCalls(s + [o]) == ToolCalls(s) + o.toolCalls
    ensures Ttfts(s + [o]) == Ttfts(s) + if o.ttft.Some? then [o.ttft.value] else []
    ensures E2es(s + [o]) == E2es(s) + if o.e2e.Some? then [o.e2e.value] else []
  {
    assert (s + [o])[..|s|] == s;
  }

  lemma {:induction false} CategoriesCompose(a: seq<Observation>, b: seq<Observation>, categories: set<Agent.Category>)
    ensures CategoryCount(a + b, categories) == CategoryCount(a, categories) + CategoryCount(b, categories)
  {
    if b == [] {
      assert a + b == a;
    } else {
      var n := |b| - 1;
      CategoriesCompose(a, b[..n], categories);
      assert (a + b)[..|a| + n] == a + b[..n] && (a + b)[|a| + n] == b[n];
    }
  }

  // What a single observation contributes to each tally.
  lemma OneObservation(o: Observation, template: string, categories: set<Agent.Category>)
    ensures Attempts([o], template) == if o.template == template then 1 else 0
    ensures Successes([o], template) == if o.template == template && o.success then 1 else 0
    ensures AllSuccesses([o]) == if o.success then 1 else 0
    ensures ToolCalls([o]) == o.toolCalls
    ensures Ttfts([o]) == if o.ttft.Some? then [o.ttft.value] else []
    ensures E2es([o]) == if o.e2e.Some? then [o.e2e.value] else []
    ensures CategoryCount([o], categories) == if o.category.Some? && o.category.value in categories then 1 else 0
  {
    assert [o][..0] == [];
  }
}
