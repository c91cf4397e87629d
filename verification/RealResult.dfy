/** Accounting of one measured repetition (src/blackwell_lab/cloud/realbench.py:
    build_real_result), and its agreement with the agent loop and the evaluator. */
module RealResult {
  import opened Common
  import opened Evaluator
  import Agent = AgentLoop

  datatype TaskOutcome = TaskOutcome(execution: Execution, evaluation: Evaluation)

  datatype Profile = Profile(sloTaskMs: real, sloTtftMs: Option<real>)

  datatype Missing = NothingAttempted | NoFirstOutput | NoTokenCounts | NoWallTime | NoTelemetry

  datatype Tasks = Tasks(
    attempted: nat, succeeded: nat, qualityFailed: nat, errored: nat, timedOut: nat, successRate: real, meanScore: real)

  datatype Report = Report(tasks: Tasks, taxonomy: map<Agent.Category, nat>, sloAttaining: nat, outputTokens: nat)

  const CATEGORIES := [
    Agent.EndpointError, Agent.MalformedToolCall, Agent.InvalidToolName, Agent.InvalidToolArguments,
    Agent.NoTerminalRecommendation, Agent.DirectEvidenceRequired, Agent.WorkflowRequirementsUnmet, Agent.TaskTimeout,
    Agent.AgentRuntimeError]

  // ---- counting -----------------------------------------------------------

  function Count<T>(s: seq<T>, p: T -> bool): (n: nat)
    ensures n <= |s|
  {
    if s == [] then 0 else Count(s[..|s| - 1], p) + (if p(s[|s| - 1]) then 1 else 0)
  }

  lemma {:induction false} CountImplied<T>(s: seq<T>, p: T -> bool, q: T -> bool)
    requires forall x :: x in s && p(x) ==> q(x)
    ensures Count(s, p) <= Count(s, q)
  {
    if s != [] {
      assert s[|s| - 1] in s;
      CountImplied(s[..|s| - 1], p, q);
    }
  }

  function SumScores(s: seq<TaskOutcome>): real {
    if s == [] then 0.0 else SumScores(s[..|s| - 1]) + s[|s| - 1].evaluation.score
  }

  function TurnTokens(turns: seq<Agent.TurnRecord>): nat {
    if turns == [] then 0
    else
      var last := turns[|turns| - 1].outputTokens;
      TurnTokens(turns[..|turns| - 1]) + (if last.Some? then last.value else 0)
  }

  function OutputTokens(s: seq<TaskOutcome>): nat {
    if s == [] then 0 else OutputTokens(s[..|s| - 1]) + TurnTokens(s[|s| - 1].execution.turns)
  }

  predicate Succeeded(o: TaskOutcome) {
    o.execution.status == Agent.Completed && o.evaluation.success
  }

  predicate QualityFailed(o: TaskOutcome) {
    o.execution.status == Agent.Completed && !o.evaluation.success
  }

  predicate Errored(o: TaskOutcome) {
    o.execution.status == Agent.Error
  }

  predicate TimedOut(o: TaskOutcome) {
    o.execution.status == Agent.Timeout
  }

  predicate HasCategory(o: TaskOutcome, c: Agent.Category) {
    o.execution.category == Some(c)
  }

  predicate TimelyFirstOutput(t: Agent.TurnRecord, limit: real) {
    t.ttft.Some? && t.ttft.value <= limit
  }

  predicate Attains(profile: Profile, o: TaskOutcome) {
    && o.execution.e2e <= profile.sloTaskMs
    && (profile.sloTtftMs.Some? ==>
          forall t :: t in o.execution.turns ==> TimelyFirstOutput(t, profile.sloTtftMs.value))
  }

  predicate SloAttaining(profile: Profile, o: TaskOutcome) {
    Succeeded(o) && Attains(profile, o)
  }

  predicate HasFirstOutput(o: TaskOutcome) {
    exists t :: t in o.execution.turns && t.ttft.Some?
  }

  predicate TokensCounted(o: TaskOutcome) {
    o.execution.status == Agent.Completed ==> forall t :: t in o.execution.turns ==> t.outputTokens.Some?
  }

  function CategoryCount(s: seq<TaskOutcome>, c: Agent.Category): nat {
    Count(s, o => HasCategory(o, c))
  }

  // The dictionary holds exactly the categories that occur, with their counts.
  predicate IsTaxonomy(m: map<Agent.Category, nat>, s: seq<TaskOutcome>) {
    forall c :: (c in m <==> CategoryCount(s, c) > 0) && (c in m ==> m[c] == CategoryCount(s, c))
  }

  // The first required measurement that is missing, in the order checked.
  function FirstMissing(profile: Profile, s: seq<TaskOutcome>, wallTime: real, telemetry: bool): Option<Missing> {
    if s == [] then Some(NothingAttempted)
    else if profile.sloTtftMs.Some? && !(exists o :: o in s && HasFirstOutput(o)) then Some(NoFirstOutput)
    else if exists o :: o in s && !TokensCounted(o) then Some(NoTokenCounts)
    else if wallTime <= 0.0 then Some(NoWallTime)
    else if !telemetry then Some(NoTelemetry)
    else None
  }

  function TasksOf(s: seq<TaskOutcome>): Tasks
    requires s != []
  {
    Tasks(|s|, Count(s, Succeeded), Count(s, QualityFailed), Count(s, Errored), Count(s, TimedOut),
          Count(s, Succeeded) as real / |s| as real, SumScores(s) / |s| as real)
  }

  function TaxonomyOf(s: seq<TaskOutcome>): map<Agent.Category, nat> {
    map c: Agent.Category | CategoryCount(s, c) > 0 :: CategoryCount(s, c)
  }

  function ReportOf(profile: Profile, s: seq<TaskOutcome>): Report
    requires s != []
  {
    Report(TasksOf(s), TaxonomyOf(s), Count(s, o => SloAttaining(profile, o)), OutputTokens(s))
  }

  method CountCategories(s: seq<TaskOutcome>) returns (taxonomy: map<Agent.Category, nat>)
    ensures taxonomy == TaxonomyOf(s)
  {
    taxonomy := map[];
    var i := 0;
    while i < |s|
      invariant 0 <= i <= |s|
      invariant IsTaxonomy(taxonomy, s[..i])
    {
      var category := s[i].execution.category;
      assert s[..i + 1][..i] == s[..i];
      assert forall c ::
        CategoryCount(s[..i + 1], c) == CategoryCount(s[..i], c) + if category == Some(c) then 1 else 0;
      if category.Some? {
        var c := category.value;
        taxonomy := taxonomy[c := (if c in taxonomy then taxonomy[c] else 0) + 1];
      }
      i := i + 1;
    }
    assert s[..i] == s;
    assert taxonomy == TaxonomyOf(s);
  }

  method BuildRealResult(profile: Profile, s: seq<TaskOutcome>, wallTime: real, telemetry: bool)
    returns (r: Result<Report, Missing>)
    ensures r.Err? <==> FirstMissing(profile, s, wallTime, telemetry).Some?
    ensures r.Err? ==> FirstMissing(profile, s, wallTime, telemetry) == Some(r.error)
    ensures r.Ok? ==> s != [] && r.value == ReportOf(profile, s)
  {
    if s == [] {
      return Err(NothingAttempted);
    }
    var taxonomy := CountCategories(s);
    if profile.sloTtftMs.Some? {
      var observed := AnyFirstOutput(s);
      if !observed {
        return Err(NoFirstOutput);
      }
    }
    var counted := AllTokensCounted(s);
    if !counted {
      return Err(NoTokenCounts);
    }
    if wallTime <= 0.0 {
      return Err(NoWallTime);
    }
    if !telemetry {
      return Err(NoTelemetry);
    }
    return Ok(Report(TasksOf(s), taxonomy, Count(s, o => SloAttaining(profile, o)), OutputTokens(s)));
  }

  method AnyFirstOutput(s: seq<TaskOutcome>) returns (found: bool)
    ensures found <==> exists o :: o in s && HasFirstOutput(o)
  {
    var i := 0;
    while i < |s|
      invariant 0 <= i <= |s|
      invariant forall k :: 0 <= k < i ==> !HasFirstOutput(s[k])
    {
      if HasFirstOutput(s[i]) {
        return true;
      }
      i := i + 1;
    }
    return false;
  }

  // The nested loop over the turns of every completed attempt.
  method AllTokensCounted(s: seq<TaskOutcome>) returns (ok: bool)
    ensures ok <==> forall o :: o in s ==> TokensCounted(o)
  {
    var i := 0;
    while i < |s|
      invariant 0 <= i <= |s|
      invariant forall k :: 0 <= k < i ==> TokensCounted(s[k])
    {
      if s[i].execution.status == Agent.Completed {
        var turns, j := s[i].execution.turns, 0;
        while j < |turns|
          invariant 0 <= j <= |turns|
          invariant forall k :: 0 <= k < j ==> turns[k].outputTokens.Some?
        {
          if turns[j].outputTokens.None? {
            assert turns[j] in turns && s[i] in s;
            return false;
          }
          j := j + 1;
        }
      }
      i := i + 1;
    }
    return true;
  }

  // ---- agreement ----------------------------------------------------------

  // What the agent loop and the evaluator guarantee about one attempt.
  predicate Consistent(o: TaskOutcome) {
    && (o.execution.status == Agent.Completed <==> o.execution.category.None?)
    && (o.execution.status == Agent.Timeout <==> o.execution.category == Some(Agent.TaskTimeout))
    && (o.evaluation.success ==> o.execution.status == Agent.Completed)
    && o.evaluation.score == if o.evaluation.success then 1.0 else 0.0
  }

  // Every attempt the agent loop returns and the evaluator scores is consistent.
  lemma AttemptsAreConsistent(
    config: Agent.Config, script: nat -> Agent.Turn, view: Agent.Entry -> Trace, e2e: real, fold: Fold,
    scenario: Scenario,
    evaluation: Evaluation)
    requires !Agent.Outcome(config, script).escaped
    requires var e := FromAgent(Agent.Outcome(config, script), view, e2e);
             evaluation.success == Succeeds(fold, scenario, e) && evaluation.score == if evaluation.success then 1.0
               else 0.0
    ensures Consistent(TaskOutcome(FromAgent(Agent.Outcome(config, script), view, e2e), evaluation))
  {
    Agent.OutcomeIsBounded(config, script);
  }

  predicate AllConsistent(s: seq<TaskOutcome>) {
    forall o :: o in s ==> Consistent(o)
  }

  // Every attempt is counted once: succeeded, failed on quality, errored or
  // timed out.
  lemma {:induction false} CountsPartition(s: seq<TaskOutcome>)
    ensures |s| == Count(s, Succeeded) + Count(s, QualityFailed) + Count(s, Errored) + Count(s, TimedOut)
  {
    if s != [] {
      CountsPartition(s[..|s| - 1]);
    }
  }

  function TaxonomyTotal(m: map<Agent.Category, nat>, categories: seq<Agent.Category>): nat {
    if categories == [] then 0
    else
      var c := categories[|categories| - 1];
      TaxonomyTotal(m, categories[..|categories| - 1]) + (if c in m then m[c] else 0)
  }

  lemma CategoriesAreAll()
    ensures Distinct(CATEGORIES) && forall c: Agent.Category :: c in CATEGORIES
  {
    forall c: Agent.Category ensures c in CATEGORIES {
      match c
      case EndpointError => assert CATEGORIES[0] == c;
      case MalformedToolCall => assert CATEGORIES[1] == c;
      case InvalidToolName => assert CATEGORIES[2] == c;
      case InvalidToolArguments => assert CATEGORIES[3] == c;
      case NoTerminalRecommendation => assert CATEGORIES[4] == c;
      case DirectEvidenceRequired => assert CATEGORIES[5] == c;
      case WorkflowRequirementsUnmet => assert CATEGORIES[6] == c;
      case TaskTimeout => assert CATEGORIES[7] == c;
      case AgentRuntimeError => assert CATEGORIES[8] == c;
    }
  }

  // Summing the counts over distinct categories counts the attempts whose
  // category is among them.
  lemma {:induction false} TotalCounts(
      m: map<Agent.Category, nat>, s: seq<TaskOutcome>, categories: seq<Agent.Category>)
    requires IsTaxonomy(m, s) && Distinct(categories)
    ensures TaxonomyTotal(m, categories) == Count(s, o => InCategories(o, categories))
  {
    if categories == [] {
      CountNone(s, o => InCategories(o, categories));
    } else {
      var n := |categories| - 1;
      var c := categories[n];
      TotalCounts(m, s, categories[..n]);
      assert forall o: TaskOutcome :: InCategories(o, categories) <==>
        InCategories(o, categories[..n]) || HasCategory(o, c);
      CountSplit(s, o => InCategories(o, categories), o => InCategories(o, categories[..n]), o => HasCategory(o, c));
      assert CategoryCount(s, c) == Count(s, o => HasCategory(o, c));
    }
  }

  predicate InCategories(o: TaskOutcome, categories: seq<Agent.Category>) {
    o.execution.category.Some? && o.execution.category.value in categories
  }

  lemma {:induction false} CountNone<T>(s: seq<T>, p: T -> bool)
    requires forall x :: x in s ==> !p(x)
    ensures Count(s, p) == 0
  {
    if s != [] {
      assert s[|s| - 1] in s;
      CountNone(s[..|s| - 1], p);
    }
  }

  lemma {:induction false} CountSplit<T>(s: seq<T>, p: T -> bool, q: T -> bool, r: T -> bool)
    requires forall x :: x in s ==> (p(x) <==> q(x) || r(x)) && !(q(x) && r(x))
    ensures Count(s, p) == Count(s, q) + Count(s, r)
  {
    if s != [] {
      assert s[|s| - 1] in s;
      CountSplit(s[..|s| - 1], p, q, r);
    }
  }

  lemma {:induction false} ScoresCountSuccesses(s: seq<TaskOutcome>)
    requires AllConsistent(s)
    ensures SumScores(s) == Count(s, Succeeded) as real
  {
    if s != [] {
      assert Consistent(s[|s| - 1]) by {
        assert s[|s| - 1] in s;
      }
      ScoresCountSuccesses(s[..|s| - 1]);
    }
  }

  // The parts of a report agree: every attempt counted once, the taxonomy sums
  // to the errors and timeouts, the mean score is the success rate, and only
  // successes attain the SLO.
  lemma AccountingAgrees(profile: Profile, s: seq<TaskOutcome>)
    requires s != [] && AllConsistent(s)
    ensures var report := ReportOf(profile, s);
            var t := report.tasks;
            && t.attempted == t.succeeded + t.qualityFailed + t.errored + t.timedOut
            && TaxonomyTotal(report.taxonomy, CATEGORIES) == t.errored + t.timedOut
            && (if Agent.TaskTimeout in report.taxonomy then report.taxonomy[Agent.TaskTimeout] else 0) == t.timedOut
            && report.sloAttaining <= t.succeeded
            && t.meanScore == t.successRate
  {
    var report := ReportOf(profile, s);
    CountsPartition(s);
    CategoriesAreAll();
    TotalCounts(report.taxonomy, s, CATEGORIES);
    CountSplit(s, o => InCategories(o, CATEGORIES), Errored, TimedOut);
    CountImplied(s, o => HasCategory(o, Agent.TaskTimeout), TimedOut);
    CountImplied(s, TimedOut, o => HasCategory(o, Agent.TaskTimeout));
    assert CategoryCount(s, Agent.TaskTimeout) == Count(s, o => HasCategory(o, Agent.TaskTimeout));
    CountImplied(s, o => SloAttaining(profile, o), Succeeded);
    ScoresCountSuccesses(s);
  }

  // ---- the counts ---------------------------------------------------------

  lemma {:induction false} CountIsSize<T>(s: seq<T>, p: T -> bool)
    ensures Count(s, p) == |set i | 0 <= i < |s| && p(s[i])|
  {
    var all := set i | 0 <= i < |s| && p(s[i]);
    if s == [] {
      assert all == {};
    } else {
      var n := |s| - 1;
      CountIsSize(s[..n], p);
      var front := set i | 0 <= i < n && p(s[..n][i]);
      assert front == set i | 0 <= i < n && p(s[i]);
      assert all == front + (if p(s[n]) then {n} else {});
    }
  }

  // In time: the whole attempt within its limit, and, where a first-output limit
  // is set, a first output within that limit in every turn.
  predicate InTime(profile: Profile, e: Execution) {
    && e.e2e <= profile.sloTaskMs
    && (profile.sloTtftMs.Some? ==>
          forall i :: 0 <= i < |e.turns| ==>
            e.turns[i].ttft.Some? && e.turns[i].ttft.value <= profile.sloTtftMs.value)
  }

  // Each reported count is the number of attempts with the property it names.
  lemma ReportCounts(profile: Profile, s: seq<TaskOutcome>)
    requires s != []
    ensures var report := ReportOf(profile, s);
            var t := report.tasks;
            && t.attempted == |s|
            && t.succeeded == Size(s, o => Ends(o, Agent.Completed) && o.evaluation.success)
            && t.qualityFailed == Size(s, o => Ends(o, Agent.Completed) && !o.evaluation.success)
            && t.errored == Size(s, o => Ends(o, Agent.Error)) && t.timedOut == Size(s, o => Ends(o, Agent.Timeout))
            && report.sloAttaining ==
               Size(s, o => Ends(o, Agent.Completed) && o.evaluation.success && InTime(profile, o.execution))
            && (forall c :: c in report.taxonomy ==> report.taxonomy[c] == Size(s, o => Blamed(o, c)))
  {
    forall o ensures SloAttaining(profile, o) <==> Succeeded(o) && InTime(profile, o.execution) {
      SloIsInTime(profile, o);
    }
    CountSame(s, Succeeded, o => Ends(o, Agent.Completed) && o.evaluation.success);
    CountSame(s, QualityFailed, o => Ends(o, Agent.Completed) && !o.evaluation.success);
    CountSame(s, Errored, o => Ends(o, Agent.Error));
    CountSame(s, TimedOut, o => Ends(o, Agent.Timeout));
    CountSame(s, o => SloAttaining(profile, o),
              o => Ends(o, Agent.Completed) && o.evaluation.success && InTime(profile, o.execution));
    forall c | c in TaxonomyOf(s) ensures TaxonomyOf(s)[c] == Size(s, o => Blamed(o, c)) {
      CountSame(s, o => HasCategory(o, c), o => Blamed(o, c));
    }
    hide Count, InTime, SloAttaining, Size;
  }

  // How many members have a property.
  function Size<T>(s: seq<T>, p: T -> bool): nat {
    |set i | 0 <= i < |s| && p(s[i])|
  }

  lemma CountSame<T(!new)>(s: seq<T>, p: T -> bool, q: T -> bool)
    requires forall x :: p(x) <==> q(x)
    ensures Count(s, p) == Size(s, q)
  {
    CountIsSize(s, p);
    assert (set i | 0 <= i < |s| && p(s[i])) == set i | 0 <= i < |s| && q(s[i]);
  }

  lemma SloIsInTime(profile: Profile, o: TaskOutcome)
    ensures SloAttaining(profile, o) <==> Succeeded(o) && InTime(profile, o.execution)
  {
    if SloAttaining(profile, o) && profile.sloTtftMs.Some? {
      assert forall i :: 0 <= i < |o.execution.turns| ==>
          TimelyFirstOutput(o.execution.turns[i], profile.sloTtftMs.value);
    }
  }

  predicate Ends(o: TaskOutcome, status: Agent.Status) {
    o.execution.status == status
  }

  predicate Blamed(o: TaskOutcome, c: Agent.Category) {
    o.execution.category.Some? && o.execution.category.value == c
  }

  lemma {:induction false} TokensCompose(a: seq<TaskOutcome>, b: seq<TaskOutcome>)
    ensures OutputTokens(a + b) == OutputTokens(a) + OutputTokens(b)
  {
    if b == [] {
      assert a + b == a;
    } else {
      var n := |b| - 1;
      TokensCompose(a, b[..n]);
      assert (a + b)[..|a| + n] == a + b[..n] && (a + b)[|a| + n] == b[n];
    }
  }

  lemma {:induction false} TurnTokensCompose(a: seq<Agent.TurnRecord>, b: seq<Agent.TurnRecord>)
    ensures TurnTokens(a + b) == TurnTokens(a) + TurnTokens(b)
  {
    if b == [] {
      assert a + b == a;
    } else {
      var n := |b| - 1;
      TurnTokensCompose(a, b[..n]);
      assert (a + b)[..|a| + n] == a + b[..n] && (a + b)[|a| + n] == b[n];
    }
  }

  // The output tokens add up over attempts and over the turns of an attempt;
  // one turn contributes what its usage reported, or nothing.
  lemma TokensAddUp(a: seq<TaskOutcome>, b: seq<TaskOutcome>, x: seq<Agent.TurnRecord>, y: seq<Agent.TurnRecord>)
    ensures OutputTokens(a + b) == OutputTokens(a) + OutputTokens(b)
    ensures forall o :: OutputTokens([o]) == TurnTokens(o.execution.turns)
    ensures TurnTokens(x + y) == TurnTokens(x) + TurnTokens(y)
    ensures forall t :: TurnTokens([t]) == if t.outputTokens.Some? then t.outputTokens.value else 0
  {
    TokensCompose(a, b);
    TurnTokensCompose(x, y);
    forall o: TaskOutcome ensures OutputTokens([o]) == TurnTokens(o.execution.turns) {
      assert [o][..0] == [];
    }
    forall t: Agent.TurnRecord ensures TurnTokens([t]) == if t.outputTokens.Some? then t.outputTokens.value else 0 {
      assert [t][..0] == [];
    }
  }

  // The two rates are shares of the attempts: of those that succeeded, and of
  // the scores, which add up over the attempts.
  lemma RatesAreShares(profile: Profile, s: seq<TaskOutcome>)
    requires s != []
    ensures var t := ReportOf(profile, s).tasks;
            && t.successRate * t.attempted as real == t.succeeded as real
            && t.meanScore * t.attempted as real == SumScores(s)
  {
    hide Count, SumScores, TaxonomyOf, OutputTokens;
    ShareFills(Count(s, Succeeded) as real, |s|);
    ShareFills(SumScores(s), |s|);
  }

  lemma ShareFills(x: real, n: nat)
    requires n > 0
    ensures x / n as real * n as real == x
  {
  }

  lemma {:induction false} ScoresAddUp(a: seq<TaskOutcome>, b: seq<TaskOutcome>)
    ensures SumScores(a + b) == SumScores(a) + SumScores(b)
    ensures forall o :: SumScores([o]) == o.evaluation.score
  {
    if b == [] {
      assert a + b == a;
    } else {
      var n := |b| - 1;
      ScoresAddUp(a, b[..n]);
      assert (a + b)[..|a| + n] == a + b[..n] && (a + b)[|a| + n] == b[n];
    }
    forall o: TaskOutcome ensures SumScores([o]) == o.evaluation.score {
      assert [o][..0] == [];
    }
  }

  // A result is built exactly when something was attempted, completed attempts
  // have token counts in every turn, some first output was seen where a limit
  // asks for one, and wall time and telemetry are there.
  lemma MeasuredExactly(profile: Profile, s: seq<TaskOutcome>, wallTime: real, telemetry: bool)
    ensures FirstMissing(profile, s, wallTime, telemetry).None? <==>
            && |s| > 0 && wallTime > 0.0 && telemetry
            && (profile.sloTtftMs.Some? ==> exists i, k :: 0 <= i < |s| && 0 <= k < |s[i].execution.turns|
                                                       && s[i].execution.turns[k].ttft.Some?)
            && forall i, k :: 0 <= i < |s| && Ends(s[i], Agent.Completed) && 0 <= k < |s[i].execution.turns| ==>
                 s[i].execution.turns[k].outputTokens.Some?
  {
    forall o ensures HasFirstOutput(o) <==>
                     exists k :: 0 <= k < |o.execution.turns| && o.execution.turns[k].ttft.Some?
    {
      if t :| t in o.execution.turns && t.ttft.Some? {
        var k :| 0 <= k < |o.execution.turns| && o.execution.turns[k] == t;
      }
    }
    forall o ensures TokensCounted(o) <==>
                     forall k :: Ends(o, Agent.Completed) && 0 <= k < |o.execution.turns| ==>
                       o.execution.turns[k].outputTokens.Some?
    {
    }
    hide HasFirstOutput, TokensCounted;
    if o :| o in s && HasFirstOutput(o) {
      var i :| 0 <= i < |s| && s[i] == o;
    }
    if o :| o in s && !TokensCounted(o) {
      var i :| 0 <= i < |s| && s[i] == o;
    }
  }
}
