/** What an attempt of the agent loop records, said of the raw stream, calls and
    clock readings: turn measurements, final category and evaluated ids. */
module AgentRecords {
  import opened Common
  import opened AgentLoop
  import Evaluator

  // ---- turn measurements --------------------------------------------------

  // A chunk of output of any kind, without the token telemetry.
  predicate IsChunk(e: Event) {
    e.kind.ContentChunk? || e.kind.ReasoningChunk? || e.kind.ToolCallDelta?
  }

  // Everything the stream reports composes over its parts.
  lemma {:induction false} ObservationsCompose(a: seq<Event>, b: seq<Event>)
    ensures Calls(a + b) == Calls(a) + Calls(b)
    ensures TokenTimes(a + b) == TokenTimes(a) + TokenTimes(b)
    ensures OutputCount(a + b) == OutputCount(a) + OutputCount(b)
    ensures ContentChars(a + b) == ContentChars(a) + ContentChars(b)
    ensures LastUsage(a + b) == if LastUsage(b).Some? then LastUsage(b) else LastUsage(a)
    ensures LastQueue(a + b) == if LastQueue(b).Some? then LastQueue(b) else LastQueue(a)
    ensures FirstOutput(a + b) == if FirstOutput(a).Some? then FirstOutput(a) else FirstOutput(b)
  {
    ListsCompose(a, b);
    FiguresCompose(a, b);
    hide *;
  }

  lemma {:induction false} ListsCompose(a: seq<Event>, b: seq<Event>)
    ensures Calls(a + b) == Calls(a) + Calls(b)
    ensures TokenTimes(a + b) == TokenTimes(a) + TokenTimes(b)
  {
    if b == [] {
      assert a + b == a;
    } else {
      hide *;
      var n := |b| - 1;
      var front, last := b[..n], [b[n]];
      ListsCompose(a, front);
      assert a + b == (a + front) + last && b == front + last;
      OneMoreEvent(a + front, b[n]);
      OneMoreEvent(front, b[n]);
      assert Calls(a) + (Calls(front) + Calls(last)) == Calls(a) + Calls(front) + Calls(last);
      assert TokenTimes(a) + (TokenTimes(front) + TokenTimes(last)) == TokenTimes(a + front) + TokenTimes(last);
    }
  }

  lemma {:induction false} FiguresCompose(a: seq<Event>, b: seq<Event>)
    ensures OutputCount(a + b) == OutputCount(a) + OutputCount(b)
    ensures ContentChars(a + b) == ContentChars(a) + ContentChars(b)
    ensures LastUsage(a + b) == if LastUsage(b).Some? then LastUsage(b) else LastUsage(a)
    ensures LastQueue(a + b) == if LastQueue(b).Some? then LastQueue(b) else LastQueue(a)
    ensures FirstOutput(a + b) == if FirstOutput(a).Some? then FirstOutput(a) else FirstOutput(b)
  {
    if b == [] {
      assert a + b == a;
    } else {
      hide OutputCount, ContentChars, LastUsage, LastQueue, FirstOutput;
      var n := |b| - 1;
      FiguresCompose(a, b[..n]);
      assert a + b == (a + b[..n]) + [b[n]] && b == b[..n] + [b[n]];
      OneMoreEvent(a + b[..n], b[n]);
      OneMoreEvent(b[..n], b[n]);
    }
  }

  lemma OneMoreEvent(s: seq<Event>, e: Event)
    ensures Calls(s + [e]) == Calls(s) + Calls([e])
    ensures TokenTimes(s + [e]) == TokenTimes(s) + TokenTimes([e])
    ensures OutputCount(s + [e]) == OutputCount(s) + OutputCount([e])
    ensures ContentChars(s + [e]) == ContentChars(s) + ContentChars([e])
    ensures LastUsage(s + [e]) == if LastUsage([e]).Some? then LastUsage([e]) else LastUsage(s)
    ensures LastQueue(s + [e]) == if LastQueue([e]).Some? then LastQueue([e]) else LastQueue(s)
    ensures FirstOutput(s + [e]) == if FirstOutput(s).Some? then FirstOutput(s) else FirstOutput([e])
  {
    hide StartsOutput, IsOutput, TextOf;
    assert (s + [e])[..|s|] == s && [e][..0] == [];
  }

  // What each kind of event contributes.
  lemma OneEvent(e: Event)
    ensures Calls([e]) == if e.kind.AssembledCall? && e.kind.call.Some? then [e.kind.call.value] else []
    ensures TokenTimes([e]) == if e.kind.Token? then [e.at] else []
    ensures OutputCount([e]) == if IsChunk(e) then 1 else 0
    ensures ContentChars([e]) == if e.kind.ContentChunk? || e.kind.Token? then |e.kind.text| else 0
    ensures LastUsage([e]) == if e.kind.Usage? then e.kind.tokens else None
    ensures LastQueue([e]) == if e.kind.QueueTelemetry? then e.kind.ms else None
    ensures FirstOutput([e]) == if IsChunk(e) || (e.kind.Token? && e.kind.text != "") then Some(e.at) else None
  {
    assert [e][..0] == [];
  }

  // The reported times, in milliseconds: serving runs from dispatch to the end
  // of the stream, and the first output from dispatch to the first event that
  // shows any.
  lemma RecordTimes(t: Turn, i: nat)
    requires i < |t.events|
    requires IsChunk(t.events[i]) || (t.events[i].kind.Token? && t.events[i].kind.text != "")
    requires forall j :: 0 <= j < i ==>
               !IsChunk(t.events[j]) && (t.events[j].kind.Token? ==> t.events[j].kind.text == "")
    ensures RecordOf(t).serving == (t.endedAt - t.dispatchedAt) * 1000.0
    ensures RecordOf(t).ttft == Some((t.events[i].at - t.dispatchedAt) * 1000.0)
  {
    FirstOutputIsEarliest(t.events);
    assert StartsOutput(t.events[i].kind);
    assert forall j :: 0 <= j < i ==> !StartsOutput(t.events[j].kind);
    hide StartsOutput;
    var k :| 0 <= k < |t.events| && StartsOutput(t.events[k].kind) && t.events[k].at == FirstOutput(t.events).value
             && forall j :: 0 <= j < k ==> !StartsOutput(t.events[j].kind);
    assert k == i;
  }

  // Without any output no time to first output is reported.
  lemma NoFirstOutput(t: Turn)
    requires forall j :: 0 <= j < |t.events| ==>
               !IsChunk(t.events[j]) && (t.events[j].kind.Token? ==> t.events[j].kind.text == "")
    ensures RecordOf(t).ttft.None?
  {
    FirstOutputIsEarliest(t.events);
  }

  // Gap k lies between token k and token k + 1.
  lemma {:induction false} GapAt(times: seq<real>, k: nat)
    requires k + 1 < |times|
    ensures |Gaps(times)| == |times| - 1 && Gaps(times)[k] == (times[k + 1] - times[k]) * 1000.0
  {
    var n := |times| - 1;
    GapCount(times[..n]);
    if k + 1 < n {
      GapAt(times[..n], k);
    }
  }

  lemma {:induction false} GapCount(times: seq<real>)
    requires times != []
    ensures |Gaps(times)| == |times| - 1
  {
    if |times| >= 2 {
      GapCount(times[..|times| - 1]);
    }
  }

  lemma RecordCounts(t: Turn)
    ensures var r, times := RecordOf(t), TokenTimes(t.events);
            && r.chunkCount == OutputCount(t.events) && r.contentChars == ContentChars(t.events)
            && r.outputTokens == LastUsage(t.events) && r.queue == LastQueue(t.events)
            && (r.itlAvailable <==> |times| >= 2)
            && |r.gaps| == (if |times| >= 2 then |times| - 1 else 0)
            && forall k :: 0 <= k < |r.gaps| ==> r.gaps[k] == (times[k + 1] - times[k]) * 1000.0
  {
    var r, times := RecordOf(t), TokenTimes(t.events);
    GapsTelescope(times);
    forall k | 0 <= k < |r.gaps| ensures r.gaps[k] == (times[k + 1] - times[k]) * 1000.0 {
      GapAt(times, k);
    }
  }

  // ---- how a turn ends ----------------------------------------------------

  predicate TimedOut(s: State) {
    s.finished && !s.escaped && s.status == Timeout && s.category == Some(TaskTimeout)
  }

  predicate FailedWith(s: State, category: Category) {
    s.finished && !s.escaped && s.status == Error && s.category == Some(category)
  }

  // Before the stream is read to its end.
  lemma StreamEndings(config: Config, t: Turn, s: State)
    requires !s.finished && !s.escaped
    ensures var r := TakeTurn(config, t, s);
            var late := || t.checkedAt >= config.deadline
                        || exists i :: 0 <= i < |t.events| && t.events[i].at >= config.deadline;
            && (late || t.end.ClientTimeout? ==> TimedOut(r))
            && (!late && t.end.ClientError? ==> FailedWith(r, EndpointError))
            && (!late && t.end.ClientCrashed? ==> FailedWith(r, AgentRuntimeError))
            && (!late && t.end.NativeError? ==>
                  && (t.end.reason == "unknown_tool" ==> FailedWith(r, InvalidToolName))
                  && (t.end.reason == "invalid_arguments" ==> FailedWith(r, InvalidToolArguments))
                  && (t.end.reason != "unknown_tool" && t.end.reason != "invalid_arguments" ==>
                        FailedWith(r, MalformedToolCall)))
            && (!late && t.end.Exhausted? && t.recordedAt >= config.deadline ==> TimedOut(r))
            && (!late && t.end.Exhausted? && t.recordedAt < config.deadline && |Calls(t.events)| != 1 ==>
                  FailedWith(r, MalformedToolCall))
  {
    hide RecordOf, Calls;
    assert "unknown_tool"[0] == 'u' && "invalid_arguments"[0] == 'i';
  }

  // Once the stream made a single call in time.
  lemma CallEndings(config: Config, t: Turn, s: State)
    requires !s.finished && !s.escaped
    requires t.checkedAt < config.deadline && InTimeEvents(t.events, config.deadline) && t.recordedAt < config.deadline
    requires OneCall(t)
    ensures var r := TakeTurn(config, t, s);
            var terminal := Calls(t.events)[0].name == "recommend_remediation";
            && (t.tool.UnknownTool? ==> FailedWith(r, InvalidToolName))
            && (t.tool.ToolCrashed? ==> FailedWith(r, AgentRuntimeError))
            && (t.tool.BadArguments? && !(terminal && config.controller.WorkflowController?) ==>
                  FailedWith(r, InvalidToolArguments))
            && (t.tool.BadArguments? && terminal && config.controller.WorkflowController? && t.verdict.Accepted? ==>
                  FailedWith(r, InvalidToolArguments))
            && (t.tool.Ran? && terminal && !config.controller.NoController? && t.verdict.VerdictRaised? ==>
                  FailedWith(r, AgentRuntimeError))
            && (t.tool.Ran? && !terminal && !config.controller.NoController? && t.annotation.None? ==>
                  FailedWith(r, AgentRuntimeError))
            && (GoesOn(config, t, Calls(t.events)[0]) && t.toolDoneAt >= config.deadline ==> TimedOut(r))
            && (Accepts(config, t, Calls(t.events)[0]) && t.toolDoneAt >= config.deadline ==> TimedOut(r))
  {
    hide RecordOf, Calls, InTimeEvents, HasAnswer;
  }

  // An accepted recommendation in time completes the run with its three
  // arguments, and one that lacks any of them makes an exception escape.
  lemma RecommendationEnds(config: Config, t: Turn, s: State)
    requires !s.finished && !s.escaped
    requires InTime(config, t) && OneCall(t) && Calls(t.events)[0].name == "recommend_remediation" && t.tool.Ran?
    requires config.controller.NoController? || t.verdict.Accepted?
    ensures var r, arguments := TakeTurn(config, t, s), Calls(t.events)[0].arguments;
            && r.finished
            && (!r.escaped <==> {"diagnosis_id", "rationale", "remediation_id"} <= arguments.Keys)
            && (!r.escaped ==>
                  && r.status == Completed && r.category.None? && r.answer.Some?
                  && r.answer.value.diagnosisId == arguments["diagnosis_id"]
                  && r.answer.value.rationale == arguments["rationale"]
                  && r.answer.value.remediationId == arguments["remediation_id"])
  {
    hide RecordOf, Calls, InTimeEvents;
  }

  // A turn that does not go on decides the run.
  lemma DecidingTurn(config: Config, script: nat -> Turn, k: nat)
    requires k < config.maxTurns && AllContinue(config, script, k) && !Continues(config, script(k))
    ensures !After(config, script, k).finished && !After(config, script, k).escaped
    ensures Outcome(config, script) == TakeTurn(config, script(k), After(config, script, k))
  {
    hide TakeTurn, Continues;
    RunContinues(config, script, k);
    RunShape(config, script, k);
    ContinuesExactly(config, script(k), After(config, script, k));
    FinishedStays(config, script, k + 1, config.maxTurns);
  }

  // A used-up budget: without a terminal call nothing was recommended; with one,
  // the controller that rejected it names its own reason.
  lemma UsedUpBudget(config: Config, script: nat -> Turn)
    requires AllContinue(config, script, config.maxTurns)
    ensures var s := Outcome(config, script);
            var asked := exists j: nat :: j < config.maxTurns && RejectedTurn(config, script(j));
            && (!asked ==> FailedWith(s, NoTerminalRecommendation))
            && (asked ==> !config.controller.NoController?)
            && (asked && config.controller.EvidenceController? ==> FailedWith(s, DirectEvidenceRequired))
            && (asked && config.controller.WorkflowController? ==> FailedWith(s, WorkflowRequirementsUnmet))
  {
    hide TakeTurn, AllContinue;
    RunContinues(config, script, config.maxTurns);
    RunShape(config, script, config.maxTurns);
    RejectedSomething(config, script, config.maxTurns);
    hide After;
  }

  // ---- what the evaluator is given ----------------------------------------

  // The ids that are graded are the arguments of the completing call, and each
  // id gate passes exactly when its own argument is among its own accepted ids.
  lemma GradedIds(
      config: Config, script: nat -> Turn, k: nat, view: Entry -> Evaluator.Trace, e2e: real,
      fold: Evaluator.Fold, scenario: Evaluator.Scenario)
    requires k < config.maxTurns && CompletesAt(config, script, k)
    ensures k < |Outcome(config, script).trace|
    ensures var call := Outcome(config, script).trace[k].call;
            var e := Evaluator.FromAgent(Outcome(config, script), view, e2e);
            var gates := Evaluator.GatesOf(fold, scenario, e);
            && {"diagnosis_id", "remediation_id"} <= call.arguments.Keys
            && e.diagnosisId == Some(call.arguments["diagnosis_id"])
            && e.remediationId == Some(call.arguments["remediation_id"])
            && gates[1].id == "diagnosis" && gates[2].id == "remediation"
            && (gates[1].passed <==> call.arguments["diagnosis_id"] in scenario.acceptedDiagnoses)
            && (gates[2].passed <==> call.arguments["remediation_id"] in scenario.acceptedRemediations)
  {
    CompletedAnswer(config, script, k);
    CompletedExactly(config, script);
    hide Outcome, CompletesAt, Evaluator.PredicateSatisfied;
  }

  // An attempt without a recommendation fails both id gates.
  lemma UngradedIds(
      config: Config, script: nat -> Turn, view: Entry -> Evaluator.Trace, e2e: real,
      fold: Evaluator.Fold, scenario: Evaluator.Scenario)
    requires Outcome(config, script).answer.None?
    ensures var gates := Evaluator.GatesOf(fold, scenario, Evaluator.FromAgent(Outcome(config, script), view, e2e));
            !gates[1].passed && !gates[2].passed
  {
    hide Outcome, Evaluator.PredicateSatisfied;
  }
}
