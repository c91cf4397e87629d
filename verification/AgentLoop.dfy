/** The agent turn loop (src/blackwell_lab/workload/agent.py: run_task; the same
    loop in catalog_agent.py), over an arbitrary script of what the endpoint, the
    tools, the controller and the clock do. */
module AgentLoop {
  import opened Common
  import opened RealAverages

  const TERMINAL_TOOL := "recommend_remediation"
  const REQUIRED_KEYS := {"diagnosis_id", "rationale", "remediation_id"}

  datatype Call = Call(id: string, name: string, arguments: map<string, string>)

  datatype Message =
    | System(text: string)
    | User(text: string)
    | Assistant(call: Call)
    | ToolReply(content: string, callId: string)

  datatype Kind =
    | ContentChunk(text: string)
    | ReasoningChunk
    | ToolCallDelta
    | Token(text: string)
    | AssembledCall(call: Option<Call>)
    | Usage(tokens: Option<nat>)
    | QueueTelemetry(ms: Option<real>)
    | Unknown

  // A stream event with the clock reading taken when it was received.
  datatype Event = Event(at: real, kind: Kind)

  datatype StreamEnd = Exhausted | ClientTimeout | NativeError(reason: string) | ClientError | ClientCrashed

  datatype ToolOutcome = UnknownTool | BadArguments | ToolCrashed | Ran(payload: string)

  datatype Verdict = Accepted | Rejected(payload: string) | VerdictRaised

  // Everything the environment does during one turn.
  datatype Turn = Turn(
    checkedAt: real, dispatchedAt: real, events: seq<Event>, end: StreamEnd, endedAt: real, recordedAt: real,
    tool: ToolOutcome, verdict: Verdict, annotation: Option<string>, latency: real, toolDoneAt: real)

  datatype Controller = NoController | EvidenceController | WorkflowController

  datatype Config = Config(
    systemPrompt: string, taskPrompt: string, deadline: real, maxTurns: nat, controller: Controller)

  datatype Category =
    | EndpointError | MalformedToolCall | InvalidToolName | InvalidToolArguments | NoTerminalRecommendation
    | DirectEvidenceRequired | WorkflowRequirementsUnmet | TaskTimeout | AgentRuntimeError

  datatype Status = Error | Timeout | Completed

  datatype Answer = Answer(diagnosisId: string, rationale: string, remediationId: string)

  datatype TurnRecord = TurnRecord(
    ttft: Option<real>, serving: real, chunkCount: nat, contentChars: nat, gaps: seq<real>, itlAvailable: bool,
    outputTokens: Option<nat>, queue: Option<real>)

  datatype Entry = Entry(call: Call, payload: string, latency: real)

  // The execution record with the conversation and every conversation sent.
  datatype State = State(
    messages: seq<Message>, sent: seq<seq<Message>>, turns: seq<TurnRecord>, trace: seq<Entry>, rejected: nat,
    finished: bool, escaped: bool, status: Status, category: Option<Category>, answer: Option<Answer>)

  // ---- one streamed turn --------------------------------------------------

  predicate StartsOutput(k: Kind) {
    k.ContentChunk? || k.ReasoningChunk? || k.ToolCallDelta? || (k.Token? && k.text != "")
  }

  predicate IsOutput(k: Kind) {
    k.ContentChunk? || k.ReasoningChunk? || k.ToolCallDelta?
  }

  function TextOf(k: Kind): string {
    match k
    case ContentChunk(text) => text
    case Token(text) => text
    case _ => ""
  }

  function FirstOutput(events: seq<Event>): Option<real> {
    if events == [] then None
    else
      var n := |events| - 1;
      var before := FirstOutput(events[..n]);
      if before.None? && StartsOutput(events[n].kind) then Some(events[n].at) else before
  }

  function OutputCount(events: seq<Event>): nat {
    if events == [] then 0
    else OutputCount(events[..|events| - 1]) + (if IsOutput(events[|events| - 1].kind) then 1 else 0)
  }

  function ContentChars(events: seq<Event>): nat {
    if events == [] then 0 else ContentChars(events[..|events| - 1]) + |TextOf(events[|events| - 1].kind)|
  }

  function Calls(events: seq<Event>): seq<Call> {
    if events == [] then []
    else
      var k := events[|events| - 1].kind;
      Calls(events[..|events| - 1]) + (if k.AssembledCall? && k.call.Some? then [k.call.value] else [])
  }

  function TokenTimes(events: seq<Event>): seq<real> {
    if events == [] then []
    else
      var n := |events| - 1;
      TokenTimes(events[..n]) + (if events[n].kind.Token? then [events[n].at] else [])
  }

  function LastUsage(events: seq<Event>): Option<nat> {
    if events == [] then None
    else
      var k := events[|events| - 1].kind;
      if k.Usage? && k.tokens.Some? then k.tokens else LastUsage(events[..|events| - 1])
  }

  function LastQueue(events: seq<Event>): Option<real> {
    if events == [] then None
    else
      var k := events[|events| - 1].kind;
      if k.QueueTelemetry? && k.ms.Some? then k.ms else LastQueue(events[..|events| - 1])
  }

  predicate InTimeEvents(events: seq<Event>, deadline: real) {
    forall i :: 0 <= i < |events| ==> events[i].at < deadline
  }

  // _completed_turn_record
  function Gaps(times: seq<real>): seq<real> {
    if |times| < 2 then [] else Gaps(times[..|times| - 1]) + [(times[|times| - 1] - times[|times| - 2]) * 1000.0]
  }

  function RecordOf(t: Turn): TurnRecord {
    var first := FirstOutput(t.events);
    TurnRecord(
      if first.Some? then Some((first.value - t.dispatchedAt) * 1000.0) else None,
      (t.endedAt - t.dispatchedAt) * 1000.0, OutputCount(t.events), ContentChars(t.events),
      Gaps(TokenTimes(t.events)), |TokenTimes(t.events)| >= 2, LastUsage(t.events), LastQueue(t.events))
  }

  function NativeCategory(reason: string): Category {
    if reason == "unknown_tool" then InvalidToolName
    else if reason == "invalid_arguments" then InvalidToolArguments
    else MalformedToolCall
  }

  // ---- the tool and the controller ----------------------------------------

  // Whether schema-invalid terminal arguments go to the controller.
  predicate Correctable(controller: Controller, name: string) {
    controller.WorkflowController? && name == TERMINAL_TOOL
  }

  datatype Dispatch = Ends(category: Category) | Escapes | Logged(payload: string, accepted: bool, rejected: nat)

  function DispatchCall(controller: Controller, t: Turn, call: Call): Dispatch {
    match t.tool
    case UnknownTool => Ends(InvalidToolName)
    case BadArguments =>
      if !Correctable(controller, call.name) then Ends(InvalidToolArguments)
      else (match t.verdict
            case Accepted => Ends(InvalidToolArguments)
            case Rejected(payload) => Logged(payload, false, 1)
            case VerdictRaised => Escapes)
    case ToolCrashed => Ends(AgentRuntimeError)
    case Ran(payload) =>
      if controller.NoController? then Logged(payload, call.name == TERMINAL_TOOL, 0)
      else if call.name == TERMINAL_TOOL then
        (match t.verdict
         case Accepted => Logged(payload, true, 0)
         case Rejected(other) => Logged(other, false, 1)
         case VerdictRaised => Ends(AgentRuntimeError))
      else if t.annotation.Some? then Logged(t.annotation.value, false, 0)
      else Ends(AgentRuntimeError)
  }

  predicate HasAnswer(call: Call) {
    REQUIRED_KEYS <= call.arguments.Keys
  }

  function AnswerOf(call: Call): Answer
    requires HasAnswer(call)
  {
    Answer(call.arguments["diagnosis_id"], call.arguments["rationale"], call.arguments["remediation_id"])
  }

  // ---- the loop -----------------------------------------------------------

  function Finish(s: State, status: Status, category: Option<Category>): State {
    s.(finished := true, status := status, category := category)
  }

  function Expire(s: State): State {
    Finish(s, Timeout, Some(TaskTimeout))
  }

  function Fail(s: State, category: Category): State {
    Finish(s, Error, Some(category))
  }

  function Escape(s: State): State {
    s.(finished := true, escaped := true)
  }

  function AfterTool(config: Config, t: Turn, call: Call, payload: string, accepted: bool, s: State): State {
    var logged := s.(trace := s.trace + [Entry(call, payload, t.latency)]);
    if t.toolDoneAt >= config.deadline then Expire(logged)
    else if !accepted then logged.(messages := logged.messages + [ToolReply(payload, call.id)])
    else if !HasAnswer(call) then Escape(logged)
    else Finish(logged.(answer := Some(AnswerOf(call))), Completed, None)
  }

  function OnCall(config: Config, t: Turn, call: Call, s: State): State {
    var asked := s.(messages := s.messages + [Assistant(call)]);
    match DispatchCall(config.controller, t, call)
    case Ends(category) => Fail(asked, category)
    case Escapes => Escape(asked)
    case Logged(payload, accepted, rejected) =>
      AfterTool(config, t, call, payload, accepted, asked.(rejected := asked.rejected + rejected))
  }

  function AfterStream(config: Config, t: Turn, s: State): State {
    if t.recordedAt >= config.deadline then Expire(s)
    else if |Calls(t.events)| != 1 then Fail(s, MalformedToolCall)
    else OnCall(config, t, Calls(t.events)[0], s)
  }

  function Stream(config: Config, t: Turn, s: State): State {
    var sending := s.(sent := s.sent + [s.messages]);
    if !InTimeEvents(t.events, config.deadline) then Expire(sending)
    else
      match t.end
      case ClientTimeout => Expire(sending)
      case NativeError(reason) =>
        Fail(sending.(turns := sending.turns + [RecordOf(t)]), NativeCategory(reason))
      case ClientError => Fail(sending, EndpointError)
      case ClientCrashed => Fail(sending, AgentRuntimeError)
      case Exhausted => AfterStream(config, t, sending.(turns := sending.turns + [RecordOf(t)]))
  }

  function TakeTurn(config: Config, t: Turn, s: State): State {
    if t.checkedAt >= config.deadline then Expire(s) else Stream(config, t, s)
  }

  function Initial(config: Config): State {
    State([System(config.systemPrompt), User(config.taskPrompt)], [], [], [], 0, false, false, Error, None, None)
  }

  function After(config: Config, script: nat -> Turn, k: nat): State {
    if k == 0 then Initial(config)
    else
      var before := After(config, script, k - 1);
      if before.finished then before else TakeTurn(config, script(k - 1), before)
  }

  function ExhaustedCategory(controller: Controller, rejected: nat): Category {
    if rejected == 0 || controller.NoController? then NoTerminalRecommendation
    else if controller.WorkflowController? then WorkflowRequirementsUnmet
    else DirectEvidenceRequired
  }

  function Outcome(config: Config, script: nat -> Turn): State {
    var s := After(config, script, config.maxTurns);
    if s.finished then s else Fail(s, ExhaustedCategory(config.controller, s.rejected))
  }

  // ---- what a turn of each kind looks like --------------------------------

  // The conversation the trace determines: one assistant call and one reply
  // with the same call id for each entry.
  function Conversation(config: Config, trace: seq<Entry>): seq<Message> {
    if trace == [] then [System(config.systemPrompt), User(config.taskPrompt)]
    else
      var last := trace[|trace| - 1];
      Conversation(config, trace[..|trace| - 1]) + [Assistant(last.call), ToolReply(last.payload, last.call.id)]
  }

  predicate InTime(config: Config, t: Turn) {
    && t.checkedAt < config.deadline
    && InTimeEvents(t.events, config.deadline)
    && t.recordedAt < config.deadline
    && t.toolDoneAt < config.deadline
  }

  predicate OneCall(t: Turn) {
    t.end.Exhausted? && |Calls(t.events)| == 1
  }

  // The terminal tool ran, and the controller, if there is one, accepted.
  predicate Accepts(config: Config, t: Turn, call: Call) {
    && call.name == TERMINAL_TOOL
    && t.tool.Ran?
    && (config.controller.NoController? || t.verdict.Accepted?)
  }

  // Any other tool ran and was annotated, or the controller rejected the
  // terminal arguments, valid or (for the workflow controller) not.
  predicate GoesOn(config: Config, t: Turn, call: Call) {
    if call.name == TERMINAL_TOOL then
      && !config.controller.NoController? && t.verdict.Rejected?
      && (t.tool.Ran? || (t.tool.BadArguments? && config.controller.WorkflowController?))
    else t.tool.Ran? && (config.controller.NoController? || t.annotation.Some?)
  }

  predicate Completes(config: Config, t: Turn) {
    && InTime(config, t) && OneCall(t)
    && Accepts(config, t, Calls(t.events)[0])
    && HasAnswer(Calls(t.events)[0])
  }

  predicate Continues(config: Config, t: Turn) {
    InTime(config, t) && OneCall(t) && GoesOn(config, t, Calls(t.events)[0])
  }

  predicate AllContinue(config: Config, script: nat -> Turn, k: nat) {
    forall j: nat :: j < k ==> Continues(config, script(j))
  }

  // The turns before k went on and turn k completed the run.
  predicate CompletesAt(config: Config, script: nat -> Turn, k: nat) {
    AllContinue(config, script, k) && Completes(config, script(k))
  }

  // ---- one turn -----------------------------------------------------------

  // An unfinished record: one turn, one entry and one conversation for each
  // turn taken, and the conversation is the one the trace determines.
  predicate Ongoing(config: Config, s: State, k: nat) {
    && !s.finished && !s.escaped && s.status == Error && s.category.None? && s.answer.None?
    && |s.turns| == |s.trace| == |s.sent| == k
    && s.messages == Conversation(config, s.trace)
    && SentFollowTrace(config, s)
  }

  predicate SentFollowTrace(config: Config, s: State) {
    forall i :: 0 <= i < |s.sent| ==> i <= |s.trace| && s.sent[i] == Conversation(config, s.trace[..i])
  }

  // A finished record: the taxonomy, and the recommendation exactly on completion.
  predicate Closed(s: State) {
    && s.finished
    && (!s.escaped ==>
          && (s.status == Completed <==> s.category.None?)
          && (s.status == Timeout <==> s.category == Some(TaskTimeout))
          && (s.answer.Some? <==> s.status == Completed))
    && (s.escaped ==> s.answer.None?)
  }

  lemma ContinuesExactly(config: Config, t: Turn, s: State)
    requires !s.finished
    ensures Continues(config, t) <==> !TakeTurn(config, t, s).finished
  {
    hide RecordOf, Calls, InTimeEvents;
  }

  lemma CompletesExactly(config: Config, t: Turn, s: State)
    requires !s.finished && !s.escaped && s.status != Completed
    ensures var r := TakeTurn(config, t, s);
            && (Completes(config, t) <==> r.finished && !r.escaped && r.status == Completed)
            && (Completes(config, t) ==>
                  && r.answer == Some(AnswerOf(Calls(t.events)[0]))
                  && r.trace != [] && r.trace[..|r.trace| - 1] == s.trace
                  && r.trace[|r.trace| - 1].call == Calls(t.events)[0])
  {
    hide RecordOf, Calls, InTimeEvents;
  }

  // What a turn can add: a conversation sent, then a turn record, then an entry.
  predicate Adds(s: State, r: State) {
    && (r.sent == s.sent || r.sent == s.sent + [s.messages])
    && (r.turns == s.turns || (|r.turns| == |s.turns| + 1 && r.sent != s.sent))
    && (r.trace == s.trace || (|r.trace| == |s.trace| + 1 && r.trace[..|s.trace|] == s.trace && r.turns != s.turns))
  }

  // A turn that goes on adds one of each, and the call and reply of its entry.
  predicate GoesOnWith(s: State, r: State) {
    && r.trace != s.trace && r.trace != []
    && (var e := r.trace[|r.trace| - 1];
        r.messages == s.messages + [Assistant(e.call), ToolReply(e.payload, e.call.id)])
    && !r.finished && r.escaped == s.escaped && r.status == s.status && r.category == s.category && r.answer == s.answer
  }

  lemma TurnAdds(config: Config, t: Turn, s: State)
    requires !s.finished && !s.escaped && s.status == Error && s.category.None? && s.answer.None?
    ensures var r := TakeTurn(config, t, s);
            Adds(s, r) && (if r.finished then Closed(r) else GoesOnWith(s, r))
  {
    hide RecordOf, Calls, InTimeEvents, DispatchCall, HasAnswer;
    if |Calls(t.events)| == 1 {
      var call := Calls(t.events)[0];
      DispatchNeverExpires(config.controller, t, call);
      forall payload: string
        ensures (s.messages + [Assistant(call)]) + [ToolReply(payload, call.id)]
             == s.messages + [Assistant(call), ToolReply(payload, call.id)]
      {
      }
    }
  }

  lemma DispatchNeverExpires(controller: Controller, t: Turn, call: Call)
    ensures var d := DispatchCall(controller, t, call); d.Ends? ==> d.category != TaskTimeout
  {
  }

  lemma TurnKeepsShape(config: Config, t: Turn, s: State, k: nat)
    requires Ongoing(config, s, k)
    ensures var r := TakeTurn(config, t, s);
            && |r.trace| <= |r.turns| <= |r.sent| <= k + 1
            && s.trace <= r.trace
            && SentFollowTrace(config, r)
            && (if r.finished then Closed(r) else Ongoing(config, r, k + 1))
  {
    TurnAdds(config, t, s);
    hide TakeTurn;
    var r := TakeTurn(config, t, s);
    forall i | 0 <= i < |r.sent| ensures i <= |r.trace| && r.sent[i] == Conversation(config, r.trace[..i]) {
      assert s.trace[..k] == s.trace;
      assert r.trace[..i] == s.trace[..i];
    }
  }

  // ---- whole runs ---------------------------------------------------------

  lemma {:induction false} RunShape(config: Config, script: nat -> Turn, k: nat)
    ensures var s := After(config, script, k);
            && |s.trace| <= |s.turns| <= |s.sent| <= k
            && SentFollowTrace(config, s)
            && (if s.finished then Closed(s) else Ongoing(config, s, k))
  {
    if k > 0 {
      RunShape(config, script, k - 1);
      var before := After(config, script, k - 1);
      if !before.finished {
        TurnKeepsShape(config, script(k - 1), before, k - 1);
      }
    }
  }

  lemma {:induction false} RunContinues(config: Config, script: nat -> Turn, k: nat)
    ensures !After(config, script, k).finished <==> AllContinue(config, script, k)
  {
    hide TakeTurn, Continues;
    if k > 0 {
      RunContinues(config, script, k - 1);
      var before := After(config, script, k - 1);
      if !before.finished {
        ContinuesExactly(config, script(k - 1), before);
        assert AllContinue(config, script, k) <==> Continues(config, script(k - 1));
      }
    }
  }

  lemma {:induction false} FinishedStays(config: Config, script: nat -> Turn, k: nat, m: nat)
    requires k <= m && After(config, script, k).finished
    ensures After(config, script, m) == After(config, script, k)
  {
    hide TakeTurn;
    if k < m {
      FinishedStays(config, script, k, m - 1);
    }
  }

  // The turn at which a finished run finished.
  lemma {:induction false} FinishingTurn(config: Config, script: nat -> Turn, m: nat) returns (k: nat)
    requires After(config, script, m).finished
    ensures k < m && !After(config, script, k).finished && AllContinue(config, script, k)
    ensures After(config, script, m) == TakeTurn(config, script(k), After(config, script, k))
  {
    hide TakeTurn, Continues;
    if After(config, script, m - 1).finished {
      k := FinishingTurn(config, script, m - 1);
    } else {
      k := m - 1;
      RunContinues(config, script, k);
    }
  }

  // ---- main results -------------------------------------------------------

  // Whatever the environment does, the record is bounded by the turn budget,
  // ends in exactly one documented category, and carries a recommendation
  // exactly when it is completed.
  lemma OutcomeIsBounded(config: Config, script: nat -> Turn)
    ensures var s := Outcome(config, script);
            |s.trace| <= |s.turns| <= |s.sent| <= config.maxTurns && Closed(s)
  {
    RunShape(config, script, config.maxTurns);
  }

  // Every conversation sent is the system and task prompts followed by one
  // (assistant call, tool reply) pair for each entry traced before it.
  lemma ConversationsAreWellFormed(config: Config, script: nat -> Turn, i: nat)
    requires i < |Outcome(config, script).sent|
    ensures var s := Outcome(config, script);
            && i <= |s.trace|
            && |s.sent[i]| == 2 + 2 * i
            && s.sent[i][0] == System(config.systemPrompt) && s.sent[i][1] == User(config.taskPrompt)
            && (forall j: nat :: j < i ==> PairAt(s.sent[i], j, s.trace[j]))
  {
    RunShape(config, script, config.maxTurns);
    var s := Outcome(config, script);
    assert SentFollowTrace(config, s);
    ConversationShape(config, s.trace[..i]);
    forall j: nat | j < i ensures PairAt(s.sent[i], j, s.trace[j]) {
      assert PairAt(s.sent[i], j, s.trace[..i][j]);
    }
  }

  // Pair j of a conversation: a call and its reply under the same call id.
  predicate PairAt(messages: seq<Message>, j: nat, e: Entry) {
    && 2 * j + 3 < |messages|
    && messages[2 * j + 2] == Assistant(e.call)
    && messages[2 * j + 3] == ToolReply(e.payload, e.call.id)
  }

  lemma {:induction false} ConversationShape(config: Config, trace: seq<Entry>)
    ensures var c := Conversation(config, trace);
            && |c| == 2 + 2 * |trace|
            && c[0] == System(config.systemPrompt) && c[1] == User(config.taskPrompt)
            && forall j: nat :: j < |trace| ==> PairAt(c, j, trace[j])
  {
    if trace != [] {
      var n := |trace| - 1;
      ConversationShape(config, trace[..n]);
      var front := Conversation(config, trace[..n]);
      forall j: nat | j < |trace| ensures PairAt(Conversation(config, trace), j, trace[j]) {
        if j < n {
          assert PairAt(front, j, trace[..n][j]);
        }
      }
    }
  }

  // A task is completed exactly when some turn within the budget makes a single
  // accepted terminal call with every deadline check passed, and every earlier
  // turn went on. The answer is that call's, and it is the last entry traced.
  lemma CompletedExactly(config: Config, script: nat -> Turn)
    ensures var s := Outcome(config, script);
            !s.escaped && s.status == Completed <==>
              exists k: nat :: k < config.maxTurns && CompletesAt(config, script, k)
  {
    hide TakeTurn, Continues, Completes;
    var m := config.maxTurns;
    var s := Outcome(config, script);
    if !s.escaped && s.status == Completed {
      var k := FinishingTurn(config, script, m);
      RunShape(config, script, k);
      CompletesExactly(config, script(k), After(config, script, k));
      assert CompletesAt(config, script, k);
    }
    if k: nat :| k < m && CompletesAt(config, script, k) {
      RunContinues(config, script, k);
      RunShape(config, script, k);
      CompletesExactly(config, script(k), After(config, script, k));
      FinishedStays(config, script, k + 1, m);
    }
  }

  lemma CompletedAnswer(config: Config, script: nat -> Turn, k: nat)
    requires k < config.maxTurns && CompletesAt(config, script, k)
    ensures var s := Outcome(config, script);
            && |s.turns| == |s.trace| == k + 1
            && s.trace[k].call == Calls(script(k).events)[0] && s.trace[k].call.name == TERMINAL_TOOL
            && (var arguments := s.trace[k].call.arguments;
                && {"diagnosis_id", "rationale", "remediation_id"} <= arguments.Keys && s.answer.Some?
                && s.answer.value.diagnosisId == arguments["diagnosis_id"]
                && s.answer.value.rationale == arguments["rationale"]
                && s.answer.value.remediationId == arguments["remediation_id"])
  {
    RunContinues(config, script, k);
    RunShape(config, script, k);
    var before := After(config, script, k);
    CompletesExactly(config, script(k), before);
    TurnKeepsShape(config, script(k), before, k);
    FinishedStays(config, script, k + 1, config.maxTurns);
    assert |Outcome(config, script).trace| == k + 1;
  }

  // The budget is exhausted exactly when every turn of it goes on. Without a
  // controller that is always "no terminal recommendation".
  lemma ExhaustedExactly(config: Config, script: nat -> Turn)
    ensures var s := Outcome(config, script);
            && (AllContinue(config, script, config.maxTurns) <==> !After(config, script, config.maxTurns).finished)
            && (AllContinue(config, script, config.maxTurns) ==>
                  && |s.trace| == |s.turns| == config.maxTurns && s.status == Error
                  && s.category == Some(ExhaustedCategory(config.controller, s.rejected)))
  {
    RunContinues(config, script, config.maxTurns);
    RunShape(config, script, config.maxTurns);
  }

  // ---- what is rejected ---------------------------------------------------

  // The rejected terminal calls among the entries of a run that goes on.
  predicate RejectedTurn(config: Config, t: Turn) {
    && Continues(config, t)
    && Calls(t.events)[0].name == TERMINAL_TOOL
  }

  // A rejected terminal call is counted and answered with the controller's
  // payload, never with the tool's own result; other tools are annotated.
  lemma RejectionCounts(config: Config, t: Turn, s: State)
    requires !s.finished && Continues(config, t)
    ensures var r := TakeTurn(config, t, s);
            && r.rejected == s.rejected + (if RejectedTurn(config, t) then 1 else 0)
            && r.trace == s.trace + [Entry(
                 Calls(t.events)[0],
                 if RejectedTurn(config, t) then t.verdict.payload
                 else if config.controller.NoController? then t.tool.payload
                 else t.annotation.value,
                 t.latency)]
  {
    hide RecordOf, Calls, InTimeEvents;
  }

  // An exhausted budget is blamed on the controller exactly when some turn made
  // a terminal call: the controller then rejected each of them.
  lemma {:induction false} RejectedSomething(config: Config, script: nat -> Turn, k: nat)
    requires AllContinue(config, script, k)
    ensures After(config, script, k).rejected > 0 <==> exists j: nat :: j < k && RejectedTurn(config, script(j))
  {
    hide TakeTurn, Continues, RejectedTurn;
    if k > 0 {
      assert AllContinue(config, script, k - 1);
      RejectedSomething(config, script, k - 1);
      RunContinues(config, script, k - 1);
      RejectionCounts(config, script(k - 1), After(config, script, k - 1));
    }
  }

  // An exception leaves the loop exactly when, after turns that went on, the
  // workflow controller raises while judging schema-invalid terminal arguments,
  // or an accepted terminal call lacks a field of the recommendation.
  lemma EscapesExactly(config: Config, script: nat -> Turn)
    ensures Outcome(config, script).escaped <==>
            exists k: nat :: k < config.maxTurns && AllContinue(config, script, k) && EscapingTurn(config, script(k))
  {
    hide TakeTurn, Continues, EscapingTurn;
    var m := config.maxTurns;
    RunShape(config, script, m);
    if Outcome(config, script).escaped {
      var k := FinishingTurn(config, script, m);
      RunShape(config, script, k);
      TurnEscapes(config, script(k), After(config, script, k));
    }
    if k: nat :| k < m && AllContinue(config, script, k) && EscapingTurn(config, script(k)) {
      RunContinues(config, script, k);
      RunShape(config, script, k);
      TurnEscapes(config, script(k), After(config, script, k));
      TurnEscapesFinished(config, script(k), After(config, script, k));
      FinishedStays(config, script, k + 1, m);
    }
  }

  predicate EscapingTurn(config: Config, t: Turn) {
    && t.checkedAt < config.deadline && InTimeEvents(t.events, config.deadline) && t.recordedAt < config.deadline
    && OneCall(t)
    && Calls(t.events)[0].name == TERMINAL_TOOL
    && (|| (t.tool.BadArguments? && config.controller.WorkflowController? && t.verdict.VerdictRaised?)
        || (t.toolDoneAt < config.deadline && Accepts(config, t, Calls(t.events)[0]) && !HasAnswer(Calls(t.events)[0])))
  }

  lemma TurnEscapes(config: Config, t: Turn, s: State)
    requires !s.finished && !s.escaped
    ensures TakeTurn(config, t, s).escaped <==> EscapingTurn(config, t)
  {
    hide RecordOf, Calls, InTimeEvents, HasAnswer;
  }

  lemma TurnEscapesFinished(config: Config, t: Turn, s: State)
    requires !s.escaped && TakeTurn(config, t, s).escaped
    ensures TakeTurn(config, t, s).finished
  {
    hide RecordOf, Calls, InTimeEvents, HasAnswer, DispatchCall;
  }

  // ---- the turn record ----------------------------------------------------

  predicate Monotone(t: Turn) {
    && (forall i :: 0 <= i < |t.events| ==> t.dispatchedAt <= t.events[i].at <= t.endedAt)
    && (forall i, j :: 0 <= i < j < |t.events| ==> t.events[i].at <= t.events[j].at)
    && t.dispatchedAt <= t.endedAt
  }

  // The time to first output is that of the earliest output event.
  lemma {:induction false} FirstOutputIsEarliest(events: seq<Event>)
    ensures FirstOutput(events).None? <==> forall i :: 0 <= i < |events| ==> !StartsOutput(events[i].kind)
    ensures FirstOutput(events).Some? ==>
              exists i :: 0 <= i < |events| && StartsOutput(events[i].kind) && events[i].at == FirstOutput(events).value
                          && forall j :: 0 <= j < i ==> !StartsOutput(events[j].kind)
  {
    if events != [] {
      var n := |events| - 1;
      var front := events[..n];
      FirstOutputIsEarliest(front);
      if FirstOutput(front).Some? {
        var i :| 0 <= i < n && StartsOutput(front[i].kind) && front[i].at == FirstOutput(front).value
                 && forall j :: 0 <= j < i ==> !StartsOutput(front[j].kind);
        assert events[i] == front[i];
        forall j | 0 <= j < i ensures !StartsOutput(events[j].kind) {
          assert events[j] == front[j];
        }
      } else {
        forall j | 0 <= j < n ensures !StartsOutput(events[j].kind) {
          assert events[j] == front[j];
        }
      }
    }
  }

  // There is one gap between consecutive tokens, and the gaps add up to the
  // time from the first token to the last.
  lemma {:induction false} GapsTelescope(times: seq<real>)
    ensures |Gaps(times)| == if times == [] then 0 else |times| - 1
    ensures times != [] ==> Sum(Gaps(times)) == (times[|times| - 1] - times[0]) * 1000.0
  {
    if |times| >= 2 {
      var n := |times| - 1;
      GapsTelescope(times[..n]);
      var gap := (times[n] - times[n - 1]) * 1000.0;
      assert (Gaps(times[..n]) + [gap])[..n - 1] == Gaps(times[..n]);
    }
  }

  // On a clock that does not run backwards the first output falls inside the
  // serving time.
  lemma RecordIsConsistent(t: Turn)
    requires Monotone(t)
    ensures var r := RecordOf(t);
            && r.serving >= 0.0
            && (r.ttft.Some? ==> 0.0 <= r.ttft.value <= r.serving)
            && (r.itlAvailable ==> |r.gaps| == |TokenTimes(t.events)| - 1)
            && (!r.itlAvailable ==> r.gaps == [])
  {
    FirstOutputIsEarliest(t.events);
    GapsTelescope(TokenTimes(t.events));
  }

  lemma NothingObserved()
    ensures FirstOutput([]).None? && OutputCount([]) == 0 && ContentChars([]) == 0 && Calls([]) == []
    ensures TokenTimes([]) == [] && LastUsage([]).None? && LastQueue([]).None?
  {
  }

  lemma OneMoreObserved(events: seq<Event>, i: nat)
    requires i < |events|
    ensures var front, k := events[..i], events[i].kind;
            var more := events[..i + 1];
            && FirstOutput(more) ==
              (if FirstOutput(front).None? && StartsOutput(k) then Some(events[i].at) else FirstOutput(front))
            && OutputCount(more) == OutputCount(front) + (if IsOutput(k) then 1 else 0)
            && ContentChars(more) == ContentChars(front) + |TextOf(k)|
            && Calls(more) == Calls(front) + (if k.AssembledCall? && k.call.Some? then [k.call.value] else [])
            && TokenTimes(more) == TokenTimes(front) + (if k.Token? then [events[i].at] else [])
            && LastUsage(more) == (if k.Usage? && k.tokens.Some? then k.tokens else LastUsage(front))
            && LastQueue(more) == (if k.QueueTelemetry? && k.ms.Some? then k.ms else LastQueue(front))
  {
    hide StartsOutput, IsOutput, TextOf;
    assert events[..i + 1][..i] == events[..i];
  }

  // ---- the loop as it runs ------------------------------------------------

  class TaskExecution {
    const config: Config
    var messages: seq<Message>
    var turns: seq<TurnRecord>
    var toolTrace: seq<Entry>
    var rejected: nat
    var status: Status
    var errorCategory: Option<Category>
    var answer: Option<Answer>
    var finished: bool
    var escaped: bool
    ghost var sent: seq<seq<Message>>

    ghost function View(): State
      reads this
    {
      State(messages, sent, turns, toolTrace, rejected, finished, escaped, status, errorCategory, answer)
    }

    constructor (config: Config)
      ensures this.config == config && View() == Initial(config)
    {
      this.config := config;
      messages := [System(config.systemPrompt), User(config.taskPrompt)];
      turns, toolTrace, sent, rejected := [], [], [], 0;
      status, errorCategory, answer, finished, escaped := Error, None, None, false, false;
    }

    method FinishWith(status: Status, category: Option<Category>)
      modifies this
      ensures View() == Finish(old(View()), status, category)
    {
      this.status, errorCategory, finished := status, category, true;
    }

    // Consume the stream, stopping at the first event received too late.
    method Consume(t: Turn) returns (late: bool, calls: seq<Call>, record: TurnRecord)
      ensures late <==> !InTimeEvents(t.events, config.deadline)
      ensures !late ==> calls == Calls(t.events) && record == RecordOf(t)
    {
      hide StartsOutput, IsOutput, TextOf, FirstOutput, OutputCount, ContentChars, Calls, TokenTimes, LastUsage,
           LastQueue;
      var events := t.events;
      var first: Option<real>, outputs, chars := None, 0, 0;
      var times, usage: Option<nat>, queue: Option<real> := [], None, None;
      calls, record := [], TurnRecord(None, 0.0, 0, 0, [], false, None, None);
      NothingObserved();
      var i := 0;
      while i < |events|
        invariant 0 <= i <= |events|
        invariant InTimeEvents(events[..i], config.deadline)
        invariant first == FirstOutput(events[..i])
        invariant outputs == OutputCount(events[..i])
        invariant chars == ContentChars(events[..i])
        invariant calls == Calls(events[..i])
        invariant times == TokenTimes(events[..i])
        invariant usage == LastUsage(events[..i])
        invariant queue == LastQueue(events[..i])
      {
        var event := events[i];
        OneMoreObserved(events, i);
        if StartsOutput(event.kind) && first.None? {
          first := Some(event.at);
        }
        if IsOutput(event.kind) {
          outputs := outputs + 1;
        }
        chars := chars + |TextOf(event.kind)|;
        if event.kind.AssembledCall? && event.kind.call.Some? {
          calls := calls + [event.kind.call.value];
        }
        if event.kind.Token? {
          times := times + [event.at];
        } else if event.kind.Usage? && event.kind.tokens.Some? {
          usage := event.kind.tokens;
        } else if event.kind.QueueTelemetry? && event.kind.ms.Some? {
          queue := event.kind.ms;
        }
        if event.at >= config.deadline {
          return true, calls, record;
        }
        i := i + 1;
      }
      assert events[..i] == events;
      var gaps := InterTokenGaps(times);
      record := TurnRecord(
        if first.Some? then Some((first.value - t.dispatchedAt) * 1000.0) else None,
        (t.endedAt - t.dispatchedAt) * 1000.0, outputs, chars, if |times| >= 2 then gaps else [],
        |times| >= 2, usage, queue);
      late := false;
    }

    method InterTokenGaps(times: seq<real>) returns (gaps: seq<real>)
      ensures gaps == Gaps(times)
    {
      gaps := [];
      var i := 1;
      while i < |times|
        invariant 1 <= i && (times != [] ==> i <= |times|)
        invariant gaps == Gaps(if i <= |times| then times[..i] else times)
      {
        gaps := gaps + [(times[i] - times[i - 1]) * 1000.0];
        assert times[..i + 1][..i] == times[..i];
        i := i + 1;
      }
      assert times != [] ==> times[..i] == times;
    }

    method CallTool(t: Turn, call: Call)
      modifies this
      ensures View() == OnCall(config, t, call, old(View()))
    {
      messages := messages + [Assistant(call)];
      var payload, accepted := "", false;
      match t.tool {
        case UnknownTool =>
          FinishWith(Error, Some(InvalidToolName));
          return;
        case BadArguments =>
          if !Correctable(config.controller, call.name) || t.verdict.Accepted? {
            FinishWith(Error, Some(InvalidToolArguments));
            return;
          }
          if t.verdict.VerdictRaised? {
            finished, escaped := true, true;
            return;
          }
          rejected := rejected + 1;
          payload := t.verdict.payload;
        case ToolCrashed =>
          FinishWith(Error, Some(AgentRuntimeError));
          return;
        case Ran(result) =>
          payload, accepted := result, call.name == TERMINAL_TOOL;
          if !config.controller.NoController? {
            if (accepted && t.verdict.VerdictRaised?) || (!accepted && t.annotation.None?) {
              FinishWith(Error, Some(AgentRuntimeError));
              return;
            }
            if !accepted {
              payload := t.annotation.value;
            } else if t.verdict.Rejected? {
              payload, accepted, rejected := t.verdict.payload, false, rejected + 1;
            }
          }
      }
      toolTrace := toolTrace + [Entry(call, payload, t.latency)];
      if t.toolDoneAt >= config.deadline {
        FinishWith(Timeout, Some(TaskTimeout));
      } else if !accepted {
        messages := messages + [ToolReply(payload, call.id)];
      } else if !HasAnswer(call) {
        finished, escaped := true, true;
      } else {
        answer := Some(AnswerOf(call));
        FinishWith(Completed, None);
      }
    }

    method RunTurn(t: Turn)
      modifies this
      ensures View() == TakeTurn(config, t, old(View()))
    {
      hide OnCall, RecordOf, Calls, InTimeEvents;
      if t.checkedAt >= config.deadline {
        FinishWith(Timeout, Some(TaskTimeout));
        return;
      }
      sent := sent + [messages];
      var late, calls, record := Consume(t);
      if late || t.end.ClientTimeout? {
        FinishWith(Timeout, Some(TaskTimeout));
        return;
      }
      match t.end {
        case NativeError(reason) =>
          turns := turns + [record];
          FinishWith(Error, Some(NativeCategory(reason)));
          return;
        case ClientError =>
          FinishWith(Error, Some(EndpointError));
          return;
        case ClientCrashed =>
          FinishWith(Error, Some(AgentRuntimeError));
          return;
        case Exhausted =>
      }
      turns := turns + [record];
      if t.recordedAt >= config.deadline {
        FinishWith(Timeout, Some(TaskTimeout));
        return;
      }
      if |calls| != 1 {
        FinishWith(Error, Some(MalformedToolCall));
        return;
      }
      CallTool(t, calls[0]);
    }

    method RunTask(script: nat -> Turn)
      requires View() == Initial(config)
      modifies this
      ensures View() == Outcome(config, script)
    {
      hide TakeTurn;
      var k := 0;
      while k < config.maxTurns
        invariant k <= config.maxTurns
        invariant View() == After(config, script, k) && !finished
      {
        RunTurn(script(k));
        k := k + 1;
        if finished {
          FinishedStays(config, script, k, config.maxTurns);
          return;
        }
      }
      FinishWith(Error, Some(ExhaustedCategory(config.controller, rejected)));
    }
  }
}
