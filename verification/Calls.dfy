/** A capture from the outside: the calls made on it, with their arguments, and what the artifacts, the summary
    and the emitted event say about them. No dictionary is mentioned. */
module Calls {
  import opened Results
  import opened Merkle
  import opened Records
  import opened Capture
  import opened Artifacts
  import opened Tallies
  import opened Session
  import Batches

  datatype Call =
    | Stepping(description: string, metadata: Data)
    | Thinking(thought: string, reasoningType: string, confidence: Option<real>, context: string)
    | Observing(observation: string, source: string, dataSource: string, sensitivity: string, dataAccessed: seq<string>)
    | Deciding(decision: string, alternatives: seq<string>, rationale: string, confidence: Option<real>, riskFactors: seq<string>)
    | Invoking(toolName: string, inputs: Data, outputs: Json, outcome: ToolOutcome, errorMessage: string, durationMs: int,
               costUsd: real, retryAttempt: int)
    | Failing(errorType: string, message: string, source: string, recoverable: bool, recoveryAction: string)
    | GivingUp(description: string, reason: string)
    | Checking(name: string, checkType: string, blocked: bool, details: string, actionAttempted: string)
    | Delegating(agentId: string, task: string, result: string, outcome: ToolOutcome, durationMs: int)
    | Prompting(model: string, promptTokens: int, completionTokens: int, latencyMs: int, costUsd: real, purpose: string,
                temperature: Option<real>)
    | Aiming(goal: string, goalType: string, parentGoal: string, status: string)

  function TypeOf(call: Call): RecordType {
    match call
    case Stepping(_, _) => STEP
    case Thinking(_, _, _, _) => THOUGHT
    case Observing(_, _, _, _, _) => OBSERVATION
    case Deciding(_, _, _, _, _) => DECISION
    case Invoking(_, _, _, _, _, _, _, _) => TOOL_INVOCATION
    case Failing(_, _, _, _, _) => ERROR
    case GivingUp(_, _) => DEAD_END
    case Checking(_, _, _, _, _) => GUARDRAIL
    case Delegating(_, _, _, _, _) => DELEGATION
    case Prompting(_, _, _, _, _, _, _) => LLM_CALL
    case Aiming(_, _, _, _) => GOAL
  }

  /** The dictionary that the call's recording method builds, after `deadEnds` dead ends. */
  function DataOf(call: Call, deadEnds: nat): Data {
    match call
    case Stepping(description, metadata) => StepData(description, metadata)
    case Thinking(thought, reasoningType, confidence, context) => ThoughtData(thought, reasoningType, confidence, context)
    case Observing(observation, source, dataSource, sensitivity, dataAccessed) =>
      ObservationData(observation, source, dataSource, sensitivity, dataAccessed)
    case Deciding(decision, alternatives, rationale, confidence, riskFactors) =>
      DecisionData(decision, alternatives, rationale, confidence, riskFactors)
    case Invoking(toolName, inputs, outputs, outcome, errorMessage, durationMs, costUsd, retryAttempt) =>
      ToolData(toolName, inputs, outputs, outcome, errorMessage, durationMs, costUsd, retryAttempt)
    case Failing(errorType, message, source, recoverable, recoveryAction) =>
      ErrorData(errorType, message, source, recoverable, recoveryAction)
    case GivingUp(description, reason) => DeadEndData(description, reason, deadEnds + 1)
    case Checking(name, checkType, blocked, details, actionAttempted) =>
      GuardrailData(name, checkType, blocked, details, actionAttempted)
    case Delegating(agentId, task, result, outcome, durationMs) => DelegationData(agentId, task, result, outcome, durationMs)
    case Prompting(model, promptTokens, completionTokens, latencyMs, costUsd, purpose, temperature) =>
      LlmCallData(model, promptTokens, completionTokens, latencyMs, costUsd, purpose, temperature)
    case Aiming(goal, goalType, parentGoal, status) => GoalData(goal, goalType, parentGoal, status)
  }

  /** The attempts that the recording methods make of these calls, none of them after finalisation. */
  function Attempts(sha: Sha256, canon: Canonical, calls: seq<Call>): (r: seq<CaptureRecord>)
    ensures |r| == |calls|
    ensures forall i :: 0 <= i < |r| ==> r[i].recordType == TypeOf(calls[i])
  {
    if calls == [] then [] else
      var (before, call) := (Attempts(sha, canon, calls[..|calls| - 1]), calls[|calls| - 1]);
      before + [RecordOf(sha, canon, TypeOf(call), DataOf(call, |OfType(before, DEAD_END)|))]
  }

  // ----- What a dictionary holds -----

  predicate HoldsConfidence(data: Data, confidence: Option<real>) {
    match confidence
    case None => Confidence !in data
    case Some(c) => Confidence in data && data[Confidence] == Real(if c < 0.0 then 0.0 else if c > 1.0 then 1.0 else c)
  }

  /** Every argument of the call is found under its key. */
  predicate Holds(data: Data, call: Call, deadEnds: nat) {
    match call
    case Stepping(description, metadata) =>
      && (forall field :: field in metadata ==> field in data && data[field] == metadata[field])
      && (Description !in metadata ==> Get(data, Description, Null) == Str(description))
      && data.Keys == metadata.Keys + {Description}
    case Thinking(thought, reasoningType, confidence, context) =>
      && Get(data, Thought, Null) == Str(thought) && Get(data, ReasoningType, Null) == Str(reasoningType)
      && Get(data, Context, Null) == Str(context) && HoldsConfidence(data, confidence)
    case Observing(observation, source, dataSource, sensitivity, dataAccessed) =>
      && Get(data, Observation, Null) == Str(observation) && Get(data, Source, Null) == Str(source)
      && Get(data, DataSource, Null) == Str(dataSource) && Get(data, Sensitivity, Null) == Str(sensitivity)
      && Get(data, DataAccessed, Null) == Strs(dataAccessed)
    case Deciding(decision, alternatives, rationale, confidence, riskFactors) =>
      && Get(data, Decision, Null) == Str(decision) && Get(data, Alternatives, Null) == Strs(alternatives)
      && Get(data, Rationale, Null) == Str(rationale) && Get(data, RiskFactors, Null) == Strs(riskFactors)
      && HoldsConfidence(data, confidence)
    case Invoking(toolName, inputs, outputs, outcome, errorMessage, durationMs, costUsd, retryAttempt) =>
      && Get(data, ToolName, Null) == Str(toolName) && Get(data, Inputs, Null) == Obj(inputs)
      && Outputs in data && data[Outputs] == (if outcome == SUCCESS then outputs else Null)
      && Get(data, Outcome, Null) == Outcomes(outcome) && Get(data, ErrorMessage, Null) == Str(errorMessage)
      && Get(data, DurationMs, Null) == Int(durationMs) && Get(data, CostUsd, Null) == Real(costUsd)
      && Get(data, RetryAttempt, Null) == Int(retryAttempt)
    case Failing(errorType, message, source, recoverable, recoveryAction) =>
      && Get(data, ErrorType, Null) == Str(errorType) && Get(data, Message, Null) == Str(message)
      && Get(data, Source, Null) == Str(source) && Get(data, Recoverable, Null) == Bool(recoverable)
      && Get(data, RecoveryAction, Null) == Str(recoveryAction)
    case GivingUp(description, reason) =>
      && Get(data, Description, Null) == Str(description) && Get(data, Reason, Null) == Str(reason)
      && Get(data, DeadEndIndex, Null) == Int(deadEnds + 1)
    case Checking(name, checkType, blocked, details, actionAttempted) =>
      && Get(data, GuardrailName, Null) == Str(name) && Get(data, CheckType, Null) == Str(checkType)
      && Get(data, Blocked, Null) == Bool(blocked) && Get(data, Details, Null) == Str(details)
      && Get(data, ActionAttempted, Null) == Str(actionAttempted)
    case Delegating(agentId, task, result, outcome, durationMs) =>
      && Get(data, DelegateAgentId, Null) == Str(agentId) && Get(data, Task, Null) == Str(task)
      && Get(data, TaskResult, Null) == Str(result) && Get(data, Outcome, Null) == Outcomes(outcome)
      && Get(data, DurationMs, Null) == Int(durationMs)
    case Prompting(model, promptTokens, completionTokens, latencyMs, costUsd, purpose, temperature) =>
      && Get(data, Model, Null) == Str(model) && Get(data, PromptTokens, Null) == Int(promptTokens)
      && Get(data, CompletionTokens, Null) == Int(completionTokens)
      && Get(data, TotalTokens, Null) == Int(promptTokens + completionTokens)
      && Get(data, LatencyMs, Null) == Int(latencyMs) && Get(data, CostUsd, Null) == Real(costUsd)
      && Get(data, Purpose, Null) == Str(purpose)
      && (if temperature.Some? then Get(data, Temperature, Null) == Real(temperature.value) else Temperature !in data)
    case Aiming(goal, goalType, parentGoal, status) =>
      && Get(data, Goal, Null) == Str(goal) && Get(data, GoalType, Null) == Str(goalType)
      && Get(data, ParentGoal, Null) == Str(parentGoal) && Get(data, Status, Null) == Str(status)
  }

  lemma ConfidenceHolds(data: Data, confidence: Option<real>)
    requires Confidence !in data
    ensures HoldsConfidence(WithConfidence(data, confidence), confidence)
    ensures forall field :: field != Confidence ==>
              (field in data <==> field in WithConfidence(data, confidence))
              && (field in data ==> WithConfidence(data, confidence)[field] == data[field])
  {
  }

  lemma ThoughtHolds(call: Call, deadEnds: nat)
    requires call.Thinking?
    ensures Holds(DataOf(call, deadEnds), call, deadEnds)
  {
    hide WithConfidence, HoldsConfidence;
    ConfidenceHolds(map[Thought := Str(call.thought), ReasoningType := Str(call.reasoningType), Context := Str(call.context)],
                    call.confidence);
  }

  lemma DecisionHolds(call: Call, deadEnds: nat)
    requires call.Deciding?
    ensures Holds(DataOf(call, deadEnds), call, deadEnds)
  {
    hide WithConfidence, HoldsConfidence;
    ConfidenceHolds(map[Decision := Str(call.decision), Alternatives := Strs(call.alternatives),
                        Rationale := Str(call.rationale), RiskFactors := Strs(call.riskFactors)], call.confidence);
  }

  lemma ToolHolds(call: Call, deadEnds: nat)
    requires call.Invoking?
    ensures Holds(DataOf(call, deadEnds), call, deadEnds)
  {
  }

  lemma PromptHolds(call: Call, deadEnds: nat)
    requires call.Prompting?
    ensures Holds(DataOf(call, deadEnds), call, deadEnds)
  {
  }

  lemma StepHolds(call: Call, deadEnds: nat)
    requires call.Stepping?
    ensures Holds(DataOf(call, deadEnds), call, deadEnds)
  {
  }

  lemma OtherHolds(call: Call, deadEnds: nat)
    requires !call.Stepping? && !call.Invoking? && !call.Prompting? && !call.Thinking? && !call.Deciding?
    ensures Holds(DataOf(call, deadEnds), call, deadEnds)
  {
  }

  lemma DataHolds(call: Call, deadEnds: nat)
    ensures Holds(DataOf(call, deadEnds), call, deadEnds)
  {
    hide Holds, DataOf;
    if call.Thinking? {
      ThoughtHolds(call, deadEnds);
    } else if call.Deciding? {
      DecisionHolds(call, deadEnds);
    } else if call.Invoking? {
      ToolHolds(call, deadEnds);
    } else if call.Prompting? {
      PromptHolds(call, deadEnds);
    } else if call.Stepping? {
      StepHolds(call, deadEnds);
    } else {
      OtherHolds(call, deadEnds);
    }
  }

  // The facts that the counts below need.

  lemma TypeIs(call: Call)
    ensures TypeOf(call) == TOOL_INVOCATION <==> call.Invoking?
    ensures TypeOf(call) == LLM_CALL <==> call.Prompting?
    ensures TypeOf(call) == GUARDRAIL <==> call.Checking?
    ensures TypeOf(call) == DECISION <==> call.Deciding?
  {
  }

  lemma CheckRow(call: Call, deadEnds: nat)
    requires call.Checking?
    ensures Get(DataOf(call, deadEnds), Blocked, Null) == Bool(call.blocked)
  {
    DataHolds(call, deadEnds);
  }

  lemma ToolRow(call: Call, deadEnds: nat)
    requires call.Invoking?
    ensures var data := DataOf(call, deadEnds);
            && (IsFailure(data) <==> call.outcome != SUCCESS) && NameOf(data) == call.toolName
            && RealField(data, CostUsd) == call.costUsd
            && Get(data, Outputs, Null) == if call.outcome == SUCCESS then call.outputs else Null
  {
    hide DataOf;
    DataHolds(call, deadEnds);
  }

  lemma PromptRow(call: Call, deadEnds: nat)
    requires call.Prompting?
    ensures var data := DataOf(call, deadEnds);
            && IntField(data, TotalTokens) == call.promptTokens + call.completionTokens
            && IntField(data, LatencyMs) == call.latencyMs && RealField(data, CostUsd) == call.costUsd
  {
    hide DataOf;
    DataHolds(call, deadEnds);
  }

  lemma DecisionRow(call: Call, deadEnds: nat)
    requires call.Deciding?
    ensures Get(DataOf(call, deadEnds), Decision, Null) == Str(call.decision)
  {
    hide DataOf;
    DataHolds(call, deadEnds);
  }

  // ----- Counts and sums over calls -----

  function CountCalls(calls: seq<Call>, p: Call -> bool): nat {
    if calls == [] then 0 else CountCalls(calls[..|calls| - 1], p) + if p(calls[|calls| - 1]) then 1 else 0
  }

  function SumCalls(calls: seq<Call>, f: Call -> int): int {
    if calls == [] then 0 else SumCalls(calls[..|calls| - 1], f) + f(calls[|calls| - 1])
  }

  function SpentOn(calls: seq<Call>): real {
    if calls == [] then 0.0 else
      SpentOn(calls[..|calls| - 1])
      + match calls[|calls| - 1]
        case Invoking(_, _, _, _, _, _, costUsd, _) => costUsd
        case Prompting(_, _, _, _, costUsd, _, _) => costUsd
        case _ => 0.0
  }

  function Collect<T>(calls: seq<Call>, f: Call -> seq<T>): seq<T> {
    if calls == [] then [] else Collect(calls[..|calls| - 1], f) + f(calls[|calls| - 1])
  }

  predicate IsBlock(call: Call) {
    call.Checking? && call.blocked
  }

  predicate IsFailedTool(call: Call) {
    call.Invoking? && call.outcome != SUCCESS
  }

  function TokensOf(call: Call): int {
    if call.Prompting? then call.promptTokens + call.completionTokens else 0
  }

  function LatencyOf(call: Call): int {
    if call.Prompting? then call.latencyMs else 0
  }

  function ToolOf(call: Call): seq<string> {
    if call.Invoking? then [call.toolName] else []
  }

  function OutputOf(call: Call): seq<Json> {
    if call.Invoking? then [if call.outcome == SUCCESS then call.outputs else Null] else []
  }

  function DecisionOf(call: Call): seq<Json> {
    if call.Deciding? then [Str(call.decision)] else []
  }

  /** The source that a call gives access to: one that an observation names, or one among a tool's inputs. */
  function SourceOf(call: Call): seq<Json> {
    if call.Observing? && call.dataSource != "" then [Str(call.dataSource)]
    else if call.Invoking? && DataSource in call.inputs then [call.inputs[DataSource]]
    else []
  }

  /** One more call adds its record to the projections. */
  lemma OneMoreCall(sha: Sha256, canon: Canonical, calls: seq<Call>, t: RecordType)
    requires calls != []
    ensures var (front, call) := (Attempts(sha, canon, calls[..|calls| - 1]), calls[|calls| - 1]);
            var data := DataOf(call, |OfType(front, DEAD_END)|);
            var all := Attempts(sha, canon, calls);
            && OfType(all, t) == (if TypeOf(call) == t then OfType(front, t) + [data] else OfType(front, t))
            && Accesses(all) == Accesses(front) + AccessOf(RecordOf(sha, canon, TypeOf(call), data))
            && Cost(all) == Cost(front)
                 + (if TypeOf(call) == TOOL_INVOCATION || TypeOf(call) == LLM_CALL then RealField(data, CostUsd) else 0.0)
  {
    hide DataOf, TypeOf, AccessOf, RealField, ContentHash;
    var front, call := Attempts(sha, canon, calls[..|calls| - 1]), calls[|calls| - 1];
    var record := RecordOf(sha, canon, TypeOf(call), DataOf(call, |OfType(front, DEAD_END)|));
    assert (front + [record])[..|front|] == front;
  }

  predicate HasType(call: Call, t: RecordType) {
    TypeOf(call) == t
  }

  lemma NoCalls(sha: Sha256, canon: Canonical, t: RecordType)
    ensures Attempts(sha, canon, []) == [] && OfType([], t) == [] && Accesses([]) == [] && Cost([]) == 0.0
  {
  }

  lemma {:induction false} CallsOfType(sha: Sha256, canon: Canonical, calls: seq<Call>, t: RecordType)
    ensures |OfType(Attempts(sha, canon, calls), t)| == CountCalls(calls, call => HasType(call, t))
  {
    hide DataOf, OfType, Accesses, Cost, Attempts, TypeOf;
    if calls == [] {
      NoCalls(sha, canon, t);
    } else {
      CallsOfType(sha, canon, calls[..|calls| - 1], t);
      OneMoreCall(sha, canon, calls, t);
    }
  }

  lemma ColumnAppend(rows: seq<Data>, row: Data, field: Field)
    ensures Column(rows + [row], field) == Column(rows, field) + [Get(row, field, Null)]
  {
  }

  /** The guardrail checks that blocked. */
  lemma {:induction false} BlocksOfCalls(sha: Sha256, canon: Canonical, calls: seq<Call>)
    ensures Count(Column(OfType(Attempts(sha, canon, calls), GUARDRAIL), Blocked), Bool(true)) == CountCalls(calls, IsBlock)
  {
    hide TypeOf, ContentHash, Get, RealField, OfType, Accesses, Cost, Attempts, Column, DataOf;
    if calls == [] {
      NoCalls(sha, canon, GUARDRAIL);
    } else {
      var front, call := calls[..|calls| - 1], calls[|calls| - 1];
      var before := Attempts(sha, canon, front);
      var rows, data := OfType(before, GUARDRAIL), DataOf(call, |OfType(before, DEAD_END)|);
      BlocksOfCalls(sha, canon, front);
      TypeIs(call);
      OneMoreCall(sha, canon, calls, GUARDRAIL);
      if call.Checking? {
        CheckRow(call, |OfType(before, DEAD_END)|);
        ColumnAppend(rows, data, Blocked);
        assert (Column(rows, Blocked) + [Get(data, Blocked, Null)])[..|rows|] == Column(rows, Blocked);
      }
    }
  }

  lemma {:induction false} FailuresOfCalls(sha: Sha256, canon: Canonical, calls: seq<Call>)
    ensures |Failures(OfType(Attempts(sha, canon, calls), TOOL_INVOCATION))| == CountCalls(calls, IsFailedTool)
  {
    hide TypeOf, ContentHash, IsFailure, RealField, NameOf, Get, OfType, Accesses, Cost, Attempts, DataOf;
    if calls == [] {
      NoCalls(sha, canon, TOOL_INVOCATION);
    } else {
      var front, call := calls[..|calls| - 1], calls[|calls| - 1];
      var before := Attempts(sha, canon, front);
      var rows, data := OfType(before, TOOL_INVOCATION), DataOf(call, |OfType(before, DEAD_END)|);
      FailuresOfCalls(sha, canon, front);
      TypeIs(call);
      OneMoreCall(sha, canon, calls, TOOL_INVOCATION);
      if call.Invoking? {
        ToolRow(call, |OfType(before, DEAD_END)|);
        FailuresAppend(rows, data);
      }
    }
  }

  lemma {:induction false} LlmTotalsOfCalls(sha: Sha256, canon: Canonical, calls: seq<Call>)
    ensures SumOf(OfType(Attempts(sha, canon, calls), LLM_CALL), TotalTokens) == SumCalls(calls, TokensOf)
    ensures SumOf(OfType(Attempts(sha, canon, calls), LLM_CALL), LatencyMs) == SumCalls(calls, LatencyOf)
  {
    hide TypeOf, ContentHash, IntField, RealField, OfType, Accesses, Cost, Attempts, DataOf;
    if calls == [] {
      NoCalls(sha, canon, LLM_CALL);
    } else {
      var front, call := calls[..|calls| - 1], calls[|calls| - 1];
      var before := Attempts(sha, canon, front);
      var rows, data := OfType(before, LLM_CALL), DataOf(call, |OfType(before, DEAD_END)|);
      LlmTotalsOfCalls(sha, canon, front);
      TypeIs(call);
      OneMoreCall(sha, canon, calls, LLM_CALL);
      if call.Prompting? {
        PromptRow(call, |OfType(before, DEAD_END)|);
        SumOfAppend(rows, data, TotalTokens);
        SumOfAppend(rows, data, LatencyMs);
      }
    }
  }

  lemma {:induction false} CostOfCalls(sha: Sha256, canon: Canonical, calls: seq<Call>)
    ensures Cost(Attempts(sha, canon, calls)) == SpentOn(calls)
  {
    hide TypeOf, ContentHash, IsFailure, IntField, RealField, NameOf, Get, OfType, Accesses, Cost, Attempts, DataOf;
    if calls == [] {
      NoCalls(sha, canon, STEP);
    } else {
      var front, call := calls[..|calls| - 1], calls[|calls| - 1];
      CostOfCalls(sha, canon, front);
      TypeIs(call);
      OneMoreCall(sha, canon, calls, STEP);
      var deadEnds := |OfType(Attempts(sha, canon, front), DEAD_END)|;
      if call.Invoking? {
        ToolRow(call, deadEnds);
      } else if call.Prompting? {
        PromptRow(call, deadEnds);
      }
    }
  }

  lemma NamesAppend(rows: seq<Data>, row: Data)
    ensures ToolNames(rows + [row]) == ToolNames(rows) + [NameOf(row)]
  {
  }

  /** The tools by name. */
  lemma {:induction false} NamesOfCalls(sha: Sha256, canon: Canonical, calls: seq<Call>)
    ensures ToolNames(OfType(Attempts(sha, canon, calls), TOOL_INVOCATION)) == Collect(calls, ToolOf)
  {
    hide TypeOf, ContentHash, IsFailure, RealField, NameOf, Get, OfType, Accesses, Cost, Attempts, DataOf, ToolNames;
    if calls == [] {
      NoCalls(sha, canon, TOOL_INVOCATION);
    } else {
      var front, call := calls[..|calls| - 1], calls[|calls| - 1];
      var before := Attempts(sha, canon, front);
      var rows, data := OfType(before, TOOL_INVOCATION), DataOf(call, |OfType(before, DEAD_END)|);
      NamesOfCalls(sha, canon, front);
      TypeIs(call);
      OneMoreCall(sha, canon, calls, TOOL_INVOCATION);
      if call.Invoking? {
        ToolRow(call, |OfType(before, DEAD_END)|);
        NamesAppend(rows, data);
      }
    }
  }

  /** A tool's outputs are kept on success only. */
  lemma {:induction false} OutputsOfCalls(sha: Sha256, canon: Canonical, calls: seq<Call>)
    ensures Column(OfType(Attempts(sha, canon, calls), TOOL_INVOCATION), Outputs) == Collect(calls, OutputOf)
  {
    hide TypeOf, ContentHash, IsFailure, RealField, NameOf, Get, OfType, Accesses, Cost, Attempts, DataOf, Column;
    if calls == [] {
      NoCalls(sha, canon, TOOL_INVOCATION);
    } else {
      var front, call := calls[..|calls| - 1], calls[|calls| - 1];
      var before := Attempts(sha, canon, front);
      var rows, data := OfType(before, TOOL_INVOCATION), DataOf(call, |OfType(before, DEAD_END)|);
      OutputsOfCalls(sha, canon, front);
      TypeIs(call);
      OneMoreCall(sha, canon, calls, TOOL_INVOCATION);
      if call.Invoking? {
        ToolRow(call, |OfType(before, DEAD_END)|);
        ColumnAppend(rows, data, Outputs);
      }
    }
  }

  lemma {:induction false} DecisionsOfCalls(sha: Sha256, canon: Canonical, calls: seq<Call>)
    ensures Column(OfType(Attempts(sha, canon, calls), DECISION), Decision) == Collect(calls, DecisionOf)
  {
    hide TypeOf, ContentHash, Get, RealField, OfType, Accesses, Cost, Attempts, DataOf, Column;
    if calls == [] {
      NoCalls(sha, canon, DECISION);
    } else {
      var front, call := calls[..|calls| - 1], calls[|calls| - 1];
      var before := Attempts(sha, canon, front);
      DecisionsOfCalls(sha, canon, front);
      TypeIs(call);
      OneMoreCall(sha, canon, calls, DECISION);
      if call.Deciding? {
        DecisionRow(call, |OfType(before, DEAD_END)|);
        ColumnAppend(OfType(before, DECISION), DataOf(call, |OfType(before, DEAD_END)|), Decision);
      }
    }
  }

  lemma SourceOfCall(sha: Sha256, canon: Canonical, call: Call, deadEnds: nat)
    ensures DataSources(AccessOf(RecordOf(sha, canon, TypeOf(call), DataOf(call, deadEnds)))) == SourceOf(call)
  {
    hide ContentHash;
    match call
    case Observing(observation, source, dataSource, sensitivity, dataAccessed) =>
      ObservationAccess(sha, canon, observation, source, dataSource, sensitivity, dataAccessed);
    case Invoking(toolName, inputs, outputs, outcome, errorMessage, durationMs, costUsd, retryAttempt) =>
      ToolFacts(sha, canon, toolName, inputs, outputs, outcome, errorMessage, durationMs, costUsd, retryAttempt);
    case _ =>
  }

  lemma {:induction false} SourcesOfCalls(sha: Sha256, canon: Canonical, calls: seq<Call>)
    ensures DataSources(Accesses(Attempts(sha, canon, calls))) == Collect(calls, SourceOf)
  {
    hide OfType, Accesses, Cost, Attempts, DataOf;
    if calls == [] {
      NoCalls(sha, canon, STEP);
    } else {
      var front, call := calls[..|calls| - 1], calls[|calls| - 1];
      var before := Attempts(sha, canon, front);
      var data := DataOf(call, |OfType(before, DEAD_END)|);
      SourcesOfCalls(sha, canon, front);
      OneMoreCall(sha, canon, calls, STEP);
      SourceOfCall(sha, canon, call, |OfType(before, DEAD_END)|);
      assert DataSources(Accesses(before) + AccessOf(RecordOf(sha, canon, TypeOf(call), data)))
          == DataSources(Accesses(before)) + DataSources(AccessOf(RecordOf(sha, canon, TypeOf(call), data)));
    }
  }

  function RowOf(call: Call, t: RecordType): seq<Data> {
    if HasType(call, t) then [DataOf(call, 0)] else []
  }

  /** The side list of a type holds what those calls recorded, in order. */
  lemma {:induction false} RowsOfCalls(sha: Sha256, canon: Canonical, calls: seq<Call>, t: RecordType)
    requires t != DEAD_END
    ensures OfType(Attempts(sha, canon, calls), t) == Collect(calls, call => RowOf(call, t))
  {
    hide OfType, Accesses, Cost, Attempts, DataOf, TypeOf, ContentHash;
    if calls == [] {
      NoCalls(sha, canon, t);
    } else {
      var front, call := calls[..|calls| - 1], calls[|calls| - 1];
      RowsOfCalls(sha, canon, front, t);
      OneMoreCall(sha, canon, calls, t);
      NumberMatters(call, |OfType(Attempts(sha, canon, front), DEAD_END)|);
    }
  }

  lemma NumberMatters(call: Call, deadEnds: nat)
    ensures TypeOf(call) != DEAD_END ==> DataOf(call, deadEnds) == DataOf(call, 0)
  {
  }

  predicate HasOutcome(call: Call, outcome: ToolOutcome) {
    call.Invoking? && call.outcome == outcome
  }

  lemma {:induction false} OutcomesOfCalls(sha: Sha256, canon: Canonical, calls: seq<Call>, outcome: ToolOutcome)
    ensures Count(Column(OfType(Attempts(sha, canon, calls), TOOL_INVOCATION), Outcome), Outcomes(outcome))
         == CountCalls(calls, call => HasOutcome(call, outcome))
  {
    hide TypeOf, ContentHash, IsFailure, RealField, NameOf, Get, OfType, Accesses, Cost, Attempts, Column, DataOf;
    if calls == [] {
      NoCalls(sha, canon, TOOL_INVOCATION);
      NoColumn(Outcome);
    } else {
      var front, call := calls[..|calls| - 1], calls[|calls| - 1];
      var before := Attempts(sha, canon, front);
      var rows, data := OfType(before, TOOL_INVOCATION), DataOf(call, |OfType(before, DEAD_END)|);
      OutcomesOfCalls(sha, canon, front, outcome);
      TypeIs(call);
      OneMoreCall(sha, canon, calls, TOOL_INVOCATION);
      if call.Invoking? {
        OutcomeRow(call, |OfType(before, DEAD_END)|);
        ColumnAppend(rows, data, Outcome);
        assert (Column(rows, Outcome) + [Get(data, Outcome, Null)])[..|rows|] == Column(rows, Outcome);
      }
    }
  }

  lemma NoColumn(field: Field)
    ensures Column([], field) == []
  {
  }

  lemma OutcomeRow(call: Call, deadEnds: nat)
    requires call.Invoking?
    ensures Get(DataOf(call, deadEnds), Outcome, Null) == Outcomes(call.outcome)
  {
    hide DataOf;
    DataHolds(call, deadEnds);
  }

  /** The sensitivity under which a call's access is counted. */
  function LevelOf(call: Call): seq<Json> {
    if call.Observing? && call.dataSource != "" then [Str(call.sensitivity)]
    else if call.Invoking? && DataSource in call.inputs then
      [DictKey(if Sensitivity in call.inputs then call.inputs[Sensitivity] else Str("internal"))]
    else []
  }

  lemma {:induction false} LevelsOfCalls(sha: Sha256, canon: Canonical, calls: seq<Call>)
    ensures Levels(Accesses(Attempts(sha, canon, calls))) == Collect(calls, LevelOf)
  {
    hide OfType, Accesses, Cost, Attempts, DataOf, TypeOf, LevelOf, ContentHash;
    if calls == [] {
      NoCalls(sha, canon, STEP);
    } else {
      var front, call := calls[..|calls| - 1], calls[|calls| - 1];
      var before := Attempts(sha, canon, front);
      var data := DataOf(call, |OfType(before, DEAD_END)|);
      LevelsOfCalls(sha, canon, front);
      OneMoreCall(sha, canon, calls, STEP);
      LevelOfCall(sha, canon, call, |OfType(before, DEAD_END)|);
      LevelsJoin(Accesses(before), AccessOf(RecordOf(sha, canon, TypeOf(call), data)));
    }
  }

  lemma LevelsJoin(left: seq<Access>, right: seq<Access>)
    ensures Levels(left + right) == Levels(left) + Levels(right)
  {
    hide DictKey;
  }

  lemma LevelOfCall(sha: Sha256, canon: Canonical, call: Call, deadEnds: nat)
    ensures Levels(AccessOf(RecordOf(sha, canon, TypeOf(call), DataOf(call, deadEnds)))) == LevelOf(call)
  {
    hide ContentHash;
    match call
    case Observing(observation, source, dataSource, sensitivity, dataAccessed) =>
      ObservationAccess(sha, canon, observation, source, dataSource, sensitivity, dataAccessed);
    case Invoking(toolName, inputs, outputs, outcome, errorMessage, durationMs, costUsd, retryAttempt) =>
      ToolFacts(sha, canon, toolName, inputs, outputs, outcome, errorMessage, durationMs, costUsd, retryAttempt);
    case _ =>
  }

  // ----- What is reported of the calls -----

  /** The manifest counts and adds up the calls. */
  lemma ManifestOfCalls(sha: Sha256, canon: Canonical, a: Artifacts, calls: seq<Call>)
    requires ArtifactsOf(sha, canon, a, Attempts(sha, canon, calls))
    ensures var m := a.manifest;
            && m.guardrailBlockCount == CountCalls(calls, IsBlock)
            && m.toolInvocationCount == CountCalls(calls, call => HasType(call, TOOL_INVOCATION))
            && m.toolFailureCount == CountCalls(calls, IsFailedTool)
            && m.decisionCount == CountCalls(calls, call => HasType(call, DECISION))
            && m.deadEndCount == CountCalls(calls, call => HasType(call, DEAD_END))
            && m.errorCount == CountCalls(calls, call => HasType(call, ERROR))
            && m.delegationCount == CountCalls(calls, call => HasType(call, DELEGATION))
            && m.llmCallCount == CountCalls(calls, call => HasType(call, LLM_CALL))
            && m.totalCostUsd == SpentOn(calls)
            && m.totalTokens == SumCalls(calls, TokensOf) && m.totalLlmLatencyMs == SumCalls(calls, LatencyOf)
    ensures a.lineage.decisionChain == Collect(calls, DecisionOf)
    ensures Column(a.operations.toolInvocations, Outputs) == Collect(calls, OutputOf)
    ensures ToolNames(a.operations.toolInvocations) == Collect(calls, ToolOf)
    ensures DataSources(a.operations.dataAccessPatterns) == Collect(calls, SourceOf)
  {
    hide OfType, Accesses, Cost, Attempts, CountCalls, SumCalls, SpentOn, Collect, Column, Count, Failures, SumOf, ToolNames,
         DataSources, ContentHash, Stored, IsTally;
    BlocksOfCalls(sha, canon, calls);
    FailuresOfCalls(sha, canon, calls);
    LlmTotalsOfCalls(sha, canon, calls);
    CostOfCalls(sha, canon, calls);
    NamesOfCalls(sha, canon, calls);
    OutputsOfCalls(sha, canon, calls);
    DecisionsOfCalls(sha, canon, calls);
    SourcesOfCalls(sha, canon, calls);
    CallsOfType(sha, canon, calls, TOOL_INVOCATION);
    CallsOfType(sha, canon, calls, DECISION);
    CallsOfType(sha, canon, calls, DEAD_END);
    CallsOfType(sha, canon, calls, ERROR);
    CallsOfType(sha, canon, calls, DELEGATION);
    CallsOfType(sha, canon, calls, LLM_CALL);
  }

  /** The lists of the artifacts hold what the calls of each kind recorded, in order, and their two summaries
      count the tool calls by outcome and the accesses by sensitivity. */
  lemma ListsOfCalls(sha: Sha256, canon: Canonical, a: Artifacts, calls: seq<Call>)
    requires ArtifactsOf(sha, canon, a, Attempts(sha, canon, calls))
    ensures a.operations.toolInvocations == Collect(calls, call => RowOf(call, TOOL_INVOCATION))
    ensures a.operations.llmCalls == Collect(calls, call => RowOf(call, LLM_CALL))
    ensures a.operations.delegations == Collect(calls, call => RowOf(call, DELEGATION))
    ensures a.lineage.goals == Collect(calls, call => RowOf(call, GOAL))
    ensures a.lineage.decisions == Collect(calls, call => RowOf(call, DECISION))
    ensures a.lineage.thoughts == Collect(calls, call => RowOf(call, THOUGHT))
    ensures a.lineage.observations == Collect(calls, call => RowOf(call, OBSERVATION))
    ensures a.lineage.errors == Collect(calls, call => RowOf(call, ERROR))
    ensures a.lineage.guardrailChecks == Collect(calls, call => RowOf(call, GUARDRAIL))
    ensures a.lineage.deadEnds == CountCalls(calls, call => HasType(call, DEAD_END))
    ensures forall outcome ::
              CountIn(a.operations.toolOutcomes, Outcomes(outcome)) == CountCalls(calls, call => HasOutcome(call, outcome))
    ensures forall level :: CountIn(a.operations.sensitivitySummary, level) == Count(Collect(calls, LevelOf), level)
  {
    hide OfType, Accesses, Cost, Attempts, CountCalls, Collect, Column, Levels, Count, Failures, SumOf, ContentHash, Stored,
         RowOf, ManifestOf;
    RowsOfCalls(sha, canon, calls, TOOL_INVOCATION);
    RowsOfCalls(sha, canon, calls, LLM_CALL);
    RowsOfCalls(sha, canon, calls, DELEGATION);
    RowsOfCalls(sha, canon, calls, GOAL);
    RowsOfCalls(sha, canon, calls, DECISION);
    RowsOfCalls(sha, canon, calls, THOUGHT);
    RowsOfCalls(sha, canon, calls, OBSERVATION);
    RowsOfCalls(sha, canon, calls, ERROR);
    RowsOfCalls(sha, canon, calls, GUARDRAIL);
    CallsOfType(sha, canon, calls, DEAD_END);
    LevelsOfCalls(sha, canon, calls);
    forall outcome: ToolOutcome
      ensures CountIn(a.operations.toolOutcomes, Outcomes(outcome)) == CountCalls(calls, call => HasOutcome(call, outcome))
    {
      OutcomesOfCalls(sha, canon, calls, outcome);
    }
  }

  /** So do the summary and the event that ending the session yields. */
  lemma EventOfCalls(sha: Sha256, canon: Canonical, sessionId: string, agentId: string, calls: seq<Call>, durationMs: int)
    ensures var attempted := Attempts(sha, canon, calls);
            var summary := SummaryOf(sha, canon, sessionId, agentId, attempted, durationMs);
            var event := EventOfLog(summary, attempted);
            && summary.sessionId == event.sessionId == sessionId && summary.agentId == event.agentId == agentId
            && summary.artifactCount == |Stored(canon, attempted)| && summary.integrityErrors == []
            && summary.sessionHash == Batches.SessionHash(sha, sessionId, HashesOf(Stored(canon, attempted)))
            && summary.toolInvocationCount == CountCalls(calls, call => HasType(call, TOOL_INVOCATION))
            && summary.deadEndCount == event.deadEndCount == CountCalls(calls, call => HasType(call, DEAD_END))
            && summary.costUsd == event.costUsd == SpentOn(calls)
            && summary.durationMs == event.durationMs == durationMs
            && event.toolInvocations == Collect(calls, ToolOf)
            && event.uniqueTools == |set name | name in Collect(calls, ToolOf)|
            && event.dataAccessPatterns == Collect(calls, SourceOf)
  {
    hide OfType, Accesses, Cost, Attempts, CountCalls, SpentOn, Collect, ToolNames, DataSources, Stored;
    CostOfCalls(sha, canon, calls);
    NamesOfCalls(sha, canon, calls);
    SourcesOfCalls(sha, canon, calls);
    CallsOfType(sha, canon, calls, TOOL_INVOCATION);
    CallsOfType(sha, canon, calls, DEAD_END);
  }

  // ----- The calls on the store -----

  /** Makes one call. */
  method Perform(capture: ProvenanceCapture, call: Call) returns (r: Result<CaptureRecord>)
    requires capture.Valid() && !capture.finalized
    modifies capture
    ensures capture.Valid() && !capture.finalized
    ensures capture.attempted == old(capture.attempted) +
              [RecordOf(capture.sha, capture.canon, TypeOf(call), DataOf(call, |OfType(old(capture.attempted), DEAD_END)|))]
  {
    hide ShadowOf, GoodLog, Stored, ContentHash, Projected, NothingDropped, AllAccepted, Intact;
    capture.DeadEndsAttempted();
    match call
    case Stepping(description, metadata) =>
      r := capture.RecordStep(description, metadata);
    case Thinking(thought, reasoningType, confidence, context) =>
      r := capture.RecordThought(thought, reasoningType, confidence, context);
    case Observing(observation, source, dataSource, sensitivity, dataAccessed) =>
      r := capture.RecordObservation(observation, source, dataSource, sensitivity, dataAccessed);
    case Deciding(decision, alternatives, rationale, confidence, riskFactors) =>
      r := capture.RecordDecision(decision, alternatives, rationale, confidence, riskFactors);
    case Invoking(toolName, inputs, outputs, outcome, errorMessage, durationMs, costUsd, retryAttempt) =>
      r := capture.RecordToolInvocation(toolName, inputs, outputs, outcome, errorMessage, durationMs, costUsd, retryAttempt);
    case Failing(errorType, message, source, recoverable, recoveryAction) =>
      r := capture.RecordError(errorType, message, source, recoverable, recoveryAction);
    case GivingUp(description, reason) =>
      r := capture.RecordDeadEnd(description, reason);
    case Checking(name, checkType, blocked, details, actionAttempted) =>
      r := capture.RecordGuardrailCheck(name, checkType, blocked, details, actionAttempted);
    case Delegating(agentId, task, result, outcome, durationMs) =>
      r := capture.RecordDelegation(agentId, task, result, outcome, durationMs);
    case Prompting(model, promptTokens, completionTokens, latencyMs, costUsd, purpose, temperature) =>
      r := capture.RecordLlmCall(model, promptTokens, completionTokens, latencyMs, costUsd, purpose, temperature);
    case Aiming(goal, goalType, parentGoal, status) =>
      r := capture.RecordGoal(goal, goalType, parentGoal, status);
  }

  /** A new capture after these calls holds their attempts, so all of the above is true of it. */
  method PerformAll(sha: Sha256, canon: Canonical, calls: seq<Call>) returns (capture: ProvenanceCapture)
    ensures fresh(capture) && capture.Valid() && capture.sha == sha && capture.canon == canon
    ensures capture.attempted == Attempts(sha, canon, calls) && capture.records == Stored(canon, Attempts(sha, canon, calls))
  {
    hide TypeOf, DataOf, ShadowOf, GoodLog, Stored, ContentHash;
    capture := new ProvenanceCapture(sha, canon);
    for i := 0 to |calls|
      invariant fresh(capture) && capture.Valid() && !capture.finalized
      invariant capture.attempted == Attempts(sha, canon, calls[..i])
    {
      assert calls[..i + 1][..i] == calls[..i];
      var _ := Perform(capture, calls[i]);
    }
    assert calls[..|calls|] == calls;
  }
}
