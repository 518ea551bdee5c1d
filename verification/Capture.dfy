/** The reasoning capture store. Beside the record list it keeps a list per kind of record and running
    totals; `Valid` says that all of them are what the record list alone determines. */
module Capture {
  import opened Results
  import opened Merkle
  import opened Records

  // ----- The dictionaries the recording methods build -----

  function Distance(a: real, b: real): real {
    if a < b then b - a else a - b
  }

  /** The nearest confidence between 0 and 1. */
  function Clamp01(c: real): (r: real)
    ensures 0.0 <= r <= 1.0
    ensures forall t: real :: 0.0 <= t <= 1.0 ==> Distance(c, r) <= Distance(c, t)
  {
    var low := if c < 1.0 then c else 1.0;
    if low > 0.0 then low else 0.0
  }

  function WithConfidence(data: Data, confidence: Option<real>): Data {
    match confidence
    case Some(c) => data[Confidence := Real(Clamp01(c))]
    case None => data
  }

  function StepData(description: string, metadata: Data): Data {
    map[Description := Str(description)] + metadata
  }

  function ThoughtData(thought: string, reasoningType: string, confidence: Option<real>, context: string): Data {
    WithConfidence(map[Thought := Str(thought), ReasoningType := Str(reasoningType), Context := Str(context)], confidence)
  }

  function ObservationData(observation: string, source: string, dataSource: string, sensitivity: string,
                           dataAccessed: seq<string>): Data {
    map[Observation := Str(observation), Source := Str(source), DataSource := Str(dataSource),
        Sensitivity := Str(sensitivity), DataAccessed := Strs(dataAccessed)]
  }

  function DecisionData(decision: string, alternatives: seq<string>, rationale: string, confidence: Option<real>,
                        riskFactors: seq<string>): Data {
    WithConfidence(map[Decision := Str(decision), Alternatives := Strs(alternatives), Rationale := Str(rationale),
                       RiskFactors := Strs(riskFactors)], confidence)
  }

  function ToolData(toolName: string, inputs: Data, outputs: Json, outcome: ToolOutcome, errorMessage: string,
                    durationMs: int, costUsd: real, retryAttempt: int): Data {
    map[ToolName := Str(toolName), Inputs := Obj(inputs), Outputs := if outcome == SUCCESS then outputs else Null,
        Outcome := Outcomes(outcome), ErrorMessage := Str(errorMessage), DurationMs := Int(durationMs),
        CostUsd := Real(costUsd), RetryAttempt := Int(retryAttempt)]
  }

  function RecordOf(sha: Sha256, canon: Canonical, t: RecordType, data: Data): CaptureRecord {
    CaptureRecord(t, ContentHash(sha, canon, data), data)
  }

  lemma ObservationAccess(sha: Sha256, canon: Canonical, observation: string, source: string, dataSource: string,
                          sensitivity: string, dataAccessed: seq<string>)
    ensures AccessOf(RecordOf(sha, canon, OBSERVATION,
                              ObservationData(observation, source, dataSource, sensitivity, dataAccessed)))
         == if dataSource != "" then [Access(Str(dataSource), Str(sensitivity), Strs(dataAccessed))] else []
  {
  }

  lemma ToolFacts(sha: Sha256, canon: Canonical, toolName: string, inputs: Data, outputs: Json, outcome: ToolOutcome,
                  errorMessage: string, durationMs: int, costUsd: real, retryAttempt: int)
    ensures var data := ToolData(toolName, inputs, outputs, outcome, errorMessage, durationMs, costUsd, retryAttempt);
            && (IsFailure(data) <==> outcome != SUCCESS)
            && RealField(data, CostUsd) == costUsd
            && AccessOf(RecordOf(sha, canon, TOOL_INVOCATION, data)) == InputAccess(inputs)
            && (DataSource !in inputs ==> InputAccess(inputs) == [])
            && (DataSource in inputs ==>
                  InputAccess(inputs) == [Access(inputs[DataSource],
                                                 if Sensitivity in inputs then inputs[Sensitivity] else Str("internal"),
                                                 Strs([]))])
  {
  }

  function ErrorData(errorType: string, message: string, source: string, recoverable: bool, recoveryAction: string): Data {
    map[ErrorType := Str(errorType), Message := Str(message), Source := Str(source), Recoverable := Bool(recoverable),
        RecoveryAction := Str(recoveryAction)]
  }

  function DeadEndData(description: string, reason: string, index: int): Data {
    map[Description := Str(description), Reason := Str(reason), DeadEndIndex := Int(index)]
  }

  function GuardrailData(name: string, checkType: string, blocked: bool, details: string, actionAttempted: string): Data {
    map[GuardrailName := Str(name), CheckType := Str(checkType), Blocked := Bool(blocked), Details := Str(details),
        ActionAttempted := Str(actionAttempted)]
  }

  function DelegationData(agentId: string, task: string, result: string, outcome: ToolOutcome, durationMs: int): Data {
    map[DelegateAgentId := Str(agentId), Task := Str(task), TaskResult := Str(result), Outcome := Outcomes(outcome),
        DurationMs := Int(durationMs)]
  }

  function LlmCallData(model: string, promptTokens: int, completionTokens: int, latencyMs: int, costUsd: real,
                       purpose: string, temperature: Option<real>): Data {
    var data: Data := map[Model := Str(model), PromptTokens := Int(promptTokens), CompletionTokens := Int(completionTokens),
                          TotalTokens := Int(promptTokens + completionTokens), LatencyMs := Int(latencyMs),
                          CostUsd := Real(costUsd), Purpose := Str(purpose)];
    match temperature
    case Some(t) => data[Temperature := Real(t)]
    case None => data
  }

  lemma LlmCallFacts(model: string, promptTokens: int, completionTokens: int, latencyMs: int, costUsd: real,
                     purpose: string, temperature: Option<real>)
    ensures var data := LlmCallData(model, promptTokens, completionTokens, latencyMs, costUsd, purpose, temperature);
            && RealField(data, CostUsd) == costUsd
            && IntField(data, TotalTokens) == promptTokens + completionTokens
            && IntField(data, LatencyMs) == latencyMs
  {
  }

  function GoalData(goal: string, goalType: string, parentGoal: string, status: string): Data {
    map[Goal := Str(goal), GoalType := Str(goalType), ParentGoal := Str(parentGoal), Status := Str(status)]
  }

  /** What every recording method returns, the record list and the attempts it leaves: one more record, or an
      error when the capture is finalised or the data does not serialise. Only finalisation is checked before
      the side lists and totals are stepped, so data that does not serialise counts as an attempt. */
  function Recording(sha: Sha256, canon: Canonical, finalized: bool, records: seq<CaptureRecord>, attempted: seq<CaptureRecord>,
                     t: RecordType, data: Data)
    : (Result<CaptureRecord>, seq<CaptureRecord>, seq<CaptureRecord>)
  {
    var record := RecordOf(sha, canon, t, data);
    if finalized then (Failure(RuntimeError), records, attempted)
    else if !canon.accepts(data) then (Failure(TypeError), records, attempted + [record])
    else (Success(record), records + [record], attempted + [record])
  }

  // The two kinds of record that step the most.

  lemma ToolStep(s: Shadow, sha: Sha256, canon: Canonical, toolName: string, inputs: Data, outputs: Json, outcome: ToolOutcome,
                 errorMessage: string, durationMs: int, costUsd: real, retryAttempt: int)
    ensures var data := ToolData(toolName, inputs, outputs, outcome, errorMessage, durationMs, costUsd, retryAttempt);
            Stepped(s, RecordOf(sha, canon, TOOL_INVOCATION, data)) ==
            s.(toolInvocations := s.toolInvocations + [data],
               toolFailures := if outcome != SUCCESS then s.toolFailures + [data] else s.toolFailures,
               dataAccessPatterns := s.dataAccessPatterns + InputAccess(inputs),
               costUsd := s.costUsd + costUsd)
  {
    ToolFacts(sha, canon, toolName, inputs, outputs, outcome, errorMessage, durationMs, costUsd, retryAttempt);
  }

  lemma LlmStep(s: Shadow, sha: Sha256, canon: Canonical, model: string, promptTokens: int, completionTokens: int,
                latencyMs: int, costUsd: real, purpose: string, temperature: Option<real>)
    ensures var data := LlmCallData(model, promptTokens, completionTokens, latencyMs, costUsd, purpose, temperature);
            Stepped(s, RecordOf(sha, canon, LLM_CALL, data)) ==
            s.(llmCalls := s.llmCalls + [data],
               costUsd := s.costUsd + costUsd,
               totalTokens := s.totalTokens + (promptTokens + completionTokens),
               totalLlmLatencyMs := s.totalLlmLatencyMs + latencyMs)
  {
    LlmCallFacts(model, promptTokens, completionTokens, latencyMs, costUsd, purpose, temperature);
  }

  class ProvenanceCapture {
    const sha: Sha256
    const canon: Canonical
    var records: seq<CaptureRecord>
    var toolInvocations: seq<Data>
    var toolFailures: seq<Data>
    var decisions: seq<Data>
    var thoughts: seq<Data>
    var observations: seq<Data>
    var errors: seq<Data>
    var guardrailChecks: seq<Data>
    var delegations: seq<Data>
    var llmCalls: seq<Data>
    var goals: seq<Data>
    var dataAccessPatterns: seq<Access>
    var deadEndCount: int
    var costUsd: real
    var totalTokens: int
    var totalLlmLatencyMs: int
    var finalized: bool
    /** Every record whose side lists and totals were stepped, stored or not. */
    ghost var attempted: seq<CaptureRecord>

    function View(): Shadow
      reads this
    {
      Shadow(toolInvocations, toolFailures, decisions, thoughts, observations, errors, guardrailChecks, delegations,
             llmCalls, goals, dataAccessPatterns, deadEndCount, costUsd, totalTokens, totalLlmLatencyMs)
    }

    ghost predicate Valid()
      reads this
    {
      && View() == ShadowOf(attempted)
      && records == Stored(canon, attempted)
      && GoodLog(sha, canon, attempted)
    }

    /** In every state reached through the methods: every record is intact, the side lists and totals are
        projections of the attempts, and they are projections of the record list exactly when no attempt
        that steps them failed to serialise. */
    lemma Agreement()
      requires Valid()
      ensures AllAccepted(canon, records) && forall i :: 0 <= i < |records| ==> Intact(sha, canon, records[i])
      ensures Projected(View(), attempted)
      ensures Projected(View(), records) <==> NothingDropped(canon, attempted)
    {
      hide ShadowOf, GoodLog, Intact, Projected, NothingDropped;
      ShadowIsProjection(attempted);
      AgreementExactly(canon, attempted);
      StoredIsIntact(sha, canon, attempted);
    }

    lemma DeadEndsAttempted()
      requires Valid()
      ensures deadEndCount == |OfType(attempted, DEAD_END)|
    {
      ShadowIsProjection(attempted);
    }

    constructor (sha: Sha256, canon: Canonical)
      ensures Valid() && records == [] && attempted == [] && !finalized && this.sha == sha && this.canon == canon
    {
      this.sha := sha;
      this.canon := canon;
      attempted := [];
      records, toolInvocations, toolFailures, decisions, thoughts := [], [], [], [], [];
      observations, errors, guardrailChecks, delegations, llmCalls, goals := [], [], [], [], [], [];
      dataAccessPatterns := [];
      deadEndCount, costUsd, totalTokens, totalLlmLatencyMs, finalized := 0, 0.0, 0, 0, false;
    }

    /** Serialise, hash and append. The caller has already stepped the side lists and totals. */
    method Append(t: RecordType, data: Data) returns (r: Result<CaptureRecord>)
      requires records == Stored(canon, attempted) && GoodLog(sha, canon, attempted)
      requires View() == Stepped(ShadowOf(attempted), RecordOf(sha, canon, t, data))
      requires t == DEAD_END ==> Get(data, DeadEndIndex, Null) == Int(ShadowOf(attempted).deadEndCount + 1)
      modifies this`records, this`attempted
      ensures (r, records, attempted) == Recording(sha, canon, false, old(records), old(attempted), t, data)
      ensures Valid()
    {
      hide ShadowOf, GoodLog, Stored, Stepped, ContentHash;
      OneMoreRecord(sha, canon, attempted, RecordOf(sha, canon, t, data));
      attempted := attempted + [RecordOf(sha, canon, t, data)];
      if !canon.accepts(data) {
        return Failure(TypeError);
      }
      var record := CaptureRecord(t, ContentHash(sha, canon, data), data);
      records := records + [record];
      r := Success(record);
    }

    method RecordStep(description: string, metadata: Data) returns (r: Result<CaptureRecord>)
      requires Valid()
      modifies this
      ensures Valid() && finalized == old(finalized)
      ensures (r, records, attempted) == Recording(sha, canon, old(finalized), old(records), old(attempted), STEP,
                                                   StepData(description, metadata))
    {
      hide ShadowOf, GoodLog, ContentHash, Stored;
      if finalized {
        return Failure(RuntimeError);
      }
      r := Append(STEP, StepData(description, metadata));
    }

    method RecordThought(thought: string, reasoningType: string, confidence: Option<real>, context: string)
      returns (r: Result<CaptureRecord>)
      requires Valid()
      modifies this
      ensures Valid() && finalized == old(finalized)
      ensures (r, records, attempted) == Recording(sha, canon, old(finalized), old(records), old(attempted), THOUGHT,
                                                   ThoughtData(thought, reasoningType, confidence, context))
    {
      hide ShadowOf, GoodLog, ContentHash, Stored;
      if finalized {
        return Failure(RuntimeError);
      }
      var data := ThoughtData(thought, reasoningType, confidence, context);
      thoughts := thoughts + [data];
      r := Append(THOUGHT, data);
    }

    method RecordObservation(observation: string, source: string, dataSource: string, sensitivity: string,
                             dataAccessed: seq<string>)
      returns (r: Result<CaptureRecord>)
      requires Valid()
      modifies this
      ensures Valid() && finalized == old(finalized)
      ensures (r, records, attempted) == Recording(sha, canon, old(finalized), old(records), old(attempted), OBSERVATION,
                                                   ObservationData(observation, source, dataSource, sensitivity, dataAccessed))
    {
      hide ShadowOf, GoodLog, ContentHash, Stored;
      if finalized {
        return Failure(RuntimeError);
      }
      var data := ObservationData(observation, source, dataSource, sensitivity, dataAccessed);
      ObservationAccess(sha, canon, observation, source, dataSource, sensitivity, dataAccessed);
      observations := observations + [data];
      if dataSource != "" {
        dataAccessPatterns := dataAccessPatterns + [Access(Str(dataSource), Str(sensitivity), Strs(dataAccessed))];
      }
      r := Append(OBSERVATION, data);
    }

    method RecordDecision(decision: string, alternatives: seq<string>, rationale: string, confidence: Option<real>,
                          riskFactors: seq<string>)
      returns (r: Result<CaptureRecord>)
      requires Valid()
      modifies this
      ensures Valid() && finalized == old(finalized)
      ensures (r, records, attempted) == Recording(sha, canon, old(finalized), old(records), old(attempted), DECISION,
                                                   DecisionData(decision, alternatives, rationale, confidence, riskFactors))
    {
      hide ShadowOf, GoodLog, ContentHash, Stored;
      if finalized {
        return Failure(RuntimeError);
      }
      var data := DecisionData(decision, alternatives, rationale, confidence, riskFactors);
      decisions := decisions + [data];
      r := Append(DECISION, data);
    }

    method CountToolInvocation(invocation: Data, inputs: Data, outcome: ToolOutcome, cost: real)
      modifies this`toolInvocations, this`toolFailures, this`dataAccessPatterns, this`costUsd
      ensures View() == old(View()).(
                toolInvocations := old(toolInvocations) + [invocation],
                toolFailures := if outcome != SUCCESS then old(toolFailures) + [invocation] else old(toolFailures),
                dataAccessPatterns := old(dataAccessPatterns) + InputAccess(inputs),
                costUsd := old(costUsd) + cost)
    {
      toolInvocations := toolInvocations + [invocation];
      costUsd := costUsd + cost;
      if outcome != SUCCESS {
        toolFailures := toolFailures + [invocation];
      }
      if DataSource in inputs {
        var sensitivity := Get(inputs, Sensitivity, Str("internal"));
        dataAccessPatterns := dataAccessPatterns + [Access(inputs[DataSource], sensitivity, Strs([]))];
      }
    }

    method RecordToolInvocation(toolName: string, inputs: Data, outputs: Json, outcome: ToolOutcome, errorMessage: string,
                                durationMs: int, cost: real, retryAttempt: int)
      returns (r: Result<CaptureRecord>)
      requires Valid()
      modifies this
      ensures Valid() && finalized == old(finalized)
      ensures (r, records, attempted) == Recording(sha, canon, old(finalized), old(records), old(attempted), TOOL_INVOCATION,
                                                   ToolData(toolName, inputs, outputs, outcome, errorMessage, durationMs, cost, retryAttempt))
    {
      hide ShadowOf, GoodLog, ContentHash, Stored, RecordOf, ToolData, Stepped;
      if finalized {
        return Failure(RuntimeError);
      }
      var invocation := ToolData(toolName, inputs, outputs, outcome, errorMessage, durationMs, cost, retryAttempt);
      ToolStep(View(), sha, canon, toolName, inputs, outputs, outcome, errorMessage, durationMs, cost, retryAttempt);
      CountToolInvocation(invocation, inputs, outcome, cost);
      r := Append(TOOL_INVOCATION, invocation);
    }

    method RecordError(errorType: string, message: string, source: string, recoverable: bool, recoveryAction: string)
      returns (r: Result<CaptureRecord>)
      requires Valid()
      modifies this
      ensures Valid() && finalized == old(finalized)
      ensures (r, records, attempted) == Recording(sha, canon, old(finalized), old(records), old(attempted), ERROR,
                                                   ErrorData(errorType, message, source, recoverable, recoveryAction))
    {
      hide ShadowOf, GoodLog, ContentHash, Stored;
      if finalized {
        return Failure(RuntimeError);
      }
      var data := ErrorData(errorType, message, source, recoverable, recoveryAction);
      errors := errors + [data];
      r := Append(ERROR, data);
    }

    method RecordDeadEnd(description: string, reason: string) returns (r: Result<CaptureRecord>)
      requires Valid()
      modifies this
      ensures Valid() && finalized == old(finalized)
      ensures (r, records, attempted) == Recording(sha, canon, old(finalized), old(records), old(attempted), DEAD_END,
                                                   DeadEndData(description, reason, old(deadEndCount) + 1))
    {
      hide ShadowOf, GoodLog, ContentHash, Stored;
      if finalized {
        return Failure(RuntimeError);
      }
      deadEndCount := deadEndCount + 1;
      r := Append(DEAD_END, DeadEndData(description, reason, deadEndCount));
    }

    method RecordGuardrailCheck(name: string, checkType: string, blocked: bool, details: string, actionAttempted: string)
      returns (r: Result<CaptureRecord>)
      requires Valid()
      modifies this
      ensures Valid() && finalized == old(finalized)
      ensures (r, records, attempted) == Recording(sha, canon, old(finalized), old(records), old(attempted), GUARDRAIL,
                                                   GuardrailData(name, checkType, blocked, details, actionAttempted))
    {
      hide ShadowOf, GoodLog, ContentHash, Stored;
      if finalized {
        return Failure(RuntimeError);
      }
      var data := GuardrailData(name, checkType, blocked, details, actionAttempted);
      guardrailChecks := guardrailChecks + [data];
      r := Append(GUARDRAIL, data);
    }

    method RecordDelegation(agentId: string, task: string, result: string, outcome: ToolOutcome, durationMs: int)
      returns (r: Result<CaptureRecord>)
      requires Valid()
      modifies this
      ensures Valid() && finalized == old(finalized)
      ensures (r, records, attempted) == Recording(sha, canon, old(finalized), old(records), old(attempted), DELEGATION,
                                                   DelegationData(agentId, task, result, outcome, durationMs))
    {
      hide ShadowOf, GoodLog, ContentHash, Stored;
      if finalized {
        return Failure(RuntimeError);
      }
      var data := DelegationData(agentId, task, result, outcome, durationMs);
      delegations := delegations + [data];
      r := Append(DELEGATION, data);
    }

    method CountLlmCall(data: Data, cost: real, tokens: int, latencyMs: int)
      modifies this`llmCalls, this`costUsd, this`totalTokens, this`totalLlmLatencyMs
      ensures View() == old(View()).(llmCalls := old(llmCalls) + [data], costUsd := old(costUsd) + cost,
                                     totalTokens := old(totalTokens) + tokens,
                                     totalLlmLatencyMs := old(totalLlmLatencyMs) + latencyMs)
    {
      llmCalls := llmCalls + [data];
      costUsd := costUsd + cost;
      totalTokens := totalTokens + tokens;
      totalLlmLatencyMs := totalLlmLatencyMs + latencyMs;
    }

    method RecordLlmCall(model: string, promptTokens: int, completionTokens: int, latencyMs: int, cost: real,
                         purpose: string, temperature: Option<real>)
      returns (r: Result<CaptureRecord>)
      requires Valid()
      modifies this
      ensures Valid() && finalized == old(finalized)
      ensures (r, records, attempted) == Recording(sha, canon, old(finalized), old(records), old(attempted), LLM_CALL,
                                                   LlmCallData(model, promptTokens, completionTokens, latencyMs, cost, purpose, temperature))
    {
      hide ShadowOf, GoodLog, ContentHash, Stored, RecordOf, LlmCallData, Stepped;
      if finalized {
        return Failure(RuntimeError);
      }
      var tokens := promptTokens + completionTokens;
      var data := LlmCallData(model, promptTokens, completionTokens, latencyMs, cost, purpose, temperature);
      LlmStep(View(), sha, canon, model, promptTokens, completionTokens, latencyMs, cost, purpose, temperature);
      CountLlmCall(data, cost, tokens, latencyMs);
      r := Append(LLM_CALL, data);
    }

    method RecordGoal(goal: string, goalType: string, parentGoal: string, status: string) returns (r: Result<CaptureRecord>)
      requires Valid()
      modifies this
      ensures Valid() && finalized == old(finalized)
      ensures (r, records, attempted) == Recording(sha, canon, old(finalized), old(records), old(attempted), GOAL,
                                                   GoalData(goal, goalType, parentGoal, status))
    {
      hide ShadowOf, GoodLog, ContentHash, Stored;
      if finalized {
        return Failure(RuntimeError);
      }
      var data := GoalData(goal, goalType, parentGoal, status);
      goals := goals + [data];
      r := Append(GOAL, data);
    }

    method Finalize()
      requires Valid()
      modifies this`finalized
      ensures Valid() && finalized
    {
      finalized := true;
    }
  }
}
