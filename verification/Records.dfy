/** Captured records as a plain log: their data, their content hashes, and everything else the capture
    store keeps, defined as a function of the log. */
module Records {
  import opened Encoding
  import opened Merkle

  datatype RecordType =
    | STEP | THOUGHT | OBSERVATION | DECISION | TOOL_INVOCATION | TOOL_RESULT
    | ERROR | DEAD_END | GUARDRAIL | DELEGATION | LLM_CALL | GOAL

  datatype ToolOutcome = SUCCESS | FAILURE | TIMEOUT | RATE_LIMITED | PERMISSION_DENIED

  /** The keys of a record's dictionary; `Other` is any key the store itself does not write. */
  datatype Field =
    | Description | Reason | DeadEndIndex
    | Thought | ReasoningType | Context | Confidence
    | Observation | Source | DataSource | Sensitivity | DataAccessed
    | Decision | Alternatives | Rationale | RiskFactors
    | ToolName | Inputs | Outputs | Outcome | ErrorMessage | DurationMs | CostUsd | RetryAttempt
    | ErrorType | Message | Recoverable | RecoveryAction
    | GuardrailName | CheckType | Blocked | Details | ActionAttempted
    | DelegateAgentId | Task | TaskResult
    | Model | PromptTokens | CompletionTokens | TotalTokens | LatencyMs | Purpose | Temperature
    | Goal | GoalType | ParentGoal | Status
    | Hashes | Other(name: string)

  datatype Json =
    | Null
    | Bool(flag: bool)
    | Int(number: int)
    | Real(amount: real)
    | Str(str: string)
    | Outcomes(outcome: ToolOutcome)
    | Strs(strs: seq<string>)
    | Obj(fields: map<Field, Json>)

  type Data = map<Field, Json>

  datatype CaptureRecord = CaptureRecord(recordType: RecordType, contentHash: string, data: Data)

  // ----- Content hashes -----

  /** Canonical serialisation of dictionaries: the text of those it accepts. It raises on the others, such
      as one with keys that do not sort. */
  datatype Canonical = Canonical(text: Data -> string, accepts: Data -> bool)

  ghost predicate Injective(canon: Canonical) {
    forall a: Data, b: Data :: canon.accepts(a) && canon.accepts(b) && canon.text(a) == canon.text(b) ==> a == b
  }

  function ContentInput(canon: Canonical, data: Data): Bytes {
    Utf8(canon.text(data))
  }

  function ContentHash(sha: Sha256, canon: Canonical, data: Data): string {
    Hex(sha(ContentInput(canon, data)))
  }

  predicate Intact(sha: Sha256, canon: Canonical, record: CaptureRecord) {
    record.contentHash == ContentHash(sha, canon, record.data)
  }

  // ----- The log's projections -----

  /** The data of the records of one type, in order. */
  function OfType(records: seq<CaptureRecord>, t: RecordType): seq<Data> {
    if records == [] then [] else
      var (front, last) := (records[..|records| - 1], records[|records| - 1]);
      if last.recordType == t then OfType(front, t) + [last.data] else OfType(front, t)
  }

  predicate IsFailure(data: Data) {
    !(Outcome in data && data[Outcome] == Outcomes(SUCCESS))
  }

  function Failures(invocations: seq<Data>): seq<Data> {
    if invocations == [] then [] else
      var (front, last) := (invocations[..|invocations| - 1], invocations[|invocations| - 1]);
      if IsFailure(last) then Failures(front) + [last] else Failures(front)
  }

  datatype Access = Access(dataSource: Json, sensitivity: Json, fieldsAccessed: Json)

  function Get(data: Data, field: Field, default: Json): Json {
    if field in data then data[field] else default
  }

  /** The data access that the inputs of a tool name. */
  function InputAccess(inputs: Data): seq<Access> {
    if DataSource in inputs
    then [Access(inputs[DataSource], Get(inputs, Sensitivity, Str("internal")), Strs([]))] else []
  }

  /** The data access a record stands for: an observation that names its source, or a tool invocation
      whose inputs name one. */
  function AccessOf(record: CaptureRecord): seq<Access> {
    match record.recordType
    case OBSERVATION =>
      var source := Get(record.data, DataSource, Str(""));
      if source == Str("") then []
      else [Access(source, Get(record.data, Sensitivity, Null), Get(record.data, DataAccessed, Null))]
    case TOOL_INVOCATION =>
      var inputs := Get(record.data, Inputs, Obj(map[]));
      if inputs.Obj? then InputAccess(inputs.fields) else []
    case _ => []
  }

  function Accesses(records: seq<CaptureRecord>): seq<Access> {
    if records == [] then []
    else Accesses(records[..|records| - 1]) + AccessOf(records[|records| - 1])
  }

  function RealField(data: Data, field: Field): real {
    if field in data && data[field].Real? then data[field].amount else 0.0
  }

  function IntField(data: Data, field: Field): int {
    if field in data && data[field].Int? then data[field].number else 0
  }

  /** Tools and LLM calls cost money. */
  function Cost(records: seq<CaptureRecord>): real {
    if records == [] then 0.0 else
      var last := records[|records| - 1];
      Cost(records[..|records| - 1])
      + if last.recordType == TOOL_INVOCATION || last.recordType == LLM_CALL then RealField(last.data, CostUsd) else 0.0
  }

  function SumOf(calls: seq<Data>, field: Field): int {
    if calls == [] then 0 else SumOf(calls[..|calls| - 1], field) + IntField(calls[|calls| - 1], field)
  }

  // ----- Projections by parts -----

  /** A log's projections are those of its parts, one after the other. */
  lemma {:induction false} OfTypeJoins(left: seq<CaptureRecord>, right: seq<CaptureRecord>, t: RecordType)
    ensures OfType(left + right, t) == OfType(left, t) + OfType(right, t)
  {
    if right == [] {
      assert left + right == left;
    } else {
      var n := |right| - 1;
      OfTypeJoins(left, right[..n], t);
      assert (left + right)[..|left| + n] == left + right[..n];
    }
  }

  lemma {:induction false} AccessesJoin(left: seq<CaptureRecord>, right: seq<CaptureRecord>)
    ensures Accesses(left + right) == Accesses(left) + Accesses(right)
  {
    hide AccessOf;
    if right == [] {
      assert left + right == left;
    } else {
      var n := |right| - 1;
      AccessesJoin(left, right[..n]);
      assert (left + right)[..|left| + n] == left + right[..n];
    }
  }

  lemma {:induction false} CostJoins(left: seq<CaptureRecord>, right: seq<CaptureRecord>)
    ensures Cost(left + right) == Cost(left) + Cost(right)
  {
    hide RealField;
    if right == [] {
      assert left + right == left;
    } else {
      var n := |right| - 1;
      CostJoins(left, right[..n]);
      assert (left + right)[..|left| + n] == left + right[..n];
    }
  }

  /** And those of a single record are read off it. */
  lemma ProjectionsOfOne(record: CaptureRecord, t: RecordType)
    ensures OfType([record], t) == if record.recordType == t then [record.data] else []
    ensures Accesses([record]) == AccessOf(record)
    ensures Cost([record])
         == if record.recordType in {TOOL_INVOCATION, LLM_CALL} && CostUsd in record.data && record.data[CostUsd].Real?
            then record.data[CostUsd].amount else 0.0
  {
    assert [record][..0] == [];
  }

  lemma {:induction false} InvocationsJoin(left: seq<Data>, right: seq<Data>, field: Field)
    ensures Failures(left + right) == Failures(left) + Failures(right)
    ensures SumOf(left + right, field) == SumOf(left, field) + SumOf(right, field)
  {
    hide IsFailure, IntField;
    if right == [] {
      assert left + right == left;
    } else {
      var n := |right| - 1;
      InvocationsJoin(left, right[..n], field);
      assert (left + right)[..|left| + n] == left + right[..n];
    }
  }

  // ----- The side lists and totals as the recording methods step them -----

  datatype Shadow = Shadow(
    toolInvocations: seq<Data>, toolFailures: seq<Data>, decisions: seq<Data>, thoughts: seq<Data>,
    observations: seq<Data>, errors: seq<Data>, guardrailChecks: seq<Data>, delegations: seq<Data>,
    llmCalls: seq<Data>, goals: seq<Data>, dataAccessPatterns: seq<Access>,
    deadEndCount: int, costUsd: real, totalTokens: int, totalLlmLatencyMs: int)

  const EMPTY_SHADOW := Shadow([], [], [], [], [], [], [], [], [], [], [], 0, 0.0, 0, 0)

  function Stepped(s: Shadow, record: CaptureRecord): Shadow {
    var data := record.data;
    match record.recordType
    case STEP => s
    case TOOL_RESULT => s
    case THOUGHT => s.(thoughts := s.thoughts + [data])
    case OBSERVATION => s.(observations := s.observations + [data],
                           dataAccessPatterns := s.dataAccessPatterns + AccessOf(record))
    case DECISION => s.(decisions := s.decisions + [data])
    case TOOL_INVOCATION => s.(toolInvocations := s.toolInvocations + [data],
                               toolFailures := if IsFailure(data) then s.toolFailures + [data] else s.toolFailures,
                               dataAccessPatterns := s.dataAccessPatterns + AccessOf(record),
                               costUsd := s.costUsd + RealField(data, CostUsd))
    case ERROR => s.(errors := s.errors + [data])
    case DEAD_END => s.(deadEndCount := s.deadEndCount + 1)
    case GUARDRAIL => s.(guardrailChecks := s.guardrailChecks + [data])
    case DELEGATION => s.(delegations := s.delegations + [data])
    case LLM_CALL => s.(llmCalls := s.llmCalls + [data],
                        costUsd := s.costUsd + RealField(data, CostUsd),
                        totalTokens := s.totalTokens + IntField(data, TotalTokens),
                        totalLlmLatencyMs := s.totalLlmLatencyMs + IntField(data, LatencyMs))
    case GOAL => s.(goals := s.goals + [data])
  }

  function ShadowOf(records: seq<CaptureRecord>): Shadow {
    if records == [] then EMPTY_SHADOW
    else Stepped(ShadowOf(records[..|records| - 1]), records[|records| - 1])
  }

  predicate ListsProjected(s: Shadow, records: seq<CaptureRecord>) {
    && s.toolInvocations == OfType(records, TOOL_INVOCATION)
    && s.decisions == OfType(records, DECISION)
    && s.thoughts == OfType(records, THOUGHT)
    && s.observations == OfType(records, OBSERVATION)
    && s.errors == OfType(records, ERROR)
  }

  predicate MoreListsProjected(s: Shadow, records: seq<CaptureRecord>) {
    && s.guardrailChecks == OfType(records, GUARDRAIL)
    && s.delegations == OfType(records, DELEGATION)
    && s.llmCalls == OfType(records, LLM_CALL)
    && s.goals == OfType(records, GOAL)
    && s.dataAccessPatterns == Accesses(records)
  }

  predicate TotalsProjected(s: Shadow, records: seq<CaptureRecord>) {
    && s.toolFailures == Failures(OfType(records, TOOL_INVOCATION))
    && s.deadEndCount == |OfType(records, DEAD_END)|
    && s.costUsd == Cost(records)
    && s.totalTokens == SumOf(OfType(records, LLM_CALL), TotalTokens)
    && s.totalLlmLatencyMs == SumOf(OfType(records, LLM_CALL), LatencyMs)
  }

  /** Every list the store keeps is the projection of the record list, and every total a sum over it. */
  predicate Projected(s: Shadow, records: seq<CaptureRecord>) {
    ListsProjected(s, records) && MoreListsProjected(s, records) && TotalsProjected(s, records)
  }

  lemma NoAccess(record: CaptureRecord)
    requires record.recordType != OBSERVATION && record.recordType != TOOL_INVOCATION
    ensures AccessOf(record) == []
  {
  }

  lemma {:induction false} ListsAreProjected(records: seq<CaptureRecord>)
    ensures ListsProjected(ShadowOf(records), records)
  {
    hide AccessOf, RealField, IntField, IsFailure;
    if records != [] {
      ListsAreProjected(records[..|records| - 1]);
    }
  }

  lemma {:induction false} MoreListsAreProjected(records: seq<CaptureRecord>)
    ensures MoreListsProjected(ShadowOf(records), records)
  {
    hide AccessOf, RealField, IntField, IsFailure;
    if records != [] {
      var front, last := records[..|records| - 1], records[|records| - 1];
      MoreListsAreProjected(front);
      if last.recordType != OBSERVATION && last.recordType != TOOL_INVOCATION {
        NoAccess(last);
        assert Accesses(front) + AccessOf(last) == Accesses(front);
      }
    }
  }

  lemma FailuresAppend(invocations: seq<Data>, data: Data)
    ensures Failures(invocations + [data]) == if IsFailure(data) then Failures(invocations) + [data] else Failures(invocations)
  {
    assert (invocations + [data])[..|invocations|] == invocations;
  }

  lemma SumOfAppend(calls: seq<Data>, data: Data, field: Field)
    ensures SumOf(calls + [data], field) == SumOf(calls, field) + IntField(data, field)
  {
    assert (calls + [data])[..|calls|] == calls;
  }

  lemma {:induction false} TotalsAreProjected(records: seq<CaptureRecord>)
    ensures TotalsProjected(ShadowOf(records), records)
  {
    hide AccessOf, RealField, IntField, IsFailure;
    if records != [] {
      var n := |records| - 1;
      var front, last := records[..n], records[n];
      TotalsAreProjected(front);
      if last.recordType == TOOL_INVOCATION {
        FailuresAppend(OfType(front, TOOL_INVOCATION), last.data);
      } else if last.recordType == LLM_CALL {
        SumOfAppend(OfType(front, LLM_CALL), last.data, TotalTokens);
        SumOfAppend(OfType(front, LLM_CALL), last.data, LatencyMs);
      }
    }
  }

  lemma ShadowIsProjection(records: seq<CaptureRecord>)
    ensures Projected(ShadowOf(records), records)
  {
    ListsAreProjected(records);
    MoreListsAreProjected(records);
    TotalsAreProjected(records);
  }

  // ----- The log itself -----

  /** Every record has the hash of its data, and the dead ends are numbered from 1 up. */
  predicate GoodLog(sha: Sha256, canon: Canonical, records: seq<CaptureRecord>) {
    records != [] ==>
      var (front, last) := (records[..|records| - 1], records[|records| - 1]);
      && GoodLog(sha, canon, front)
      && Intact(sha, canon, last)
      && (last.recordType == DEAD_END ==>
            Get(last.data, DeadEndIndex, Null) == Int(|OfType(front, DEAD_END)| + 1))
  }

  /** The `k`-th dead end of a log carries the number `k + 1`. */
  lemma {:induction false} DeadEndsNumbered(sha: Sha256, canon: Canonical, records: seq<CaptureRecord>, k: nat)
    requires GoodLog(sha, canon, records) && k < |OfType(records, DEAD_END)|
    ensures Get(OfType(records, DEAD_END)[k], DeadEndIndex, Null) == Int(k + 1)
  {
    var front := records[..|records| - 1];
    if k < |OfType(front, DEAD_END)| {
      DeadEndsNumbered(sha, canon, front, k);
    }
  }

  // ----- Attempts that did not reach the record list -----

  /** The record list: serialisation is the last thing that can raise, after the side lists and totals have
      been stepped, so of all records attempted the list holds those that serialise. */
  function Stored(canon: Canonical, attempted: seq<CaptureRecord>): seq<CaptureRecord> {
    if attempted == [] then [] else
      var (front, last) := (attempted[..|attempted| - 1], attempted[|attempted| - 1]);
      if canon.accepts(last.data) then Stored(canon, front) + [last] else Stored(canon, front)
  }

  predicate AllAccepted(canon: Canonical, records: seq<CaptureRecord>) {
    forall i :: 0 <= i < |records| ==> canon.accepts(records[i].data)
  }

  lemma OneMoreRecord(sha: Sha256, canon: Canonical, records: seq<CaptureRecord>, record: CaptureRecord)
    requires GoodLog(sha, canon, records) && Intact(sha, canon, record)
    requires record.recordType == DEAD_END ==>
               Get(record.data, DeadEndIndex, Null) == Int(ShadowOf(records).deadEndCount + 1)
    ensures GoodLog(sha, canon, records + [record])
    ensures ShadowOf(records + [record]) == Stepped(ShadowOf(records), record)
    ensures Stored(canon, records + [record])
         == if canon.accepts(record.data) then Stored(canon, records) + [record] else Stored(canon, records)
  {
    ShadowIsProjection(records);
    assert (records + [record])[..|records|] == records;
  }

  lemma {:induction false} StoredIsIntact(sha: Sha256, canon: Canonical, attempted: seq<CaptureRecord>)
    requires GoodLog(sha, canon, attempted)
    ensures AllAccepted(canon, Stored(canon, attempted))
    ensures forall i :: 0 <= i < |Stored(canon, attempted)| ==> Intact(sha, canon, Stored(canon, attempted)[i])
    ensures forall i :: 0 <= i < |Stored(canon, attempted)| ==>
              Stored(canon, attempted)[i].contentHash == Hex(sha(Utf8(canon.text(Stored(canon, attempted)[i].data))))
  {
    hide Hex, Utf8;
    if attempted != [] {
      StoredIsIntact(sha, canon, attempted[..|attempted| - 1]);
    }
  }

  /** How many attempts of one type were not stored. */
  function Dropped(canon: Canonical, attempted: seq<CaptureRecord>, t: RecordType): nat {
    if attempted == [] then 0 else
      var last := attempted[|attempted| - 1];
      Dropped(canon, attempted[..|attempted| - 1], t) + if last.recordType == t && !canon.accepts(last.data) then 1 else 0
  }

  lemma OfTypeAppend(records: seq<CaptureRecord>, record: CaptureRecord, t: RecordType)
    ensures OfType(records + [record], t) == if record.recordType == t then OfType(records, t) + [record.data] else OfType(records, t)
  {
    assert (records + [record])[..|records|] == records;
  }

  lemma {:induction false} DroppedLength(canon: Canonical, attempted: seq<CaptureRecord>, t: RecordType)
    ensures |OfType(Stored(canon, attempted), t)| + Dropped(canon, attempted, t) == |OfType(attempted, t)|
  {
    if attempted != [] {
      var front, last := attempted[..|attempted| - 1], attempted[|attempted| - 1];
      DroppedLength(canon, front, t);
      OfTypeAppend(Stored(canon, front), last, t);
    }
  }

  /** Plain steps are kept in no side list. */
  predicate Tracked(t: RecordType) {
    t != STEP && t != TOOL_RESULT
  }

  predicate NothingDropped(canon: Canonical, attempted: seq<CaptureRecord>) {
    forall i :: 0 <= i < |attempted| ==> Tracked(attempted[i].recordType) ==> canon.accepts(attempted[i].data)
  }

  lemma {:induction false} DroppedVisible(canon: Canonical, attempted: seq<CaptureRecord>, t: RecordType)
    ensures Dropped(canon, attempted, t) == 0
            <==> forall i :: 0 <= i < |attempted| ==> attempted[i].recordType == t ==> canon.accepts(attempted[i].data)
  {
    if attempted != [] {
      DroppedVisible(canon, attempted[..|attempted| - 1], t);
      assert forall i :: 0 <= i < |attempted| - 1 ==> attempted[i] == attempted[..|attempted| - 1][i];
    }
  }

  /** What was dropped is missed by none of the projections when it is plain steps only. */
  lemma {:induction false} SameProjections(canon: Canonical, attempted: seq<CaptureRecord>)
    requires NothingDropped(canon, attempted)
    ensures forall t: RecordType :: Tracked(t) ==> OfType(Stored(canon, attempted), t) == OfType(attempted, t)
    ensures Accesses(Stored(canon, attempted)) == Accesses(attempted)
    ensures Cost(Stored(canon, attempted)) == Cost(attempted)
  {
    hide AccessOf, RealField;
    if attempted != [] {
      var front, last := attempted[..|attempted| - 1], attempted[|attempted| - 1];
      assert NothingDropped(canon, front) by {
        assert forall i :: 0 <= i < |front| ==> front[i] == attempted[i];
      }
      SameProjections(canon, front);
      if canon.accepts(last.data) {
        assert (Stored(canon, front) + [last])[..|Stored(canon, front)|] == Stored(canon, front);
      } else {
        NoAccess(last);
        assert Accesses(front) + AccessOf(last) == Accesses(front);
      }
    }
  }

  /** The side lists and totals agree with the record list exactly when every attempt that steps them was
      stored. */
  lemma AgreementExactly(canon: Canonical, attempted: seq<CaptureRecord>)
    ensures Projected(ShadowOf(attempted), Stored(canon, attempted)) <==> NothingDropped(canon, attempted)
  {
    hide ShadowOf, Stored, Accesses, Cost, OfType, SumOf, Failures, Dropped;
    ShadowIsProjection(attempted);
    if NothingDropped(canon, attempted) {
      SameProjections(canon, attempted);
    }
    if Projected(ShadowOf(attempted), Stored(canon, attempted)) {
      forall i | 0 <= i < |attempted| && Tracked(attempted[i].recordType)
        ensures canon.accepts(attempted[i].data)
      {
        DroppedLength(canon, attempted, attempted[i].recordType);
        DroppedVisible(canon, attempted, attempted[i].recordType);
      }
    }
  }
}
