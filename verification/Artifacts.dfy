/** What is derived from a finished capture: the integrity check and the forensic artifacts. */
module Artifacts {
  import opened Results
  import opened Encoding
  import opened Merkle
  import opened Records
  import opened Capture
  import opened Tallies

  // ----- Integrity -----

  datatype IntegrityError = IntegrityError(index: nat, recordType: RecordType)

  /** The records whose stored hash is not the hash of their data, in order. */
  function Mismatches(sha: Sha256, canon: Canonical, records: seq<CaptureRecord>): seq<IntegrityError> {
    if records == [] then [] else
      var n := |records| - 1;
      var before := Mismatches(sha, canon, records[..n]);
      if Intact(sha, canon, records[n]) then before else before + [IntegrityError(n, records[n].recordType)]
  }

  /** Checks whatever the record list holds, tampered with or not. Data that does not serialise raises. */
  method VerifyIntegrity(sha: Sha256, canon: Canonical, records: seq<CaptureRecord>) returns (r: Result<seq<IntegrityError>>)
    ensures r == if AllAccepted(canon, records) then Success(Mismatches(sha, canon, records)) else Failure(TypeError)
  {
    hide ContentHash;
    var errors: seq<IntegrityError> := [];
    for i := 0 to |records|
      invariant AllAccepted(canon, records[..i]) && errors == Mismatches(sha, canon, records[..i])
    {
      assert records[..i + 1][..i] == records[..i];
      if !canon.accepts(records[i].data) {
        return Failure(TypeError);
      }
      var expected := ContentHash(sha, canon, records[i].data);
      if records[i].contentHash != expected {
        errors := errors + [IntegrityError(i, records[i].recordType)];
      }
    }
    assert records[..|records|] == records;
    r := Success(errors);
  }

  lemma {:induction false} IntactHasNoMismatch(sha: Sha256, canon: Canonical, records: seq<CaptureRecord>)
    requires forall i :: 0 <= i < |records| ==> Intact(sha, canon, records[i])
    ensures Mismatches(sha, canon, records) == []
  {
    if records != [] {
      IntactHasNoMismatch(sha, canon, records[..|records| - 1]);
    }
  }

  /** Positions below `n`, in increasing order. */
  predicate Increasing(errors: seq<IntegrityError>, n: nat) {
    && (forall k :: 0 <= k < |errors| ==> errors[k].index < n)
    && (forall j, k :: 0 <= j < k < |errors| ==> errors[j].index < errors[k].index)
  }

  lemma IncreasingAppend(errors: seq<IntegrityError>, n: nat, t: RecordType)
    requires Increasing(errors, n)
    ensures Increasing(errors, n + 1) && Increasing(errors + [IntegrityError(n, t)], n + 1)
  {
  }

  lemma NoneIncreasing()
    ensures Increasing([], 0)
  {
  }

  lemma {:induction false} MismatchesOrdered(sha: Sha256, canon: Canonical, records: seq<CaptureRecord>)
    ensures Increasing(Mismatches(sha, canon, records), |records|)
  {
    hide Intact, Increasing;
    if records == [] {
      NoneIncreasing();
    } else {
      var n := |records| - 1;
      MismatchesOrdered(sha, canon, records[..n]);
      IncreasingAppend(Mismatches(sha, canon, records[..n]), n, records[n].recordType);
    }
  }

  lemma {:induction false} MismatchAt(sha: Sha256, canon: Canonical, records: seq<CaptureRecord>, e: IntegrityError)
    ensures e in Mismatches(sha, canon, records) <==>
            e.index < |records| && e.recordType == records[e.index].recordType && !Intact(sha, canon, records[e.index])
  {
    hide Intact;
    if records != [] {
      var n := |records| - 1;
      var before := Mismatches(sha, canon, records[..n]);
      MismatchAt(sha, canon, records[..n], e);
      assert e.index < n ==> records[..n][e.index] == records[e.index];
      assert Mismatches(sha, canon, records) == if Intact(sha, canon, records[n]) then before else before + [IntegrityError(n, records[n].recordType)];
    }
  }

  /** Exactly the positions whose stored hash is not that of the stored data, in increasing order. */
  lemma MismatchesAre(sha: Sha256, canon: Canonical, records: seq<CaptureRecord>)
    ensures var errors := Mismatches(sha, canon, records);
            && Increasing(errors, |records|)
            && (forall e :: e in errors <==>
                  && e.index < |records| && e.recordType == records[e.index].recordType
                  && records[e.index].contentHash != Hex(sha(Utf8(canon.text(records[e.index].data)))))
  {
    hide Mismatches, Hex, Utf8, Increasing;
    MismatchesOrdered(sha, canon, records);
    forall e: IntegrityError
      ensures e in Mismatches(sha, canon, records) <==>
              && e.index < |records| && e.recordType == records[e.index].recordType
              && records[e.index].contentHash != Hex(sha(Utf8(canon.text(records[e.index].data))))
    {
      MismatchAt(sha, canon, records, e);
    }
  }

  /** The positions at which two logs of the same length hold different data. */
  function ChangedAt(records: seq<CaptureRecord>, tampered: seq<CaptureRecord>): seq<IntegrityError>
    requires |records| == |tampered|
  {
    if records == [] then [] else
      var n := |records| - 1;
      var before := ChangedAt(records[..n], tampered[..n]);
      if records[n].data == tampered[n].data then before else before + [IntegrityError(n, tampered[n].recordType)]
  }

  ghost function ContentInputs(canon: Canonical, records: seq<CaptureRecord>): set<Bytes> {
    set i | 0 <= i < |records| :: ContentInput(canon, records[i].data)
  }

  lemma InputsGrow(canon: Canonical, records: seq<CaptureRecord>, n: nat)
    requires n < |records|
    ensures ContentInputs(canon, records[..n]) <= ContentInputs(canon, records)
    ensures ContentInput(canon, records[n].data) in ContentInputs(canon, records)
  {
    forall x | x in ContentInputs(canon, records[..n])
      ensures x in ContentInputs(canon, records)
    {
      var i :| 0 <= i < n && x == ContentInput(canon, records[..n][i].data);
      assert x == ContentInput(canon, records[i].data);
    }
  }

  lemma SameContentHash(sha: Sha256, canon: Canonical, a: Data, b: Data)
    requires Injective(canon) && canon.accepts(a) && canon.accepts(b)
    ensures ContentHash(sha, canon, a) == ContentHash(sha, canon, b)
            ==> sha(ContentInput(canon, a)) == sha(ContentInput(canon, b))
    ensures ContentInput(canon, a) == ContentInput(canon, b) ==> a == b
  {
    if ContentHash(sha, canon, a) == ContentHash(sha, canon, b) {
      HexInjective(sha(ContentInput(canon, a)), sha(ContentInput(canon, b)));
    }
    if ContentInput(canon, a) == ContentInput(canon, b) {
      Utf8Injective(canon.text(a), canon.text(b));
    }
  }

  lemma ChangeShows(sha: Sha256, canon: Canonical, records: seq<CaptureRecord>, tampered: seq<CaptureRecord>, n: nat)
    requires Injective(canon) && n < |records| == |tampered|
    requires canon.accepts(records[n].data) && canon.accepts(tampered[n].data)
    requires Intact(sha, canon, records[n]) && tampered[n].contentHash == records[n].contentHash
    ensures (Intact(sha, canon, tampered[n]) <==> records[n].data == tampered[n].data)
            || Collision(sha, ContentInputs(canon, records), ContentInputs(canon, tampered))
  {
    hide ContentHash, Injective;
    SameContentHash(sha, canon, records[n].data, tampered[n].data);
    assert ContentInput(canon, records[n].data) in ContentInputs(canon, records);
    assert ContentInput(canon, tampered[n].data) in ContentInputs(canon, tampered);
  }

  /** Replacing the data of any of the records of an intact log by other data that serialises, hashes kept, is reported exactly at the
      records that changed and in their order, or two different dictionaries hash alike. The type of a
      record is not hashed, so it may change too and is not reported. */
  lemma {:induction false} TamperDetected(sha: Sha256, canon: Canonical, records: seq<CaptureRecord>, tampered: seq<CaptureRecord>)
    requires Injective(canon) && |records| == |tampered|
    requires AllAccepted(canon, records) && AllAccepted(canon, tampered)
    requires forall i :: 0 <= i < |records| ==> Intact(sha, canon, records[i])
    requires forall i :: 0 <= i < |records| ==> tampered[i].contentHash == records[i].contentHash
    ensures Mismatches(sha, canon, tampered) == ChangedAt(records, tampered)
            || Collision(sha, ContentInputs(canon, records), ContentInputs(canon, tampered))
  {
    hide Intact, Collision, ContentInputs, Injective;
    if records != [] {
      var n := |records| - 1;
      TamperDetected(sha, canon, records[..n], tampered[..n]);
      InputsGrow(canon, records, n);
      InputsGrow(canon, tampered, n);
      CollisionGrows(sha, ContentInputs(canon, records[..n]), ContentInputs(canon, tampered[..n]),
                     ContentInputs(canon, records), ContentInputs(canon, tampered));
      ChangeShows(sha, canon, records, tampered, n);
    }
  }

  // ----- The artifacts -----

  datatype Manifest = Manifest(
    recordCount: nat, typeCounts: map<RecordType, nat>, toolInvocationCount: nat, toolFailureCount: nat,
    decisionCount: nat, deadEndCount: int, errorCount: nat, guardrailBlockCount: nat, delegationCount: nat,
    llmCallCount: nat, totalCostUsd: real, totalTokens: int, totalLlmLatencyMs: int,
    contentHashes: seq<string>, integrityHash: string)

  datatype Entry = Entry(seqNumber: nat, recordType: RecordType, hash: string, data: Data)

  datatype Operations = Operations(
    toolInvocations: seq<Data>, toolOutcomes: map<Json, nat>, totalInvocations: nat, failures: seq<Data>,
    llmCalls: seq<Data>, delegations: seq<Data>, dataAccessPatterns: seq<Access>, sensitivitySummary: map<Json, nat>)

  datatype Lineage = Lineage(
    goals: seq<Data>, decisions: seq<Data>, decisionChain: seq<Json>, thoughts: seq<Data>, observations: seq<Data>,
    errors: seq<Data>, deadEnds: int, guardrailChecks: seq<Data>, reasoningDepth: nat)

  datatype Artifacts = Artifacts(manifest: Manifest, transcript: seq<Entry>, operations: Operations, lineage: Lineage)

  function TypesOf(records: seq<CaptureRecord>): (r: seq<RecordType>)
    ensures |r| == |records| && forall i :: 0 <= i < |r| ==> r[i] == records[i].recordType
  {
    seq(|records|, i requires 0 <= i < |records| => records[i].recordType)
  }

  function HashesOf(records: seq<CaptureRecord>): (r: seq<string>)
    ensures |r| == |records| && forall i :: 0 <= i < |r| ==> r[i] == records[i].contentHash
  {
    seq(|records|, i requires 0 <= i < |records| => records[i].contentHash)
  }

  /** One field of each dictionary. */
  function Column(rows: seq<Data>, field: Field): (r: seq<Json>)
    ensures |r| == |rows| && forall i :: 0 <= i < |r| ==> r[i] == Get(rows[i], field, Null)
  {
    seq(|rows|, i requires 0 <= i < |rows| => Get(rows[i], field, Null))
  }

  // Sensitivity levels are counted in a dictionary, so a list or a dictionary as a level raises.

  predicate Hashable(value: Json) {
    !value.Strs? && !value.Obj?
  }

  /** Python's dictionaries take a boolean, an integer and a real of equal value for one key. */
  function DictKey(value: Json): (key: Json)
    ensures value.Str? ==> key == value
  {
    match value
    case Bool(flag) => Real(if flag then 1.0 else 0.0)
    case Int(number) => Real(number as real)
    case _ => value
  }

  predicate IsNumber(value: Json) {
    value.Bool? || value.Int? || value.Real?
  }

  function NumberOf(value: Json): real
    requires IsNumber(value)
  {
    match value
    case Bool(flag) => if flag then 1.0 else 0.0
    case Int(number) => number as real
    case Real(amount) => amount
  }

  /** Two values are one key exactly when they are equal, or numbers of the same value. */
  lemma SameKey(a: Json, b: Json)
    ensures DictKey(a) == DictKey(b) <==> a == b || (IsNumber(a) && IsNumber(b) && NumberOf(a) == NumberOf(b))
  {
  }

  predicate AllHashable(accesses: seq<Access>) {
    forall i :: 0 <= i < |accesses| ==> Hashable(accesses[i].sensitivity)
  }

  function Levels(accesses: seq<Access>): (r: seq<Json>)
    ensures |r| == |accesses| && forall i :: 0 <= i < |r| ==> r[i] == DictKey(accesses[i].sensitivity)
  {
    seq(|accesses|, i requires 0 <= i < |accesses| => DictKey(accesses[i].sensitivity))
  }

  function Transcript(records: seq<CaptureRecord>): (r: seq<Entry>)
    ensures |r| == |records|
    ensures forall i :: 0 <= i < |r| ==> r[i] == Entry(i, records[i].recordType, records[i].contentHash, records[i].data)
  {
    seq(|records|, i requires 0 <= i < |records| => Entry(i, records[i].recordType, records[i].contentHash, records[i].data))
  }

  // What is counted record by record comes from the record list; the rest from the side lists and totals,
  // which hold every attempt.

  ghost predicate ManifestOf(sha: Sha256, canon: Canonical, m: Manifest, records: seq<CaptureRecord>,
                             attempted: seq<CaptureRecord>) {
    && m.recordCount == |records|
    && IsTally(m.typeCounts, TypesOf(records))
    && m.toolInvocationCount == |OfType(attempted, TOOL_INVOCATION)|
    && m.toolFailureCount == |Failures(OfType(attempted, TOOL_INVOCATION))|
    && m.decisionCount == |OfType(attempted, DECISION)|
    && m.deadEndCount == |OfType(attempted, DEAD_END)|
    && m.errorCount == |OfType(attempted, ERROR)|
    && m.guardrailBlockCount == Count(Column(OfType(attempted, GUARDRAIL), Blocked), Bool(true))
    && m.delegationCount == |OfType(attempted, DELEGATION)|
    && m.llmCallCount == |OfType(attempted, LLM_CALL)|
    && m.totalCostUsd == Cost(attempted)
    && m.totalTokens == SumOf(OfType(attempted, LLM_CALL), TotalTokens)
    && m.totalLlmLatencyMs == SumOf(OfType(attempted, LLM_CALL), LatencyMs)
    && m.contentHashes == HashesOf(records)
    && m.integrityHash == ContentHash(sha, canon, map[Hashes := Strs(HashesOf(records))])
  }

  ghost predicate OperationsOf(o: Operations, attempted: seq<CaptureRecord>) {
    && o.toolInvocations == OfType(attempted, TOOL_INVOCATION)
    && IsTally(o.toolOutcomes, Column(OfType(attempted, TOOL_INVOCATION), Outcome))
    && o.totalInvocations == |OfType(attempted, TOOL_INVOCATION)|
    && o.failures == Failures(OfType(attempted, TOOL_INVOCATION))
    && o.llmCalls == OfType(attempted, LLM_CALL)
    && o.delegations == OfType(attempted, DELEGATION)
    && o.dataAccessPatterns == Accesses(attempted)
    && IsTally(o.sensitivitySummary, Levels(Accesses(attempted)))
  }

  ghost predicate LineageOf(l: Lineage, records: seq<CaptureRecord>, attempted: seq<CaptureRecord>) {
    && l.goals == OfType(attempted, GOAL)
    && l.decisions == OfType(attempted, DECISION)
    && l.decisionChain == Column(OfType(attempted, DECISION), Decision)
    && l.thoughts == OfType(attempted, THOUGHT)
    && l.observations == OfType(attempted, OBSERVATION)
    && l.errors == OfType(attempted, ERROR)
    && l.deadEnds == |OfType(attempted, DEAD_END)|
    && l.guardrailChecks == OfType(attempted, GUARDRAIL)
    && l.reasoningDepth == |records|
  }

  /** The artifacts are determined by the attempts. */
  ghost predicate ArtifactsOf(sha: Sha256, canon: Canonical, a: Artifacts, attempted: seq<CaptureRecord>) {
    var records := Stored(canon, attempted);
    && ManifestOf(sha, canon, a.manifest, records, attempted)
    && a.transcript == Transcript(records)
    && OperationsOf(a.operations, attempted)
    && LineageOf(a.lineage, records, attempted)
  }

  method GuardrailBlockCount(checks: seq<Data>) returns (n: nat)
    ensures n == Count(Column(checks, Blocked), Bool(true))
  {
    n := 0;
    ghost var column := Column(checks, Blocked);
    for i := 0 to |checks|
      invariant n == Count(column[..i], Bool(true))
    {
      assert column[..i + 1][..i] == column[..i];
      if Get(checks[i], Blocked, Null) == Bool(true) {
        n := n + 1;
      }
    }
    assert column[..|checks|] == column;
  }

  /** Counts the accesses by sensitivity, or raises at the first one that cannot be a key. */
  method ComputeSensitivitySummary(accesses: seq<Access>) returns (r: Result<map<Json, nat>>)
    ensures AllHashable(accesses) ==> r.Success? && IsTally(r.value, Levels(accesses))
    ensures !AllHashable(accesses) ==> r == Failure(TypeError)
  {
    ghost var levels := Levels(accesses);
    var summary: map<Json, nat> := map[];
    for i := 0 to |accesses|
      invariant AllHashable(accesses[..i]) && IsTally(summary, levels[..i])
    {
      assert levels[..i + 1][..i] == levels[..i];
      var level := accesses[i].sensitivity;
      if !Hashable(level) {
        return Failure(TypeError);
      }
      var before := if DictKey(level) in summary then summary[DictKey(level)] else 0;
      summary := summary[DictKey(level) := before + 1];
    }
    assert levels[..|accesses|] == levels && accesses[..|accesses|] == accesses;
    r := Success(summary);
  }

  /** A finalised capture has artifacts exactly when every sensitivity in its accesses can be counted. */
  method To5WArtifacts(capture: ProvenanceCapture) returns (r: Result<Artifacts>)
    requires capture.Valid()
    ensures !capture.finalized ==> r == Failure(RuntimeError)
    ensures capture.finalized ==> (r.Success? <==> AllHashable(Accesses(capture.attempted)))
    ensures r.Success? ==> ArtifactsOf(capture.sha, capture.canon, r.value, capture.attempted)
    ensures capture.finalized && r.Failure? ==> r.error == TypeError
  {
    hide AllHashable, OfType, Accesses, Failures, Cost, SumOf, ContentHash, IsTally, ShadowOf, Stored, GoodLog, NothingDropped;
    if !capture.finalized {
      return Failure(RuntimeError);
    }
    capture.Agreement();
    var records := capture.records;
    var contentHashes := HashesOf(records);
    var typeCounts := Tally(TypesOf(records));
    var blocked := GuardrailBlockCount(capture.guardrailChecks);
    var manifest := Manifest(
      |records|, typeCounts, |capture.toolInvocations|, |capture.toolFailures|, |capture.decisions|, capture.deadEndCount,
      |capture.errors|, blocked, |capture.delegations|, |capture.llmCalls|, capture.costUsd, capture.totalTokens,
      capture.totalLlmLatencyMs, contentHashes,
      ContentHash(capture.sha, capture.canon, map[Hashes := Strs(contentHashes)]));
    var toolOutcomes := Tally(Column(capture.toolInvocations, Outcome));
    var sensitivity := ComputeSensitivitySummary(capture.dataAccessPatterns);
    if sensitivity.Failure? {
      return Failure(sensitivity.error);
    }
    var operations := Operations(
      capture.toolInvocations, toolOutcomes, |capture.toolInvocations|, capture.toolFailures, capture.llmCalls,
      capture.delegations, capture.dataAccessPatterns, sensitivity.value);
    var lineage := Lineage(
      capture.goals, capture.decisions, Column(capture.decisions, Decision), capture.thoughts, capture.observations,
      capture.errors, capture.deadEndCount, capture.guardrailChecks, |records|);
    r := Success(Artifacts(manifest, Transcript(records), operations, lineage));
  }

  // ----- When the artifacts cannot be made -----

  /** What a caller can check before recording a tool invocation. */
  predicate CountableInputs(inputs: Data) {
    DataSource in inputs && Sensitivity in inputs ==> Hashable(inputs[Sensitivity])
  }

  predicate Countable(record: CaptureRecord) {
    AllHashable(AccessOf(record))
  }

  lemma {:induction false} AccessesHashable(records: seq<CaptureRecord>)
    ensures AllHashable(Accesses(records)) <==> forall i :: 0 <= i < |records| ==> Countable(records[i])
  {
    hide AccessOf;
    if records != [] {
      var n := |records| - 1;
      var before, last := Accesses(records[..n]), AccessOf(records[n]);
      AccessesHashable(records[..n]);
      assert AllHashable(before + last) <==> AllHashable(before) && AllHashable(last) by {
        assert forall i :: 0 <= i < |last| ==> last[i] == (before + last)[|before| + i];
        assert forall i :: 0 <= i < |before| ==> before[i] == (before + last)[i];
      }
      assert forall i :: 0 <= i < n ==> records[i] == records[..n][i];
    }
  }

  /** A recorded tool invocation spoils the artifacts exactly when its inputs name a source and give a list
      or a dictionary as its sensitivity; a recorded observation never does. */
  lemma ToolCountable(sha: Sha256, canon: Canonical, toolName: string, inputs: Data, outputs: Json, outcome: ToolOutcome,
                      errorMessage: string, durationMs: int, costUsd: real, retryAttempt: int)
    ensures Countable(RecordOf(sha, canon, TOOL_INVOCATION,
                               ToolData(toolName, inputs, outputs, outcome, errorMessage, durationMs, costUsd, retryAttempt)))
            <==> CountableInputs(inputs)
  {
    hide ToolData, RecordOf;
    ToolFacts(sha, canon, toolName, inputs, outputs, outcome, errorMessage, durationMs, costUsd, retryAttempt);
    var accesses := InputAccess(inputs);
    assert AllHashable(accesses) <==> accesses == [] || Hashable(accesses[0].sensitivity);
  }

  lemma ObservationCountable(sha: Sha256, canon: Canonical, observation: string, source: string, dataSource: string,
                             sensitivity: string, dataAccessed: seq<string>)
    ensures Countable(RecordOf(sha, canon, OBSERVATION,
                               ObservationData(observation, source, dataSource, sensitivity, dataAccessed)))
  {
    ObservationAccess(sha, canon, observation, source, dataSource, sensitivity, dataAccessed);
  }

  /** Such an input: a customer database with a list of sensitivities. Whatever else is recorded, the
      capture has no artifacts. */
  lemma ListSensitivityRaises(sha: Sha256, canon: Canonical, toolName: string, attempted: seq<CaptureRecord>, i: nat)
    requires i < |attempted|
    requires attempted[i] == RecordOf(sha, canon, TOOL_INVOCATION,
                                      ToolData(toolName, map[DataSource := Str("crm"), Sensitivity := Strs(["pii"])],
                                               Null, SUCCESS, "", 0, 0.0, 0))
    ensures !AllHashable(Accesses(attempted))
  {
    ToolCountable(sha, canon, toolName, map[DataSource := Str("crm"), Sensitivity := Strs(["pii"])],
                  Null, SUCCESS, "", 0, 0.0, 0);
    AccessesHashable(attempted);
  }

  // ----- The books balance -----

  lemma {:induction false} TypeCountIsLength(records: seq<CaptureRecord>, t: RecordType)
    ensures Count(TypesOf(records), t) == |OfType(records, t)|
  {
    if records != [] {
      var front := records[..|records| - 1];
      TypeCountIsLength(front, t);
      assert TypesOf(records)[..|front|] == TypesOf(front);
    }
  }

  lemma {:induction false} SuccessesAndFailures(invocations: seq<Data>)
    ensures Count(Column(invocations, Outcome), Outcomes(SUCCESS)) + |Failures(invocations)| == |invocations|
  {
    if invocations != [] {
      var front := invocations[..|invocations| - 1];
      SuccessesAndFailures(front);
      assert Column(invocations, Outcome)[..|front|] == Column(front, Outcome);
    }
  }

  function CountIn<K>(counts: map<K, nat>, key: K): nat {
    if key in counts then counts[key] else 0
  }

  lemma StoredTypeCount(canon: Canonical, attempted: seq<CaptureRecord>, t: RecordType)
    ensures Count(TypesOf(Stored(canon, attempted)), t) + Dropped(canon, attempted, t) == |OfType(attempted, t)|
  {
    TypeCountIsLength(Stored(canon, attempted), t);
    DroppedLength(canon, attempted, t);
  }

  /** In the artifacts of any capture: the type counts add up to the record count and, with the attempts that
      were not stored, give each separately reported count; the tool outcomes add up to the invocations, and
      all but the successes to the failures; the sensitivity levels add up to the accesses; the transcript
      numbers the records. */
  lemma ArtifactsBalance(sha: Sha256, canon: Canonical, a: Artifacts, attempted: seq<CaptureRecord>)
    requires ArtifactsOf(sha, canon, a, attempted)
    ensures Total(a.manifest.typeCounts) == a.manifest.recordCount == |a.transcript| == a.lineage.reasoningDepth
    ensures CountIn(a.manifest.typeCounts, TOOL_INVOCATION) + Dropped(canon, attempted, TOOL_INVOCATION)
         == a.manifest.toolInvocationCount == a.operations.totalInvocations
    ensures CountIn(a.manifest.typeCounts, DECISION) + Dropped(canon, attempted, DECISION) == a.manifest.decisionCount
    ensures CountIn(a.manifest.typeCounts, DEAD_END) + Dropped(canon, attempted, DEAD_END) == a.manifest.deadEndCount
    ensures forall t :: CountIn(a.manifest.typeCounts, t) + Dropped(canon, attempted, t) == |OfType(attempted, t)|
    ensures Total(a.operations.toolOutcomes) == a.operations.totalInvocations
    ensures a.operations.totalInvocations - CountIn(a.operations.toolOutcomes, Outcomes(SUCCESS)) == |a.operations.failures|
    ensures Total(a.operations.sensitivitySummary) == |a.operations.dataAccessPatterns|
    ensures var records := Stored(canon, attempted);
            && |a.transcript| == |records| == |a.manifest.contentHashes|
            && (forall i :: 0 <= i < |records| ==>
                  && a.transcript[i] == Entry(i, records[i].recordType, records[i].contentHash, records[i].data)
                  && a.manifest.contentHashes[i] == records[i].contentHash)
    ensures a.manifest.integrityHash == Hex(sha(Utf8(canon.text(map[Field.Hashes := Strs(a.manifest.contentHashes)]))))
  {
    hide OfType, Accesses, Failures, Cost, SumOf, Count, TypesOf, Column, Levels, Stored, Dropped, Hex, Utf8;
    var types, outcomes := TypesOf(Stored(canon, attempted)), Column(OfType(attempted, TOOL_INVOCATION), Outcome);
    TallyTotal(a.manifest.typeCounts, types);
    TallyTotal(a.operations.toolOutcomes, outcomes);
    TallyTotal(a.operations.sensitivitySummary, Levels(Accesses(attempted)));
    forall t: RecordType
      ensures CountIn(a.manifest.typeCounts, t) + Dropped(canon, attempted, t) == |OfType(attempted, t)|
    {
      StoredTypeCount(canon, attempted, t);
    }
    SuccessesAndFailures(OfType(attempted, TOOL_INVOCATION));
    assert CountIn(a.operations.toolOutcomes, Outcomes(SUCCESS)) == Count(outcomes, Outcomes(SUCCESS));
    assert CountIn(a.manifest.typeCounts, DEAD_END) == Count(types, DEAD_END);
  }
}
