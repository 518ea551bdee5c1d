/** Ending a capture session: finalise, hash, queue a batch record, and feed the session's metrics back
    to the behavioural stream. */
module Session {
  import opened Results
  import opened Encoding
  import opened Merkle
  import opened MerkleTrees
  import opened Records
  import opened Capture
  import opened Artifacts
  import Batches
  import Baselines

  datatype SessionSummary = SessionSummary(
    sessionId: string, agentId: string, sessionHash: string, artifactCount: nat, durationMs: int, deadEndCount: int,
    toolInvocationCount: nat, costUsd: real, batchRecordId: string, feedbackSent: bool, integrityErrors: seq<IntegrityError>)

  datatype SessionEvent = SessionEvent(
    agentId: string, sessionId: string, deadEndCount: int, toolInvocations: seq<string>, uniqueTools: nat,
    costUsd: real, durationMs: int, dataAccessPatterns: seq<Json>)

  /** What the services around an ending session do: the elapsed time, a fresh record id, and whether the
      Redis commands succeed. */
  datatype Environment = Environment(durationMs: int, batchRecordId: string, enqueueSucceeds: bool, emitSucceeds: bool)

  function NameOf(data: Data): string {
    var name := Get(data, ToolName, Str(""));
    if name.Str? then name.str else ""
  }

  function ToolNames(invocations: seq<Data>): (r: seq<string>)
    ensures |r| == |invocations|
    ensures forall i :: 0 <= i < |r| ==> r[i] == NameOf(invocations[i])
  {
    seq(|invocations|, i requires 0 <= i < |invocations| => NameOf(invocations[i]))
  }

  function DataSources(accesses: seq<Access>): (r: seq<Json>)
    ensures |r| == |accesses|
    ensures forall i :: 0 <= i < |r| ==> r[i] == accesses[i].dataSource
  {
    seq(|accesses|, i requires 0 <= i < |accesses| => accesses[i].dataSource)
  }

  /** The summary of what a session attempted to record, before the pipeline runs. */
  function SummaryOf(sha: Sha256, canon: Canonical, sessionId: string, agentId: string, attempted: seq<CaptureRecord>,
                     durationMs: int): SessionSummary {
    var records := Stored(canon, attempted);
    SessionSummary(sessionId, agentId, Batches.SessionHash(sha, sessionId, HashesOf(records)), |records|, durationMs,
                   |OfType(attempted, DEAD_END)|, |OfType(attempted, TOOL_INVOCATION)|, Cost(attempted), "", false, [])
  }

  function BatchRecordOf(summary: SessionSummary, id: string): Batches.BatchRecord {
    Batches.BatchRecord(id, summary.sessionHash, Batches.Provenance, 3)
  }

  function EventOf(summary: SessionSummary, names: seq<string>, dataSources: seq<Json>): SessionEvent {
    SessionEvent(summary.agentId, summary.sessionId, summary.deadEndCount, names, |set name | name in names|,
                 summary.costUsd, summary.durationMs, dataSources)
  }

  /** The event that a session with this summary and these attempts makes. */
  function EventOfLog(summary: SessionSummary, attempted: seq<CaptureRecord>): SessionEvent {
    EventOf(summary, ToolNames(OfType(attempted, TOOL_INVOCATION)), DataSources(Accesses(attempted)))
  }

  // What ending a session leaves behind: its summary, the batch records queued and the events emitted.

  function FinishedSummary(s: SessionSummary, wired: bool, redis: bool, env: Environment): SessionSummary {
    if wired then s.(batchRecordId := env.batchRecordId, feedbackSent := redis && env.emitSucceeds) else s
  }

  function QueuedRecords(s: SessionSummary, wired: bool, redis: bool, env: Environment): seq<Batches.BatchRecord> {
    if wired && redis && env.enqueueSucceeds then [BatchRecordOf(s, env.batchRecordId)] else []
  }

  function EmittedEvents(s: SessionSummary, attempted: seq<CaptureRecord>, wired: bool, redis: bool, env: Environment): seq<SessionEvent> {
    if wired && redis && env.emitSucceeds then [EventOfLog(s, attempted)] else []
  }

  /** The event's metrics as the behavioural consumer reads them. */
  function MetricsOf(event: SessionEvent): Baselines.SessionMetrics {
    map[Baselines.DeadEndCount := Baselines.Number(event.deadEndCount as real),
        Baselines.ToolInvocations := Baselines.Items(event.toolInvocations),
        Baselines.CostUsd := Baselines.Number(event.costUsd),
        Baselines.DurationMs := Baselines.Number(event.durationMs as real)]
  }

  /** What the baseline extracts from these metrics is what the records add up to. */
  predicate MetricsFold(session: Baselines.SessionMetrics, records: seq<CaptureRecord>, durationMs: int) {
    && Baselines.WellFormed(session)
    && Baselines.MetricOf(session, Baselines.DeadEndCount) == |OfType(records, DEAD_END)| as real
    && Baselines.MetricOf(session, Baselines.ToolInvocations) == |OfType(records, TOOL_INVOCATION)| as real
    && Baselines.MetricOf(session, Baselines.CostUsd) == Cost(records)
    && Baselines.MetricOf(session, Baselines.DurationMs) == durationMs as real
  }

  /** A session's event carries the folds of what it attempted to record, which are those of its record list
      when nothing was dropped from it. */
  lemma FeedbackIsFold(sha: Sha256, canon: Canonical, sessionId: string, agentId: string, attempted: seq<CaptureRecord>,
                       durationMs: int)
    ensures var metrics := MetricsOf(EventOfLog(SummaryOf(sha, canon, sessionId, agentId, attempted, durationMs), attempted));
            && MetricsFold(metrics, attempted, durationMs)
            && (NothingDropped(canon, attempted) ==> MetricsFold(metrics, Stored(canon, attempted), durationMs))
  {
    hide OfType, Cost, Accesses, Stored, NothingDropped, Batches.SessionHash;
    if NothingDropped(canon, attempted) {
      SameProjections(canon, attempted);
    }
  }

  method HashSession(sha: Sha256, sessionId: string, contents: seq<string>) returns (hash: string)
    ensures hash == Batches.SessionHash(sha, sessionId, contents)
  {
    if contents != [] {
      var tree := new MerkleTree(sha, contents);
      hash := tree.GetRoot(contents);
    } else {
      hash := Hex(sha(Utf8("empty-session:" + sessionId)));
    }
  }

  class SessionManager {
    const sha: Sha256
    const sessionId: string
    const agentId: string
    /** Settings are present, so ending runs the pipeline; and so is a Redis client. */
    const wired: bool
    const redis: bool
    const capture: ProvenanceCapture
    var ended: bool

    ghost predicate Valid()
      reads this, capture
    {
      capture.Valid() && capture.sha == sha && (ended <==> capture.finalized)
    }

    constructor (sha: Sha256, canon: Canonical, sessionId: string, agentId: string, wired: bool, redis: bool)
      ensures Valid() && !ended && fresh(capture) && capture.records == capture.attempted == [] && capture.canon == canon
      ensures this.sha == sha && this.sessionId == sessionId && this.agentId == agentId
      ensures this.wired == wired && this.redis == redis
    {
      this.sha, this.sessionId, this.agentId, this.wired, this.redis := sha, sessionId, agentId, wired, redis;
      ended := false;
      capture := new ProvenanceCapture(sha, canon);
    }

    /** Recording goes to the capture until the session has ended. */
    method RecordDeadEnd(description: string, reason: string) returns (r: Result<CaptureRecord>)
      requires Valid()
      modifies capture
      ensures Valid()
      ensures (r, capture.records, capture.attempted)
           == Recording(sha, capture.canon, ended, old(capture.records), old(capture.attempted), DEAD_END,
                        DeadEndData(description, reason, old(capture.deadEndCount) + 1))
    {
      if ended {
        return Failure(RuntimeError);
      }
      r := capture.RecordDeadEnd(description, reason);
    }

    /** Ends the session once. Besides the summary it yields the batch records it queued and the events it
        emitted: at most one of each, and the record list is what it was. */
    method EndSession(env: Environment)
      returns (r: Result<SessionSummary>, queued: seq<Batches.BatchRecord>, emitted: seq<SessionEvent>)
      requires Valid()
      modifies this`ended, capture`finalized
      ensures Valid() && ended && capture.records == old(capture.records) && capture.attempted == old(capture.attempted)
      ensures old(ended) ==> r == Failure(RuntimeError) && queued == [] && emitted == []
      ensures !old(ended) ==>
                var s := SummaryOf(sha, capture.canon, sessionId, agentId, capture.attempted, env.durationMs);
                && r == Success(FinishedSummary(s, wired, redis, env))
                && queued == QueuedRecords(s, wired, redis, env)
                && emitted == EmittedEvents(s, capture.attempted, wired, redis, env)
                && (!wired ==> r == Success(s))
                && (wired ==> r == Success(s.(batchRecordId := env.batchRecordId, feedbackSent := redis && env.emitSucceeds)))
                && queued == (if wired && redis && env.enqueueSucceeds
                              then [Batches.BatchRecord(env.batchRecordId, s.sessionHash, Batches.Provenance, 3)] else [])
                && (if wired && redis && env.emitSucceeds then emitted == [EventOfLog(s, capture.attempted)] else emitted == [])
    {
      hide ShadowOf, Stored, GoodLog, OfType, Accesses, Cost, SumOf, Failures, NothingDropped, Intact, Mismatches,
           Batches.SessionHash, NameOf;
      queued, emitted := [], [];
      if ended {
        return Failure(RuntimeError), queued, emitted;
      }
      ended := true;
      capture.Finalize();
      capture.Agreement();
      IntactHasNoMismatch(sha, capture.canon, capture.records);
      var verified := VerifyIntegrity(sha, capture.canon, capture.records);
      var errors := verified.value;
      var sessionHash := HashSession(sha, sessionId, HashesOf(capture.records));
      var names := ToolNames(capture.toolInvocations);
      var summary := SessionSummary(sessionId, agentId, sessionHash, |capture.records|, env.durationMs, capture.deadEndCount,
                                    |names|, capture.costUsd, "", false, errors);
      assert summary == SummaryOf(sha, capture.canon, sessionId, agentId, capture.attempted, env.durationMs);
      if wired {
        var batchRecord := Batches.BatchRecord(env.batchRecordId, summary.sessionHash, Batches.Provenance, 3);
        summary := summary.(batchRecordId := batchRecord.id);
        if redis && env.enqueueSucceeds {
          queued := queued + [batchRecord];
        }
        if redis && env.emitSucceeds {
          emitted := emitted + [EventOf(summary, names, DataSources(capture.dataAccessPatterns))];
          summary := summary.(feedbackSent := true);
        }
      }
      r := Success(summary);
    }
  }
}
