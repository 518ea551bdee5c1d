/** Runs of the session service with interleaved calls: ending a session waits on storage and Redis, and
    meanwhile other sessions start, record and end. Session ids are unique. */
module SessionRuns {
  import opened Merkle
  import opened Records
  import opened Session
  import opened Artifacts
  import Batches

  /** A session's records: those attempted, of which the record list holds what serialises. */
  datatype Live = Live(agentId: string, attempted: seq<CaptureRecord>)

  /** How far the pipeline of an ending session has come. */
  datatype Stage = Hashed | Queued | Emitted

  datatype Ending = Ending(summary: SessionSummary, stage: Stage)

  datatype QueueEntry = QueueEntry(sessionId: string, record: Batches.BatchRecord)

  datatype State = State(
    started: set<string>,
    active: map<string, Live>,
    ending: map<string, Ending>,
    completed: map<string, SessionSummary>,
    /** The session as it was when it was finalised. */
    finals: map<string, Live>,
    queue: seq<QueueEntry>,
    stream: seq<SessionEvent>)

  datatype Step =
    | Start(id: string, agentId: string)
    | Record(id: string, record: CaptureRecord)
    | BeginEnd(id: string, durationMs: int)
    | Enqueue(id: string, recordId: string, succeeds: bool)
    | Emit(id: string, succeeds: bool)
    | FinishEnd(id: string)

  const INIT := State({}, map[], map[], map[], map[], [], [])

  predicate Enabled(s: State, step: Step) {
    match step
    case Start(id, _) => id !in s.started
    case Record(_, _) => true
    case BeginEnd(id, _) => id in s.active
    case Enqueue(id, _, _) => id in s.ending && s.ending[id].stage == Hashed
    case Emit(id, _) => id in s.ending && s.ending[id].stage == Queued
    case FinishEnd(id) => id in s.ending && s.ending[id].stage == Emitted
  }

  /** A record reaches an active session; anyone else, even the holder of an ending session, gets an error. */
  function Apply(sha: Sha256, canon: Canonical, s: State, step: Step): State
    requires Enabled(s, step) && s.ending.Keys <= s.finals.Keys
  {
    match step
    case Start(id, agentId) =>
      s.(started := s.started + {id}, active := s.active[id := Live(agentId, [])])
    case Record(id, record) =>
      if id in s.active then s.(active := s.active[id := s.active[id].(attempted := s.active[id].attempted + [record])]) else s
    case BeginEnd(id, durationMs) =>
      var live := s.active[id];
      s.(active := s.active - {id},
         ending := s.ending[id := Ending(SummaryOf(sha, canon, id, live.agentId, live.attempted, durationMs), Hashed)],
         finals := s.finals[id := live])
    case Enqueue(id, recordId, succeeds) =>
      var summary := s.ending[id].summary;
      s.(ending := s.ending[id := Ending(summary.(batchRecordId := recordId), Queued)],
         queue := if succeeds then s.queue + [QueueEntry(id, BatchRecordOf(summary, recordId))] else s.queue)
    case Emit(id, succeeds) =>
      var summary := s.ending[id].summary;
      s.(ending := s.ending[id := Ending(summary.(feedbackSent := succeeds), Emitted)],
         stream := if succeeds then s.stream + [EventOfLog(summary, s.finals[id].attempted)] else s.stream)
    case FinishEnd(id) =>
      s.(ending := s.ending - {id}, completed := s.completed[id := s.ending[id].summary])
  }

  // ----- The invariant -----

  function QueueCount(queue: seq<QueueEntry>, id: string): nat {
    if queue == [] then 0
    else QueueCount(queue[..|queue| - 1], id) + if queue[|queue| - 1].sessionId == id then 1 else 0
  }

  function EventCount(stream: seq<SessionEvent>, id: string): nat {
    if stream == [] then 0
    else EventCount(stream[..|stream| - 1], id) + if stream[|stream| - 1].sessionId == id then 1 else 0
  }

  /** The started sessions are the disjoint union of the active, the ending and the completed ones. */
  predicate Partitioned(s: State) {
    && s.started == s.active.Keys + s.ending.Keys + s.completed.Keys
    && s.active.Keys !! s.ending.Keys !! s.completed.Keys
    && s.finals.Keys == s.ending.Keys + s.completed.Keys
  }

  /** 1 once the session is past queueing its batch record, or past emitting its event. */
  function Passed(s: State, id: string, emitting: bool): nat {
    if id in s.completed then 1
    else if id !in s.ending then 0
    else if s.ending[id].stage == Emitted || (s.ending[id].stage == Queued && !emitting) then 1 else 0
  }

  /** The summary of a session that is ending or completed. */
  function Ended(s: State, id: string): SessionSummary
    requires Partitioned(s) && id in s.finals
  {
    if id in s.completed then s.completed[id] else s.ending[id].summary
  }

  /** A summary that is still what the finalised log determines. */
  ghost predicate SummaryFits(sha: Sha256, canon: Canonical, id: string, final: Live, summary: SessionSummary) {
    exists durationMs ::
      summary.(batchRecordId := "", feedbackSent := false) == SummaryOf(sha, canon, id, final.agentId, final.attempted, durationMs)
  }

  ghost predicate SummariesFit(sha: Sha256, canon: Canonical, s: State)
    requires Partitioned(s)
  {
    && (forall id :: id in s.ending ==> SummaryFits(sha, canon, id, s.finals[id], s.ending[id].summary))
    && (forall id :: id in s.completed ==> SummaryFits(sha, canon, id, s.finals[id], s.completed[id]))
  }

  /** The entry carries the hash of the final log, and its id is the one the session's summary gives. */
  predicate EntryFits(sha: Sha256, canon: Canonical, s: State, entry: QueueEntry)
    requires Partitioned(s)
  {
    && entry.sessionId in s.finals
    && Passed(s, entry.sessionId, false) == 1
    && entry.record.id == Ended(s, entry.sessionId).batchRecordId
    && entry.record.hash == Batches.SessionHash(sha, entry.sessionId, HashesOf(Stored(canon, s.finals[entry.sessionId].attempted)))
    && entry.record.recordType == Batches.Provenance && entry.record.layer == 3
  }

  /** The event carries the session's own summary and the final log. */
  predicate EventFits(s: State, event: SessionEvent)
    requires Partitioned(s)
  {
    && event.sessionId in s.finals
    && Passed(s, event.sessionId, true) == 1
    && event == EventOfLog(Ended(s, event.sessionId), s.finals[event.sessionId].attempted)
  }

  /** Queued hashes and emitted metrics come from finalised logs. */
  ghost predicate OutputsFit(sha: Sha256, canon: Canonical, s: State)
    requires Partitioned(s)
  {
    && (forall i :: 0 <= i < |s.queue| ==> EntryFits(sha, canon, s, s.queue[i]))
    && (forall i :: 0 <= i < |s.stream| ==> EventFits(s, s.stream[i]))
  }

  /** At most one batch record per session, and none before its turn. */
  ghost predicate QueuedOnce(s: State) {
    forall id: string :: QueueCount(s.queue, id) <= Passed(s, id, false)
  }

  function EventsDue(s: State, id: string): nat
    requires Partitioned(s)
  {
    if Passed(s, id, true) == 1 && Ended(s, id).feedbackSent then 1 else 0
  }

  /** One event exactly for the sessions that are past emitting and whose summary says it was sent. */
  ghost predicate SentOnce(s: State)
    requires Partitioned(s)
  {
    forall id: string :: EventCount(s.stream, id) == EventsDue(s, id)
  }

  ghost predicate Invariant(sha: Sha256, canon: Canonical, s: State) {
    Partitioned(s) && SummariesFit(sha, canon, s) && OutputsFit(sha, canon, s) && QueuedOnce(s) && SentOnce(s)
  }

  lemma StepPartitions(sha: Sha256, canon: Canonical, s: State, step: Step)
    requires Partitioned(s) && Enabled(s, step)
    ensures Partitioned(Apply(sha, canon, s, step))
    ensures forall id :: id in s.finals ==> id in Apply(sha, canon, s, step).finals && Apply(sha, canon, s, step).finals[id] == s.finals[id]
  {
    hide SummaryOf, EventOfLog, BatchRecordOf;
  }

  lemma FreshSummaryFits(sha: Sha256, canon: Canonical, id: string, live: Live, durationMs: int)
    ensures SummaryFits(sha, canon, id, live, SummaryOf(sha, canon, id, live.agentId, live.attempted, durationMs))
  {
    var summary := SummaryOf(sha, canon, id, live.agentId, live.attempted, durationMs);
    assert summary.(batchRecordId := "", feedbackSent := false) == summary;
  }

  lemma StampedSummaryFits(sha: Sha256, canon: Canonical, id: string, final: Live, summary: SessionSummary, recordId: string, sent: bool)
    requires SummaryFits(sha, canon, id, final, summary)
    ensures SummaryFits(sha, canon, id, final, summary.(batchRecordId := recordId))
    ensures SummaryFits(sha, canon, id, final, summary.(feedbackSent := sent))
  {
    hide SummaryOf;
    var durationMs :| summary.(batchRecordId := "", feedbackSent := false)
      == SummaryOf(sha, canon, id, final.agentId, final.attempted, durationMs);
  }

  lemma StepSummaries(sha: Sha256, canon: Canonical, s: State, step: Step)
    requires Partitioned(s) && SummariesFit(sha, canon, s) && Enabled(s, step)
    ensures Partitioned(Apply(sha, canon, s, step)) && SummariesFit(sha, canon, Apply(sha, canon, s, step))
  {
    hide SummaryOf, EventOfLog, BatchRecordOf, SummaryFits;
    StepPartitions(sha, canon, s, step);
    if step.BeginEnd? {
      FreshSummaryFits(sha, canon, step.id, s.active[step.id], step.durationMs);
    } else if step.Enqueue? {
      StampedSummaryFits(sha, canon, step.id, s.finals[step.id], s.ending[step.id].summary, step.recordId, false);
    } else if step.Emit? {
      StampedSummaryFits(sha, canon, step.id, s.finals[step.id], s.ending[step.id].summary, "", step.succeeds);
    }
  }

  lemma FittingOutputs(sha: Sha256, canon: Canonical, id: string, final: Live, summary: SessionSummary, recordId: string)
    requires SummaryFits(sha, canon, id, final, summary)
    ensures BatchRecordOf(summary, recordId).hash == Batches.SessionHash(sha, id, HashesOf(Stored(canon, final.attempted)))
    ensures BatchRecordOf(summary, recordId).id == recordId && BatchRecordOf(summary, recordId).recordType == Batches.Provenance
    ensures BatchRecordOf(summary, recordId).layer == 3
    ensures EventOfLog(summary, final.attempted).sessionId == id
    ensures forall sent :: EventOfLog(summary.(feedbackSent := sent), final.attempted) == EventOfLog(summary, final.attempted)
  {
  }

  /** What a later step may still change of an ended session. */
  predicate KeepsEnded(s: State, t: State, id: string)
    requires Partitioned(s) && Partitioned(t) && id in s.finals && id in t.finals
  {
    && (Passed(s, id, false) == 1 ==> Passed(t, id, false) == 1 && Ended(t, id).batchRecordId == Ended(s, id).batchRecordId)
    && (Passed(s, id, true) == 1 ==> Passed(t, id, true) == 1 && Ended(t, id) == Ended(s, id))
  }

  lemma FinalsEnded(s: State, id: string)
    requires Partitioned(s) && id in s.finals
    ensures id !in s.active && (id in s.ending <==> id !in s.completed)
  {
  }

  lemma StepKeepsEnded(sha: Sha256, canon: Canonical, s: State, step: Step, id: string)
    requires Partitioned(s) && Enabled(s, step) && id in s.finals
    requires Partitioned(Apply(sha, canon, s, step)) && id in Apply(sha, canon, s, step).finals
    ensures KeepsEnded(s, Apply(sha, canon, s, step), id)
  {
    hide SummaryOf, EventOfLog, BatchRecordOf, Partitioned;
    FinalsEnded(s, id);
  }

  /** Outputs that fit go on fitting, because final logs stay. */
  lemma OutputsStillFit(sha: Sha256, canon: Canonical, s: State, t: State)
    requires Partitioned(s) && Partitioned(t) && OutputsFit(sha, canon, s)
    requires forall id :: id in s.finals ==> id in t.finals && t.finals[id] == s.finals[id]
    requires forall id :: id in s.finals ==> KeepsEnded(s, t, id)
    ensures forall i :: 0 <= i < |s.queue| ==> EntryFits(sha, canon, t, s.queue[i])
    ensures forall i :: 0 <= i < |s.stream| ==> EventFits(t, s.stream[i])
  {
    hide SummaryFits, EventOfLog, Batches.SessionHash;
    forall i | 0 <= i < |s.queue|
      ensures EntryFits(sha, canon, t, s.queue[i])
    {
      assert EntryFits(sha, canon, s, s.queue[i]);
    }
    forall i | 0 <= i < |s.stream|
      ensures EventFits(t, s.stream[i])
    {
      assert EventFits(s, s.stream[i]);
    }
  }

  lemma StepOutputs(sha: Sha256, canon: Canonical, s: State, step: Step)
    requires Partitioned(s) && SummariesFit(sha, canon, s) && OutputsFit(sha, canon, s) && Enabled(s, step)
    ensures Partitioned(Apply(sha, canon, s, step)) && OutputsFit(sha, canon, Apply(sha, canon, s, step))
  {
    hide SummaryFits, EventOfLog, BatchRecordOf, Batches.SessionHash, SummaryOf;
    StepPartitions(sha, canon, s, step);
    var t := Apply(sha, canon, s, step);
    forall id | id in s.finals
      ensures KeepsEnded(s, t, id)
    {
      StepKeepsEnded(sha, canon, s, step, id);
    }
    OutputsStillFit(sha, canon, s, t);
    if step.Enqueue? && step.succeeds {
      FittingOutputs(sha, canon, step.id, s.finals[step.id], s.ending[step.id].summary, step.recordId);
      assert EntryFits(sha, canon, t, t.queue[|s.queue|]);
    } else if step.Emit? && step.succeeds {
      FittingOutputs(sha, canon, step.id, s.finals[step.id], s.ending[step.id].summary, "");
      assert EventFits(t, t.stream[|s.stream|]);
    } else {
      assert t.queue == s.queue && t.stream == s.stream;
    }
  }

  lemma CountAppend(queue: seq<QueueEntry>, entry: QueueEntry, id: string)
    ensures QueueCount(queue + [entry], id) == QueueCount(queue, id) + if entry.sessionId == id then 1 else 0
  {
    assert (queue + [entry])[..|queue|] == queue;
  }

  lemma EventAppend(stream: seq<SessionEvent>, event: SessionEvent, id: string)
    ensures EventCount(stream + [event], id) == EventCount(stream, id) + if event.sessionId == id then 1 else 0
  {
    assert (stream + [event])[..|stream|] == stream;
  }

  predicate Succeeds(step: Step, id: string, emitting: bool) {
    match step
    case Enqueue(i, _, succeeds) => i == id && succeeds && !emitting
    case Emit(i, succeeds) => i == id && succeeds && emitting
    case _ => false
  }

  lemma StepOutputsCount(sha: Sha256, canon: Canonical, s: State, step: Step, id: string)
    requires Partitioned(s) && SummariesFit(sha, canon, s) && Enabled(s, step)
    ensures QueueCount(Apply(sha, canon, s, step).queue, id)
         == QueueCount(s.queue, id) + if Succeeds(step, id, false) then 1 else 0
    ensures EventCount(Apply(sha, canon, s, step).stream, id)
         == EventCount(s.stream, id) + if Succeeds(step, id, true) then 1 else 0
  {
    hide SummaryFits, EventOfLog, BatchRecordOf, SummaryOf, QueueCount, EventCount;
    var next := Apply(sha, canon, s, step);
    if step.Enqueue? && step.succeeds {
      CountAppend(s.queue, next.queue[|s.queue|], id);
    } else if step.Emit? && step.succeeds {
      FittingOutputs(sha, canon, step.id, s.finals[step.id], s.ending[step.id].summary, "");
      EventAppend(s.stream, next.stream[|s.stream|], id);
    }
  }

  lemma Places(s: State, id: string)
    requires Partitioned(s)
    ensures id in s.active || id !in s.started ==> id !in s.ending && id !in s.completed
    ensures id in s.ending ==> id !in s.completed && id in s.finals
    ensures id in s.completed ==> id in s.finals
    ensures s.ending.Keys <= s.finals.Keys
  {
  }

  /** The step that succeeds is the one that makes an output due. */
  lemma StepMakesDue(sha: Sha256, canon: Canonical, s: State, step: Step, id: string)
    requires Partitioned(s) && Enabled(s, step) && Partitioned(Apply(sha, canon, s, step))
    ensures Passed(s, id, false) + (if Succeeds(step, id, false) then 1 else 0) <= Passed(Apply(sha, canon, s, step), id, false)
    ensures EventsDue(s, id) + (if Succeeds(step, id, true) then 1 else 0) == EventsDue(Apply(sha, canon, s, step), id)
  {
    hide Partitioned, SummaryOf, EventOfLog, BatchRecordOf;
    Places(s, step.id);
    Places(s, id);
  }

  lemma StepQueues(sha: Sha256, canon: Canonical, s: State, step: Step)
    requires Partitioned(s) && SummariesFit(sha, canon, s) && QueuedOnce(s) && Enabled(s, step)
    ensures QueuedOnce(Apply(sha, canon, s, step))
  {
    hide Apply, QueueCount, EventCount, Passed, EventsDue, SummariesFit;
    StepPartitions(sha, canon, s, step);
    forall id: string
      ensures QueueCount(Apply(sha, canon, s, step).queue, id) <= Passed(Apply(sha, canon, s, step), id, false)
    {
      StepOutputsCount(sha, canon, s, step, id);
      StepMakesDue(sha, canon, s, step, id);
    }
  }

  lemma StepSends(sha: Sha256, canon: Canonical, s: State, step: Step)
    requires Partitioned(s) && SummariesFit(sha, canon, s) && SentOnce(s) && Enabled(s, step)
    ensures Partitioned(Apply(sha, canon, s, step)) && SentOnce(Apply(sha, canon, s, step))
  {
    hide Apply, QueueCount, EventCount, Passed, EventsDue, SummariesFit;
    StepPartitions(sha, canon, s, step);
    forall id: string
      ensures EventCount(Apply(sha, canon, s, step).stream, id) == EventsDue(Apply(sha, canon, s, step), id)
    {
      StepOutputsCount(sha, canon, s, step, id);
      StepMakesDue(sha, canon, s, step, id);
    }
  }

  // ----- Every run -----

  predicate Run(sha: Sha256, canon: Canonical, s: State, steps: seq<Step>, t: State)
    decreases |steps|
  {
    if steps == [] then s == t
    else && s.ending.Keys <= s.finals.Keys && Enabled(s, steps[0])
         && Run(sha, canon, Apply(sha, canon, s, steps[0]), steps[1..], t)
  }

  lemma StepKeepsInvariant(sha: Sha256, canon: Canonical, s: State, step: Step)
    requires Invariant(sha, canon, s) && Enabled(s, step)
    ensures Invariant(sha, canon, Apply(sha, canon, s, step))
  {
    hide SummariesFit, OutputsFit, QueuedOnce, SentOnce, Apply;
    StepSummaries(sha, canon, s, step);
    StepOutputs(sha, canon, s, step);
    StepQueues(sha, canon, s, step);
    StepSends(sha, canon, s, step);
  }

  lemma {:induction false} RunKeepsInvariant(sha: Sha256, canon: Canonical, s: State, steps: seq<Step>, t: State)
    requires Invariant(sha, canon, s) && Run(sha, canon, s, steps, t)
    ensures Invariant(sha, canon, t)
    decreases |steps|
  {
    hide Invariant, Apply;
    if steps != [] {
      StepKeepsInvariant(sha, canon, s, steps[0]);
      RunKeepsInvariant(sha, canon, Apply(sha, canon, s, steps[0]), steps[1..], t);
    }
  }

  /** In every run from the start, whatever interleaves: the started sessions are partitioned; every summary,
      queued hash and emitted event is determined by the log at finalisation; no session has two batch records
      or two events; and a completed session has an event just when its summary says so. */
  lemma EveryRun(sha: Sha256, canon: Canonical, steps: seq<Step>, t: State)
    requires Run(sha, canon, INIT, steps, t)
    ensures Invariant(sha, canon, t)
    ensures forall id: string :: QueueCount(t.queue, id) <= 1 && EventCount(t.stream, id) <= 1
    ensures forall id :: id in t.completed ==> EventCount(t.stream, id) == if t.completed[id].feedbackSent then 1 else 0
  {
    hide SummaryFits, EntryFits, EventFits;
    RunKeepsInvariant(sha, canon, INIT, steps, t);
  }

  function Successes(steps: seq<Step>, id: string, emitting: bool): nat {
    if steps == [] then 0
    else (if Succeeds(steps[0], id, emitting) then 1 else 0) + Successes(steps[1..], id, emitting)
  }

  /** A run queues a batch record and emits an event for exactly the commands that succeeded. */
  lemma {:induction false} OutputsAreSuccesses(sha: Sha256, canon: Canonical, s: State, steps: seq<Step>, t: State, id: string)
    requires Invariant(sha, canon, s) && Run(sha, canon, s, steps, t)
    ensures QueueCount(t.queue, id) == QueueCount(s.queue, id) + Successes(steps, id, false)
    ensures EventCount(t.stream, id) == EventCount(s.stream, id) + Successes(steps, id, true)
    decreases |steps|
  {
    hide SummariesFit, OutputsFit, QueuedOnce, SentOnce, Apply, QueueCount, EventCount;
    if steps != [] {
      StepKeepsInvariant(sha, canon, s, steps[0]);
      StepOutputsCount(sha, canon, s, steps[0], id);
      OutputsAreSuccesses(sha, canon, Apply(sha, canon, s, steps[0]), steps[1..], t, id);
    }
  }

  /** Once finalised, a session's record list never changes and the session cannot be ended again. */
  lemma {:induction false} FinalIsFinal(sha: Sha256, canon: Canonical, s: State, steps: seq<Step>, t: State, id: string)
    requires Partitioned(s) && Run(sha, canon, s, steps, t) && id in s.finals
    ensures id in t.finals && t.finals[id] == s.finals[id]
    ensures forall i :: 0 <= i < |steps| ==> !(steps[i].BeginEnd? && steps[i].id == id)
    decreases |steps|
  {
    if steps != [] {
      StepPartitions(sha, canon, s, steps[0]);
      FinalIsFinal(sha, canon, Apply(sha, canon, s, steps[0]), steps[1..], t, id);
    }
  }

  /** So in every run each session is ended at most once. */
  lemma {:induction false} EndsOnce(sha: Sha256, canon: Canonical, s: State, steps: seq<Step>, t: State, i: nat, j: nat)
    requires Partitioned(s) && Run(sha, canon, s, steps, t)
    requires i < j < |steps| && steps[i].BeginEnd? && steps[j].BeginEnd?
    ensures steps[i].id != steps[j].id
    decreases |steps|
  {
    var next := Apply(sha, canon, s, steps[0]);
    StepPartitions(sha, canon, s, steps[0]);
    if i == 0 {
      FinalIsFinal(sha, canon, next, steps[1..], t, steps[0].id);
      assert steps[j] == steps[1..][j - 1];
    } else {
      EndsOnce(sha, canon, next, steps[1..], t, i - 1, j - 1);
    }
  }

  lemma EventOfFitting(sha: Sha256, canon: Canonical, id: string, final: Live, summary: SessionSummary)
    requires SummaryFits(sha, canon, id, final, summary)
    ensures var event := EventOfLog(summary, final.attempted);
            && event.agentId == final.agentId
            && MetricsFold(MetricsOf(event), final.attempted, summary.durationMs)
            && (NothingDropped(canon, final.attempted)
                ==> MetricsFold(MetricsOf(event), Stored(canon, final.attempted), summary.durationMs))
  {
    hide MetricsFold, NothingDropped;
    FeedbackIsFold(sha, canon, id, final.agentId, final.attempted, summary.durationMs);
    assert EventOfLog(SummaryOf(sha, canon, id, final.agentId, final.attempted, summary.durationMs), final.attempted)
        == EventOfLog(summary, final.attempted);
  }

  /** In every run, what the behavioural consumer reads from any emitted event is what the final log of its
      session adds up to, with the duration that the session's own summary gives; and it is what the record
      list adds up to when nothing was dropped from it. */
  lemma EveryEventFolds(sha: Sha256, canon: Canonical, steps: seq<Step>, t: State, i: nat)
    requires Run(sha, canon, INIT, steps, t) && i < |t.stream|
    ensures Partitioned(t) && t.stream[i].sessionId in t.finals
    ensures var final := t.finals[t.stream[i].sessionId];
            var durationMs := Ended(t, t.stream[i].sessionId).durationMs;
            && t.stream[i].agentId == final.agentId
            && MetricsFold(MetricsOf(t.stream[i]), final.attempted, durationMs)
            && (NothingDropped(canon, final.attempted)
                ==> MetricsFold(MetricsOf(t.stream[i]), Stored(canon, final.attempted), durationMs))
  {
    hide SummaryFits, EntryFits, QueuedOnce, SentOnce, EventOf, MetricsFold, NothingDropped;
    EveryRun(sha, canon, steps, t);
    assert EventFits(t, t.stream[i]);
    var id := t.stream[i].sessionId;
    EventOfFitting(sha, canon, id, t.finals[id], Ended(t, id));
  }

  // ----- What a run records of one session -----

  datatype Progress = NotStarted | Open(live: Live) | Closed(live: Live)

  /** Read off the steps alone: starting opens an empty record, recording appends while it is open, the
      beginning of the end closes it. */
  function Advance(p: Progress, step: Step, id: string): Progress {
    match step
    case Start(i, agentId) => if i == id then Open(Live(agentId, [])) else p
    case Record(i, record) => if i == id && p.Open? then Open(Live(p.live.agentId, p.live.attempted + [record])) else p
    case BeginEnd(i, _) => if i == id && p.Open? then Closed(p.live) else p
    case _ => p
  }

  function ProgressAfter(p: Progress, steps: seq<Step>, id: string): Progress
    decreases |steps|
  {
    if steps == [] then p else ProgressAfter(Advance(p, steps[0], id), steps[1..], id)
  }

  predicate Reflects(s: State, id: string, p: Progress) {
    match p
    case NotStarted => id !in s.started
    case Open(live) => id in s.active && s.active[id] == live
    case Closed(live) => id !in s.active && id in s.finals && s.finals[id] == live
  }

  lemma StepReflects(sha: Sha256, canon: Canonical, s: State, step: Step, id: string, p: Progress)
    requires Partitioned(s) && Enabled(s, step) && Reflects(s, id, p)
    ensures s.ending.Keys <= s.finals.Keys && Reflects(Apply(sha, canon, s, step), id, Advance(p, step, id))
  {
    hide SummaryOf, EventOfLog, BatchRecordOf;
    Places(s, id);
  }

  /** In every run an active session holds exactly the records made of it since it started, in order, and a
      finalised one those made before its end began, for the agent that started it. */
  lemma {:induction false} RunRecords(sha: Sha256, canon: Canonical, s: State, steps: seq<Step>, t: State, id: string, p: Progress)
    requires Partitioned(s) && Run(sha, canon, s, steps, t) && Reflects(s, id, p)
    ensures Reflects(t, id, ProgressAfter(p, steps, id))
    decreases |steps|
  {
    hide Apply, Reflects, Advance;
    if steps != [] {
      StepPartitions(sha, canon, s, steps[0]);
      StepReflects(sha, canon, s, steps[0], id, p);
      RunRecords(sha, canon, Apply(sha, canon, s, steps[0]), steps[1..], t, id, Advance(p, steps[0], id));
    }
  }

  // ----- A call that nothing interrupts -----

  /** The steps of one call of `end_session`. */
  function EndSteps(id: string, redis: bool, env: Environment): seq<Step> {
    [BeginEnd(id, env.durationMs), Enqueue(id, env.batchRecordId, redis && env.enqueueSucceeds),
     Emit(id, redis && env.emitSucceeds), FinishEnd(id)]
  }

  function Entries(id: string, records: seq<Batches.BatchRecord>): seq<QueueEntry> {
    seq(|records|, i requires 0 <= i < |records| => QueueEntry(id, records[i]))
  }

  /** The state such a call leaves. */
  function AfterEnd(sha: Sha256, canon: Canonical, s: State, id: string, redis: bool, env: Environment): State
    requires id in s.active
  {
    var live := s.active[id];
    var summary := SummaryOf(sha, canon, id, live.agentId, live.attempted, env.durationMs);
    s.(active := s.active - {id},
       completed := s.completed[id := FinishedSummary(summary, true, redis, env)],
       finals := s.finals[id := live],
       queue := s.queue + Entries(id, QueuedRecords(summary, true, redis, env)),
       stream := s.stream + EmittedEvents(summary, live.attempted, true, redis, env))
  }

  lemma RunStep(sha: Sha256, canon: Canonical, s: State, step: Step, rest: seq<Step>, t: State)
    requires s.ending.Keys <= s.finals.Keys && Enabled(s, step) && Run(sha, canon, Apply(sha, canon, s, step), rest, t)
    ensures Run(sha, canon, s, [step] + rest, t)
  {
    assert ([step] + rest)[1..] == rest;
  }

  lemma StampedEvent(summary: SessionSummary, attempted: seq<CaptureRecord>, recordId: string)
    ensures EventOfLog(summary.(batchRecordId := recordId), attempted) == EventOfLog(summary, attempted)
  {
  }

  lemma NoSteps(sha: Sha256, canon: Canonical, s: State)
    ensures Run(sha, canon, s, [], s)
  {
  }

  /** The state between queueing and emitting. */
  function Midway(sha: Sha256, canon: Canonical, s: State, id: string, redis: bool, env: Environment): State
    requires id in s.active
  {
    var live := s.active[id];
    var summary := SummaryOf(sha, canon, id, live.agentId, live.attempted, env.durationMs);
    s.(active := s.active - {id},
       ending := s.ending[id := Ending(summary.(batchRecordId := env.batchRecordId), Queued)],
       finals := s.finals[id := live],
       queue := s.queue + Entries(id, QueuedRecords(summary, true, redis, env)))
  }

  lemma FirstHalf(sha: Sha256, canon: Canonical, s: State, id: string, redis: bool, env: Environment, rest: seq<Step>, t: State)
    requires Partitioned(s) && id in s.active && Run(sha, canon, Midway(sha, canon, s, id, redis, env), rest, t)
    ensures Run(sha, canon, s, [EndSteps(id, redis, env)[0]] + ([EndSteps(id, redis, env)[1]] + rest), t)
  {
    hide SummaryOf, Stored, Run, Partitioned, EventOfLog;
    Places(s, id);
    var steps := EndSteps(id, redis, env);
    var begun := Apply(sha, canon, s, steps[0]);
    assert Apply(sha, canon, begun, steps[1]) == Midway(sha, canon, s, id, redis, env);
    RunStep(sha, canon, begun, steps[1], rest, t);
    RunStep(sha, canon, s, steps[0], [steps[1]] + rest, t);
  }

  lemma SecondHalf(sha: Sha256, canon: Canonical, s: State, id: string, redis: bool, env: Environment)
    requires Partitioned(s) && id in s.active
    ensures Run(sha, canon, Midway(sha, canon, s, id, redis, env), EndSteps(id, redis, env)[2..],
                AfterEnd(sha, canon, s, id, redis, env))
  {
    hide SummaryOf, Stored, Run, Partitioned, EventOfLog, QueuedRecords, Entries;
    Places(s, id);
    var steps, end, midway := EndSteps(id, redis, env), AfterEnd(sha, canon, s, id, redis, env), Midway(sha, canon, s, id, redis, env);
    var summary := SummaryOf(sha, canon, id, s.active[id].agentId, s.active[id].attempted, env.durationMs);
    StampedEvent(summary, s.active[id].attempted, env.batchRecordId);
    var emitted := Apply(sha, canon, midway, steps[2]);
    assert Apply(sha, canon, emitted, steps[3]) == end;
    NoSteps(sha, canon, end);
    RunStep(sha, canon, emitted, steps[3], [], end);
    RunStep(sha, canon, midway, steps[2], [steps[3]] + [], end);
    assert steps[2..] == [steps[2]] + ([steps[3]] + []);
  }

  /** A call of `end_session` that nothing interrupts is a run of the protocol, begin, queue, emit, finish,
      with the summary, the batch records and the events that the service's `EndSession` promises. */
  lemma EndSessionRun(sha: Sha256, canon: Canonical, s: State, id: string, redis: bool, env: Environment)
    requires Partitioned(s) && id in s.active
    ensures var (live, t) := (s.active[id], AfterEnd(sha, canon, s, id, redis, env));
            var summary := SummaryOf(sha, canon, id, live.agentId, live.attempted, env.durationMs);
            && Run(sha, canon, s, EndSteps(id, redis, env), t)
            && t.active == s.active - {id} && t.completed == s.completed[id := FinishedSummary(summary, true, redis, env)]
            && t.queue == s.queue + Entries(id, QueuedRecords(summary, true, redis, env))
            && t.stream == s.stream + EmittedEvents(summary, live.attempted, true, redis, env)
  {
    hide Run, Midway, Partitioned, SummaryOf, FinishedSummary, QueuedRecords, EmittedEvents, Entries;
    var steps := EndSteps(id, redis, env);
    SecondHalf(sha, canon, s, id, redis, env);
    FirstHalf(sha, canon, s, id, redis, env, steps[2..], AfterEnd(sha, canon, s, id, redis, env));
    assert steps == [steps[0]] + ([steps[1]] + steps[2..]);
  }
}
