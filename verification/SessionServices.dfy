/** The session service: which sessions are active, which are completed, and what ending one does.
    `SessionRuns` interleaves its calls. */
module SessionServices {
  import opened Results
  import opened Merkle
  import opened Records
  import opened Capture
  import opened Session
  import Batches

  class SessionService {
    const sha: Sha256
    const canon: Canonical
    const redis: bool
    var active: map<string, SessionManager>
    var completed: map<string, SessionSummary>

    /** Sessions do not share captures, active ones have not ended, and none is both active and completed. */
    ghost predicate Valid()
      reads this, active.Values, set id | id in active :: active[id].capture
    {
      && (forall id :: id in active ==>
            && active[id].Valid() && !active[id].ended && active[id].capture.canon == canon
            && active[id].sessionId == id && active[id].sha == sha && active[id].wired && active[id].redis == redis)
      && (forall a, b :: a in active && b in active && a != b ==>
            active[a] != active[b] && active[a].capture != active[b].capture)
      && active.Keys !! completed.Keys
    }

    constructor (sha: Sha256, canon: Canonical, redis: bool)
      ensures Valid() && active == map[] && completed == map[]
      ensures this.sha == sha && this.canon == canon && this.redis == redis
    {
      this.sha, this.canon, this.redis := sha, canon, redis;
      active, completed := map[], map[];
    }

    /** The session id is drawn by the caller and has not been used. */
    method StartSession(agentId: string, sessionId: string) returns (sm: SessionManager)
      requires Valid() && sessionId !in active && sessionId !in completed
      modifies this`active
      ensures Valid() && fresh(sm) && fresh(sm.capture)
      ensures active == old(active)[sessionId := sm] && sm.agentId == agentId && sm.capture.records == sm.capture.attempted == []
    {
      hide SessionManager.Valid;
      sm := new SessionManager(sha, canon, sessionId, agentId, true, redis);
      active := active[sessionId := sm];
    }

    method GetSession(sessionId: string) returns (r: Result<SessionManager>)
      ensures r == if sessionId in active then Success(active[sessionId]) else Failure(SessionNotFound)
    {
      if sessionId in active {
        r := Success(active[sessionId]);
      } else {
        r := Failure(SessionNotFound);
      }
    }

    /** Recording finds active sessions only and touches no other session. */
    method RecordDeadEnd(sessionId: string, description: string) returns (r: Result<CaptureRecord>)
      requires Valid()
      modifies if sessionId in active then {active[sessionId].capture} else {}
      ensures Valid()
      ensures sessionId !in active ==> r == Failure(SessionNotFound)
      ensures sessionId in active ==>
                (r, active[sessionId].capture.records, active[sessionId].capture.attempted)
                == Recording(sha, canon, false, old(active[sessionId].capture.records), old(active[sessionId].capture.attempted),
                             DEAD_END, DeadEndData(description, "", old(active[sessionId].capture.deadEndCount) + 1))
    {
      hide SessionManager.Valid, Recording;
      var found := GetSession(sessionId);
      if found.Failure? {
        return Failure(found.error);
      }
      r := found.value.RecordDeadEnd(description, "");
    }

    /** An active session moves to the completed ones with the summary of its own records; a completed one
        and an unknown one raise different errors and change nothing. */
    method EndSession(sessionId: string, env: Environment)
      returns (r: Result<SessionSummary>, queued: seq<Batches.BatchRecord>, emitted: seq<SessionEvent>)
      requires Valid()
      modifies this`active, this`completed
      modifies if sessionId in active then {active[sessionId], active[sessionId].capture} else {}
      ensures Valid()
      ensures sessionId !in old(active) ==>
                && r == Failure(if sessionId in old(completed) then SessionAlreadyEnded else SessionNotFound)
                && active == old(active) && completed == old(completed) && queued == [] && emitted == []
      ensures sessionId in old(active) ==>
                var sm := old(active[sessionId]);
                var attempted := old(active[sessionId].capture.attempted);
                var s := SummaryOf(sha, canon, sessionId, sm.agentId, attempted, env.durationMs);
                && r == Success(FinishedSummary(s, true, redis, env))
                && active == old(active) - {sessionId} && completed == old(completed)[sessionId := r.value]
                && queued == QueuedRecords(s, true, redis, env)
                && emitted == EmittedEvents(s, attempted, true, redis, env)
    {
      hide SummaryOf, FinishedSummary, QueuedRecords, EmittedEvents, EventOfLog, SessionManager.Valid;
      if sessionId !in active {
        if sessionId in completed {
          return Failure(SessionAlreadyEnded), [], [];
        }
        return Failure(SessionNotFound), [], [];
      }
      var sm := active[sessionId];
      active := active - {sessionId};
      r, queued, emitted := sm.EndSession(env);
      completed := completed[sessionId := r.value];
    }
  }
}
