/** The agent service: registration and the three transitions it offers, over the agents table and the
    trust event stream. */
module Kya {
  import opened Results
  import opened Lifecycle

  type Metadata = map<string, string>

  datatype Agent = Agent(id: string, agentType: string, status: AgentStatus, trustTier: nat,
                         humanAuthorizerId: Option<string>, kyaVerifiedAt: Option<int>, metadata: Metadata)

  datatype TrustEvent =
    | AgentRegistered(agentId: string, agentType: string, humanAuthorizerId: Option<string>)
    | AgentRevoked(agentId: string, reason: string, revokedBy: string)

  datatype Db = Db(agents: map<string, Agent>, events: seq<TrustEvent>)

  /** A request with what its surroundings supply: the drawn id, the clock, and whether Redis takes the event. */
  datatype Request =
    | RegisterAgent(id: string, agentType: string, humanAuthorizerId: Option<string>, metadata: Option<Metadata>, published: bool)
    | VerifyAgent(id: string, now: int)
    | SuspendAgent(id: string)
    | RevokeAgent(id: string, reason: string, revokedBy: string, published: bool)

  function EventFor(request: Request): Transition {
    match request
    case RegisterAgent(_, _, _, _, _) => Register
    case VerifyAgent(_, _) => Verify
    case SuspendAgent(_) => Suspend
    case RevokeAgent(_, _, _, _) => Revoke
  }

  function StatusIn(db: Db, id: string): AgentStatus {
    if id in db.agents then db.agents[id].status else UNREGISTERED
  }

  /** Whether the request changes its agent: unlike the machine, the service finds no agent to revoke
      before registration. */
  predicate Effective(db: Db, request: Request) {
    request.RegisterAgent? || (request.id in db.agents && Send(db.agents[request.id].status, EventFor(request)).Success?)
  }

  /** The row of a newly registered agent. */
  function NewAgent(id: string, agentType: string, humanAuthorizerId: Option<string>, metadata: Option<Metadata>): Agent {
    Agent(id, agentType, REGISTERED, 0, humanAuthorizerId, None, if metadata.Some? then metadata.value else map[])
  }

  function Publish(db: Db, event: TrustEvent, published: bool): Db {
    if published then db.(events := db.events + [event]) else db
  }

  /** The table and the stream after a request. */
  function Served(db: Db, request: Request): Db {
    if request.RegisterAgent? then
      var agent := NewAgent(request.id, request.agentType, request.humanAuthorizerId, request.metadata);
      Publish(db.(agents := db.agents[request.id := agent]),
              AgentRegistered(request.id, request.agentType, request.humanAuthorizerId), request.published)
    else if request.id !in db.agents then db
    else
      var agent := db.agents[request.id];
      var next := Send(agent.status, EventFor(request));
      if next.Failure? then db
      else
        var updated := agent.(status := next.value,
                              kyaVerifiedAt := if request.VerifyAgent? then Some(request.now) else agent.kyaVerifiedAt);
        var stored := db.(agents := db.agents[request.id := updated]);
        if request.RevokeAgent? then Publish(stored, AgentRevoked(request.id, request.reason, request.revokedBy), request.published)
        else stored
  }

  class KYAService {
    var agents: map<string, Agent>
    var events: seq<TrustEvent>

    ghost function View(): Db
      reads this
    {
      Db(agents, events)
    }

    constructor ()
      ensures View() == Db(map[], [])
    {
      agents, events := map[], [];
    }

    method Xadd(event: TrustEvent, published: bool) returns (ok: bool)
      modifies this`events
      ensures ok == published && View() == Publish(old(View()), event, published)
    {
      if published {
        events := events + [event];
      }
      ok := published;
    }

    method Register(id: string, agentType: string, humanAuthorizerId: Option<string>, metadata: Option<Metadata>, published: bool)
      returns (r: Result<Agent>)
      requires id !in agents
      modifies this
      ensures View() == Served(old(View()), RegisterAgent(id, agentType, humanAuthorizerId, metadata, published))
      ensures agents == old(agents)[id := Agent(id, agentType, REGISTERED, 0, humanAuthorizerId, None,
                                                if metadata.Some? then metadata.value else map[])]
      ensures events == if published then old(events) + [AgentRegistered(id, agentType, humanAuthorizerId)] else old(events)
      ensures r == if published then Success(agents[id]) else Failure(RedisError)
    {
      var sm := Send(UNREGISTERED, Transition.Register);
      var agent := Agent(id, agentType, REGISTERED, 0, humanAuthorizerId, None, if metadata.Some? then metadata.value else map[]);
      agents := agents[id := agent];
      var ok := Xadd(AgentRegistered(agent.id, agent.agentType, humanAuthorizerId), published);
      r := if ok then Success(agent) else Failure(RedisError);
    }

    /** Finds the agent and asks the machine at its status. */
    method Admit(id: string, event: Transition) returns (r: Result<AgentStatus>)
      ensures r == if id !in agents then Failure(AgentNotFound) else Send(agents[id].status, event)
    {
      if id !in agents {
        return Failure(AgentNotFound);
      }
      r := Send(agents[id].status, event);
    }

    /** Only a registered agent can be verified, and verifying records when. */
    method Verify(id: string, now: int) returns (r: Result<Agent>)
      modifies this`agents
      ensures View() == Served(old(View()), VerifyAgent(id, now))
      ensures r.Success? <==> id in old(agents) && old(agents)[id].status == REGISTERED
      ensures r.Success? ==> r.value == old(agents)[id].(status := VERIFIED, kyaVerifiedAt := Some(now))
      ensures agents == if r.Success? then old(agents)[id := r.value] else old(agents)
      ensures r.Failure? ==> r.error == if id in agents then TransitionNotAllowed else AgentNotFound
    {
      var target := Admit(id, Transition.Verify);
      if target.Failure? {
        return Failure(target.error);
      }
      var updated := agents[id].(status := VERIFIED, kyaVerifiedAt := Some(now));
      agents := agents[id := updated];
      r := Success(updated);
    }

    method Suspend(id: string) returns (r: Result<Agent>)
      modifies this`agents
      ensures View() == Served(old(View()), SuspendAgent(id))
      ensures r.Success? <==> id in old(agents) && OnLadder(old(agents)[id].status)
      ensures r.Success? ==> r.value == old(agents)[id].(status := SUSPENDED)
      ensures agents == if r.Success? then old(agents)[id := r.value] else old(agents)
      ensures r.Failure? ==> r.error == if id in agents then TransitionNotAllowed else AgentNotFound
    {
      var target := Admit(id, Transition.Suspend);
      if target.Failure? {
        return Failure(target.error);
      }
      var updated := agents[id].(status := SUSPENDED);
      agents := agents[id := updated];
      r := Success(updated);
    }

    /** The row is revoked before the event is published, so it stays revoked when publishing fails. */
    method Revoke(id: string, reason: string, revokedBy: string, published: bool) returns (r: Result<Agent>)
      modifies this
      ensures View() == Served(old(View()), RevokeAgent(id, reason, revokedBy, published))
      ensures r.Success? <==> id in old(agents) && old(agents)[id].status != REVOKED && published
      ensures r.Success? ==> r.value == old(agents)[id].(status := REVOKED)
      ensures var revoked := id in old(agents) && old(agents)[id].status != REVOKED;
              && agents == (if revoked then old(agents)[id := old(agents)[id].(status := REVOKED)] else old(agents))
              && events == if revoked && published then old(events) + [AgentRevoked(id, reason, revokedBy)] else old(events)
      ensures r.Failure? ==>
                r.error == if id !in old(agents) then AgentNotFound
                           else if old(agents)[id].status == REVOKED then TransitionNotAllowed else RedisError
    {
      var target := Admit(id, Transition.Revoke);
      if target.Failure? {
        return Failure(target.error);
      }
      var updated := agents[id].(status := REVOKED);
      agents := agents[id := updated];
      var ok := Xadd(AgentRevoked(id, reason, revokedBy), published);
      r := if ok then Success(updated) else Failure(RedisError);
    }
  }

  // ----- Runs of the service -----

  /** Requests one after the other; registration draws an id that is not in the table. */
  predicate Run(db: Db, requests: seq<Request>, end: Db)
    decreases |requests|
  {
    if requests == [] then db == end
    else (requests[0].RegisterAgent? ==> requests[0].id !in db.agents)
         && Run(Served(db, requests[0]), requests[1..], end)
  }

  /** The transitions of one agent that a run carries out. */
  function History(db: Db, requests: seq<Request>, id: string): seq<Transition>
    decreases |requests|
  {
    if requests == [] then []
    else (if requests[0].id == id && Effective(db, requests[0]) then [EventFor(requests[0])] else [])
         + History(Served(db, requests[0]), requests[1..], id)
  }

  /** What the service does to one agent is a trace of the lifecycle machine. */
  lemma {:induction false} HistoryIsTrace(db: Db, requests: seq<Request>, end: Db, id: string)
    requires Run(db, requests, end)
    ensures Trace(StatusIn(db, id), History(db, requests, id), StatusIn(end, id))
    decreases |requests|
  {
    if requests != [] {
      var next := Served(db, requests[0]);
      var rest := History(next, requests[1..], id);
      HistoryIsTrace(next, requests[1..], end, id);
      if requests[0].id == id && Effective(db, requests[0]) {
        assert ([EventFor(requests[0])] + rest)[1..] == rest;
      } else {
        assert [] + rest == rest;
      }
    }
  }

  predicate Offered(event: Transition) {
    event in {Transition.Register, Transition.Verify, Transition.Suspend, Transition.Revoke}
  }

  lemma {:induction false} HistoryIsOffered(db: Db, requests: seq<Request>, id: string)
    ensures forall i :: 0 <= i < |History(db, requests, id)| ==> Offered(History(db, requests, id)[i])
    decreases |requests|
  {
    if requests != [] {
      HistoryIsOffered(Served(db, requests[0]), requests[1..], id);
    }
  }

  /** How many transitions the service can still carry out for an agent. */
  function Rank(status: AgentStatus): nat {
    match status
    case UNREGISTERED => 4
    case REGISTERED => 3
    case VERIFIED => 2
    case ATTESTED => 2
    case ESTABLISHED => 2
    case SUSPENDED => 1
    case REVOKED => 0
  }

  lemma {:induction false} OfferedTraceIsShort(start: AgentStatus, events: seq<Transition>, end: AgentStatus)
    requires Trace(start, events, end) && forall i :: 0 <= i < |events| ==> Offered(events[i])
    ensures |events| + Rank(end) <= Rank(start)
    decreases |events|
  {
    if events != [] {
      OfferedTraceIsShort(Send(start, events[0]).value, events[1..], end);
    }
  }

  /** A registered agent changes status at most three times, however long the run, and a verified one at
      most twice; a revoked one never. */
  lemma StatusChangesBounded(db: Db, requests: seq<Request>, end: Db, id: string)
    requires Run(db, requests, end)
    ensures |History(db, requests, id)| + Rank(StatusIn(end, id)) <= Rank(StatusIn(db, id))
  {
    HistoryIsTrace(db, requests, end, id);
    HistoryIsOffered(db, requests, id);
    OfferedTraceIsShort(StatusIn(db, id), History(db, requests, id), StatusIn(end, id));
  }

  lemma RunStep(db: Db, request: Request, rest: seq<Request>, end: Db)
    requires !request.RegisterAgent? && Effective(db, request) && Run(Served(db, request), rest, end)
    ensures Run(db, [request] + rest, end)
    ensures |History(db, [request] + rest, request.id)| == 1 + |History(Served(db, request), rest, request.id)|
  {
    assert ([request] + rest)[1..] == rest;
  }

  lemma NoRequests(db: Db, id: string)
    ensures Run(db, [], db) && History(db, [], id) == []
  {
  }

  /** The bound is met. */
  lemma ThreeChangesHappen(db: Db, id: string, now: int)
    requires id in db.agents && db.agents[id].status == REGISTERED
    ensures exists requests, end :: Run(db, requests, end) && |History(db, requests, id)| == 3
  {
    hide History, Run;
    var verify, suspend, revoke := VerifyAgent(id, now), SuspendAgent(id), RevokeAgent(id, "", "", true);
    var verified := Served(db, verify);
    var suspended := Served(verified, suspend);
    var revoked := Served(suspended, revoke);
    NoRequests(revoked, id);
    RunStep(suspended, revoke, [], revoked);
    RunStep(verified, suspend, [revoke] + [], revoked);
    RunStep(db, verify, [suspend] + ([revoke] + []), revoked);
  }

  /** Of the ladder, the transitions the service offers reach the two lowest rungs, each in one way. */
  lemma OfferedRungs(events: seq<Transition>, end: AgentStatus, rung: AgentStatus)
    requires Trace(UNREGISTERED, events, end) && OnLadder(rung)
    requires forall i :: 0 <= i < |events| ==> Offered(events[i])
    ensures end == rung <==> rung in {REGISTERED, VERIFIED} && events == [Transition.Register] + Ladder(rung)
  {
    hide Trace;
    OfferedTraceIsShort(UNREGISTERED, events, end);
    LadderIsClimbed(events, end, rung);
    if Climbs(events, rung) {
      var first := if EndsWith(events, [Transition.Register] + Ladder(rung)) then Transition.Register else Reactivate;
      var at := |events| - |[first] + Ladder(rung)|;
      assert events[at] == first;
    }
  }

  /** The service climbs no further than VERIFIED: from an empty table no agent is ever attested or
      established, and one that is registered or verified was never suspended. */
  lemma ReachableStatuses(requests: seq<Request>, end: Db, id: string, rung: AgentStatus)
    requires Run(Db(map[], []), requests, end) && OnLadder(rung)
    ensures StatusIn(end, id) == rung <==>
            rung in {REGISTERED, VERIFIED} && History(Db(map[], []), requests, id) == [Transition.Register] + Ladder(rung)
  {
    HistoryIsTrace(Db(map[], []), requests, end, id);
    HistoryIsOffered(Db(map[], []), requests, id);
    OfferedRungs(History(Db(map[], []), requests, id), StatusIn(end, id), rung);
  }

  /** The time of the latest verification that a run carries out. */
  function VerifiedAt(db: Db, requests: seq<Request>, id: string, before: Option<int>): Option<int>
    decreases |requests|
  {
    if requests == [] then before
    else
      var step := requests[0];
      VerifiedAt(Served(db, step), requests[1..], id,
                 if step.id == id && Effective(db, step) && step.VerifyAgent? then Some(step.now) else before)
  }

  function TimeIn(db: Db, id: string): Option<int> {
    if id in db.agents then db.agents[id].kyaVerifiedAt else None
  }

  lemma {:induction false} TimeIsVerification(db: Db, requests: seq<Request>, end: Db, id: string)
    requires Run(db, requests, end)
    ensures TimeIn(end, id) == VerifiedAt(db, requests, id, TimeIn(db, id))
    decreases |requests|
  {
    if requests != [] {
      TimeIsVerification(Served(db, requests[0]), requests[1..], end, id);
    }
  }

  /** Every verified agent of a table has a verification time. */
  predicate VerifiedHaveTimes(db: Db) {
    forall id :: id in db.agents && db.agents[id].status == VERIFIED ==> db.agents[id].kyaVerifiedAt.Some?
  }

  lemma {:induction false} VerifiedKeepTimes(db: Db, requests: seq<Request>, end: Db)
    requires VerifiedHaveTimes(db) && Run(db, requests, end)
    ensures VerifiedHaveTimes(end)
    decreases |requests|
  {
    if requests != [] {
      VerifiedKeepTimes(Served(db, requests[0]), requests[1..], end);
    }
  }

  /** A revoked agent's row never changes again. */
  lemma {:induction false} RevokedForever(db: Db, requests: seq<Request>, end: Db, id: string)
    requires Run(db, requests, end) && StatusIn(db, id) == REVOKED
    ensures id in end.agents && end.agents[id] == db.agents[id]
    decreases |requests|
  {
    if requests != [] {
      RevokedForever(Served(db, requests[0]), requests[1..], end, id);
    }
  }

  // ----- The event stream -----

  /** What the stream says about one agent. */
  function Announced(events: seq<TrustEvent>, id: string): seq<Transition> {
    if events == [] then []
    else
      var last := events[|events| - 1];
      Announced(events[..|events| - 1], id)
      + if last.agentId != id then [] else if last.AgentRegistered? then [Transition.Register] else [Transition.Revoke]
  }

  function Announceable(history: seq<Transition>): seq<Transition> {
    if history == [] then []
    else (if history[0] in {Transition.Register, Transition.Revoke} then [history[0]] else []) + Announceable(history[1..])
  }

  predicate AllPublished(requests: seq<Request>) {
    forall i :: 0 <= i < |requests| ==> requests[i].RegisterAgent? || requests[i].RevokeAgent? ==> requests[i].published
  }

  function AnnouncedBy(db: Db, request: Request, id: string): seq<Transition> {
    if request.id == id && Effective(db, request) then Announceable([EventFor(request)]) else []
  }

  lemma AnnouncedAppend(events: seq<TrustEvent>, event: TrustEvent, id: string)
    ensures Announced(events + [event], id) ==
            Announced(events, id)
            + if event.agentId != id then [] else if event.AgentRegistered? then [Transition.Register] else [Transition.Revoke]
  {
    assert (events + [event])[..|events|] == events;
  }

  lemma ServedAnnounces(db: Db, request: Request, id: string)
    requires AllPublished([request])
    ensures Announced(Served(db, request).events, id) == Announced(db.events, id) + AnnouncedBy(db, request, id)
  {
    hide Announced;
    assert [request][0].RegisterAgent? || [request][0].RevokeAgent? ==> [request][0].published;
    var next := Served(db, request);
    if next.events != db.events {
      AnnouncedAppend(db.events, next.events[|db.events|], id);
    }
    assert Announceable([EventFor(request)])
        == if EventFor(request) in {Transition.Register, Transition.Revoke} then [EventFor(request)] else [];
    assert Announced(db.events, id) + [] == Announced(db.events, id);
  }

  lemma AnnounceableJoins(left: Transition, right: seq<Transition>)
    ensures Announceable([left] + right) == Announceable([left]) + Announceable(right)
  {
    assert ([left] + right)[1..] == right;
  }

  lemma NothingAnnounceable()
    ensures Announceable([]) == []
  {
  }

  /** When Redis takes every event, the stream tells each agent's registration and revocation, once each and
      in order. */
  lemma {:induction false} StreamTellsHistory(db: Db, requests: seq<Request>, end: Db, id: string)
    requires Run(db, requests, end) && AllPublished(requests)
    ensures Announced(end.events, id) == Announced(db.events, id) + Announceable(History(db, requests, id))
    decreases |requests|
  {
    hide Announced, Served, Effective, Announceable;
    if requests == [] {
      assert Announceable([]) == [] by { NothingAnnounceable(); }
    } else {
      var next := Served(db, requests[0]);
      var rest := History(next, requests[1..], id);
      StreamTellsHistory(next, requests[1..], end, id);
      ServedAnnounces(db, requests[0], id);
      if requests[0].id == id && Effective(db, requests[0]) {
        AnnounceableJoins(EventFor(requests[0]), rest);
      } else {
        assert [] + rest == rest;
        assert Announced(db.events, id) + [] == Announced(db.events, id);
      }
    }
  }
}
