/** The agent lifecycle machine and every trace it allows. */
module Lifecycle {
  import opened Results

  datatype AgentStatus = UNREGISTERED | REGISTERED | VERIFIED | ATTESTED | ESTABLISHED | SUSPENDED | REVOKED

  datatype Transition = Register | Verify | Attest | Establish | Suspend | Reactivate | Revoke

  function Send(status: AgentStatus, event: Transition): Result<AgentStatus> {
    match (status, event)
    case (UNREGISTERED, Register) => Success(REGISTERED)
    case (REGISTERED, Verify) => Success(VERIFIED)
    case (VERIFIED, Attest) => Success(ATTESTED)
    case (ATTESTED, Establish) => Success(ESTABLISHED)
    case (REGISTERED, Suspend) => Success(SUSPENDED)
    case (VERIFIED, Suspend) => Success(SUSPENDED)
    case (ATTESTED, Suspend) => Success(SUSPENDED)
    case (ESTABLISHED, Suspend) => Success(SUSPENDED)
    case (SUSPENDED, Reactivate) => Success(REGISTERED)
    case (UNREGISTERED, Revoke) => Success(REVOKED)
    case (REGISTERED, Revoke) => Success(REVOKED)
    case (VERIFIED, Revoke) => Success(REVOKED)
    case (ATTESTED, Revoke) => Success(REVOKED)
    case (ESTABLISHED, Revoke) => Success(REVOKED)
    case (SUSPENDED, Revoke) => Success(REVOKED)
    case _ => Failure(TransitionNotAllowed)
  }

  /** Each event has one place to start from, except suspension, from any status of an active agent, and
      revocation, from any but revoked; and one status to end in. */
  lemma SendIs(status: AgentStatus, event: Transition)
    ensures Send(status, event).Success? <==>
            match event
            case Register => status == UNREGISTERED
            case Verify => status == REGISTERED
            case Attest => status == VERIFIED
            case Establish => status == ATTESTED
            case Suspend => status != UNREGISTERED && status != SUSPENDED && status != REVOKED
            case Reactivate => status == SUSPENDED
            case Revoke => status != REVOKED
    ensures Send(status, event).Success? ==>
              Send(status, event).value ==
              match event
              case Register => REGISTERED
              case Verify => VERIFIED
              case Attest => ATTESTED
              case Establish => ESTABLISHED
              case Suspend => SUSPENDED
              case Reactivate => REGISTERED
              case Revoke => REVOKED
    ensures Send(status, event).Failure? ==> Send(status, event).error == TransitionNotAllowed
  {
  }

  /** The machine takes `events` one after the other from `start` to `end`. */
  predicate Trace(start: AgentStatus, events: seq<Transition>, end: AgentStatus)
    decreases |events|
  {
    if events == [] then start == end
    else
      var middle := Send(start, events[0]);
      middle.Success? && Trace(middle.value, events[1..], end)
  }

  lemma {:induction false} TraceSplits(start: AgentStatus, events: seq<Transition>, end: AgentStatus) returns (middle: AgentStatus)
    requires events != [] && Trace(start, events, end)
    ensures Trace(start, events[..|events| - 1], middle) && Send(middle, events[|events| - 1]) == Success(end)
    decreases |events|
  {
    var n := |events| - 1;
    if n == 0 {
      middle := start;
    } else {
      var next := Send(start, events[0]).value;
      middle := TraceSplits(next, events[1..], end);
      assert events[..n][1..] == events[1..][..n - 1];
    }
  }

  /** The events that lead up the ladder to a status; none for a status off the ladder. */
  function Ladder(status: AgentStatus): seq<Transition> {
    match status
    case VERIFIED => [Verify]
    case ATTESTED => [Verify, Attest]
    case ESTABLISHED => [Verify, Attest, Establish]
    case _ => []
  }

  predicate EndsWith(events: seq<Transition>, suffix: seq<Transition>) {
    |suffix| <= |events| && events[|events| - |suffix|..] == suffix
  }

  /** A (re-)registration followed by the whole climb to `status`. */
  predicate Climbs(events: seq<Transition>, status: AgentStatus) {
    EndsWith(events, [Register] + Ladder(status)) || EndsWith(events, [Reactivate] + Ladder(status))
  }

  predicate OnLadder(status: AgentStatus) {
    status in {REGISTERED, VERIFIED, ATTESTED, ESTABLISHED}
  }

  lemma NothingClimbed(end: AgentStatus, rung: AgentStatus)
    requires Trace(UNREGISTERED, [], end) && OnLadder(rung)
    ensures end != rung && !Climbs([], rung)
  {
  }

  lemma FirstRung(events: seq<Transition>)
    requires events != []
    ensures Climbs(events, REGISTERED) <==> events[|events| - 1] in {Register, Reactivate}
  {
    assert events[|events| - 1..] == [events[|events| - 1]];
  }

  function Below(rung: AgentStatus): AgentStatus {
    match rung
    case ESTABLISHED => ATTESTED
    case ATTESTED => VERIFIED
    case _ => REGISTERED
  }

  function RungEvent(rung: AgentStatus): Transition {
    match rung
    case ESTABLISHED => Establish
    case ATTESTED => Attest
    case _ => Verify
  }

  lemma EndsWithOneMore(events: seq<Transition>, suffix: seq<Transition>, last: Transition)
    requires events != []
    ensures EndsWith(events, suffix + [last]) <==>
            events[|events| - 1] == last && EndsWith(events[..|events| - 1], suffix)
  {
    var n := |events| - 1;
    if |suffix| <= n {
      assert events[n - |suffix|..] == events[..n][n - |suffix|..] + [events[n]];
      if events[n - |suffix|..] == suffix + [last] {
        assert events[..n][n - |suffix|..] == (suffix + [last])[..|suffix|];
      }
    }
  }

  lemma ClimbOneRung(events: seq<Transition>, rung: AgentStatus)
    requires events != [] && OnLadder(rung) && rung != REGISTERED
    ensures Climbs(events, rung) <==>
            events[|events| - 1] == RungEvent(rung) && Climbs(events[..|events| - 1], Below(rung))
  {
    hide EndsWith;
    assert Ladder(rung) == Ladder(Below(rung)) + [RungEvent(rung)];
    assert [Register] + Ladder(rung) == ([Register] + Ladder(Below(rung))) + [RungEvent(rung)];
    assert [Reactivate] + Ladder(rung) == ([Reactivate] + Ladder(Below(rung))) + [RungEvent(rung)];
    EndsWithOneMore(events, [Register] + Ladder(Below(rung)), RungEvent(rung));
    EndsWithOneMore(events, [Reactivate] + Ladder(Below(rung)), RungEvent(rung));
  }

  /** A trace ends in a status on the ladder exactly when it ends with a registration or a reactivation and
      then every rung up to that status: nothing before a suspension counts. */
  lemma {:induction false} LadderIsClimbed(events: seq<Transition>, end: AgentStatus, rung: AgentStatus)
    requires Trace(UNREGISTERED, events, end) && OnLadder(rung)
    ensures end == rung <==> Climbs(events, rung)
    decreases |events|
  {
    hide Trace, EndsWith, Climbs, Ladder;
    if events == [] {
      NothingClimbed(end, rung);
    } else {
      var n := |events| - 1;
      var middle := TraceSplits(UNREGISTERED, events, end);
      FirstRung(events);
      if rung != REGISTERED {
        LadderIsClimbed(events[..n], middle, Below(rung));
        ClimbOneRung(events, rung);
      }
    }
  }

  /** Established means: registered or reactivated, then verified, attested and established, last of all. */
  lemma EstablishedTraces(events: seq<Transition>, end: AgentStatus)
    requires Trace(UNREGISTERED, events, end)
    ensures end == ESTABLISHED <==>
            EndsWith(events, [Register, Verify, Attest, Establish]) || EndsWith(events, [Reactivate, Verify, Attest, Establish])
  {
    hide Trace, EndsWith;
    LadderIsClimbed(events, end, ESTABLISHED);
    assert [Register] + Ladder(ESTABLISHED) == [Register, Verify, Attest, Establish];
    assert [Reactivate] + Ladder(ESTABLISHED) == [Reactivate, Verify, Attest, Establish];
  }

  /** Nothing follows a revocation. */
  lemma {:induction false} RevokedIsFinal(start: AgentStatus, events: seq<Transition>, end: AgentStatus, i: nat)
    requires Trace(start, events, end) && i < |events|
    ensures start != REVOKED
    ensures events[i] == Revoke <==> i == |events| - 1 && end == REVOKED
    decreases |events|
  {
    var next := Send(start, events[0]).value;
    if |events| > 1 {
      RevokedIsFinal(next, events[1..], end, if i == 0 then 0 else i - 1);
    }
  }

  lemma OneEvent(start: AgentStatus, event: Transition, rest: seq<Transition>, end: AgentStatus)
    requires Send(start, event).Success? && Trace(Send(start, event).value, rest, end)
    ensures Trace(start, [event] + rest, end)
  {
    assert ([event] + rest)[1..] == rest;
  }

  /** Every status can be reached, and an established agent can be suspended, brought back and established
      again. */
  lemma EveryStatusReached()
    ensures Trace(UNREGISTERED, [Register, Verify, Attest, Establish], ESTABLISHED)
    ensures Trace(ESTABLISHED, [Suspend, Reactivate, Verify, Attest, Establish], ESTABLISHED)
    ensures Trace(ESTABLISHED, [Revoke], REVOKED)
  {
    OneEvent(ATTESTED, Establish, [], ESTABLISHED);
    OneEvent(VERIFIED, Attest, [Establish], ESTABLISHED);
    OneEvent(REGISTERED, Verify, [Attest, Establish], ESTABLISHED);
    OneEvent(UNREGISTERED, Register, [Verify, Attest, Establish], ESTABLISHED);
    OneEvent(SUSPENDED, Reactivate, [Verify, Attest, Establish], ESTABLISHED);
    OneEvent(ESTABLISHED, Suspend, [Reactivate, Verify, Attest, Establish], ESTABLISHED);
    OneEvent(ESTABLISHED, Revoke, [], REVOKED);
  }
}
