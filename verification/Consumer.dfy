/** The behavioural stream consumer: it reads session events in batches, folds each into its agent's
    stored baseline, caches a score and acknowledges. A Redis command may fail; the loop then goes
    on with the next message. One worker runs, and a message is delivered once. */
module Consumer {
  import opened Results
  import opened RealFacts
  import opened Baselines
  import opened Scoring

  const BATCH_SIZE: nat := 50

  /** The metrics of an event, or nothing when they do not parse. */
  datatype Message = Message(agentId: string, metrics: Option<SessionMetrics>)

  datatype ScoreEntry = ScoreEntry(anomalyScore: real, totalSessions: int)

  /** The Redis command of a message's processing that fails, if one does. */
  datatype Fault = NoFault | AtLoad | AtBaselineWrite | AtScoreWrite | AtAck

  datatype Store = Store(baselines: map<string, AgentBaseline>, scores: map<string, ScoreEntry>, acked: set<nat>) {
    function Baseline(agentId: string): Option<AgentBaseline> {
      if agentId in baselines then Some(baselines[agentId]) else None
    }
  }

  const EMPTY_STORE := Store(map[], map[], {})

  // ----- What one message does -----

  predicate Readable(message: Message) {
    message.metrics.Some? && WellFormed(message.metrics.value)
  }

  /** The message's metrics reach the stored baseline. */
  predicate Incorporated(message: Message, fault: Fault) {
    Readable(message) && fault != AtLoad && fault != AtBaselineWrite
  }

  predicate Completed(message: Message, fault: Fault) {
    Readable(message) && fault == NoFault
  }

  lemma FreshIsScorable(sqrt: RealFunction, baseline: AgentBaseline, session: SessionMetrics)
    requires WellFormed(session)
    ensures Scorable(sqrt, baseline, session)
  {
  }

  /** The score of a session against the baseline that already includes it. */
  function ScoreOf(sqrt: RealFunction, baseline: AgentBaseline, session: SessionMetrics): ScoreEntry
    requires WellFormed(session)
  {
    FreshIsScorable(sqrt, baseline, session);
    ScoreEntry(if baseline.totalSessions < COLD_START_THRESHOLD then COLD_START_SCORE
               else AnomalyScore(sqrt, ZScores(sqrt, baseline, session)),
               baseline.totalSessions)
  }

  function Handled(sqrt: RealFunction, store: Store, index: nat, message: Message, fault: Fault): Store {
    if !Incorporated(message, fault) then store else
      var session := message.metrics.value;
      var baseline := Updated(OrFresh(store.Baseline(message.agentId)), session);
      var folded := store.(baselines := store.baselines[message.agentId := baseline]);
      if fault == AtScoreWrite then folded else
        var scored := folded.(scores := folded.scores[message.agentId := ScoreOf(sqrt, baseline, session)]);
        if fault == AtAck then scored else scored.(acked := scored.acked + {index})
  }

  /** The store after the first `k` messages of the stream. */
  function Replay(sqrt: RealFunction, stream: seq<Message>, faults: nat -> Fault, k: nat): Store
    requires k <= |stream|
  {
    if k == 0 then EMPTY_STORE
    else Handled(sqrt, Replay(sqrt, stream, faults, k - 1), k - 1, stream[k - 1], faults(k - 1))
  }

  function CompletedBetween(stream: seq<Message>, faults: nat -> Fault, lo: nat, hi: nat): nat
    requires lo <= hi <= |stream|
  {
    if lo == hi then 0
    else CompletedBetween(stream, faults, lo, hi - 1) + if Completed(stream[hi - 1], faults(hi - 1)) then 1 else 0
  }

  lemma {:induction false} ReplayIgnoresLater(sqrt: RealFunction, stream: seq<Message>, later: seq<Message>,
                                              faults: nat -> Fault, k: nat)
    requires k <= |stream|
    ensures Replay(sqrt, stream + later, faults, k) == Replay(sqrt, stream, faults, k)
  {
    if k > 0 {
      ReplayIgnoresLater(sqrt, stream, later, faults, k - 1);
    }
  }

  class Worker {
    const sqrt: RealFunction
    const faults: nat -> Fault
    var stream: seq<Message>
    var delivered: nat
    var store: Store

    /** However the stream was cut into batches, the store is that of handling it message by message. */
    ghost predicate Valid()
      reads this
    {
      delivered <= |stream| && store == Replay(sqrt, stream, faults, delivered)
    }

    constructor (sqrt: RealFunction, faults: nat -> Fault)
      ensures Valid() && this.sqrt == sqrt && this.faults == faults && stream == [] && delivered == 0
    {
      this.sqrt := sqrt;
      this.faults := faults;
      stream := [];
      delivered := 0;
      store := EMPTY_STORE;
    }

    method Publish(message: Message)
      requires Valid()
      modifies this`stream
      ensures Valid() && stream == old(stream) + [message]
    {
      ReplayIgnoresLater(sqrt, stream, [message], faults, delivered);
      stream := stream + [message];
    }

    /** One message; a failure anywhere leaves what was written before it. */
    method Handle(index: nat) returns (done: bool)
      requires index < |stream|
      modifies this`store
      ensures store == Handled(sqrt, old(store), index, stream[index], faults(index))
      ensures done <==> Completed(stream[index], faults(index))
    {
      var message, fault := stream[index], faults(index);
      if message.metrics.None? || fault == AtLoad {
        return false;
      }
      var current := store.Baseline(message.agentId);
      var updated := UpdateBaseline(current, message.metrics.value);
      if updated.Failure? || fault == AtBaselineWrite {
        return false;
      }
      var baseline := updated.value;
      store := store.(baselines := store.baselines[message.agentId := baseline]);
      var score;
      if baseline.totalSessions < COLD_START_THRESHOLD {
        score := COLD_START_SCORE;
      } else {
        FreshIsScorable(sqrt, baseline, message.metrics.value);
        var zScores := ComputeZScores(sqrt, baseline, message.metrics.value);
        score := AnomalyScore(sqrt, zScores.value);
      }
      if fault == AtScoreWrite {
        return false;
      }
      store := store.(scores := store.scores[message.agentId := ScoreEntry(score, baseline.totalSessions)]);
      if fault == AtAck {
        return false;
      }
      store := store.(acked := store.acked + {index});
      done := true;
    }

    /** One call handles the next messages, at most a batch of them, and counts the completed ones. */
    method ProcessSessionEvents() returns (processed: nat)
      requires Valid()
      modifies this`delivered, this`store
      ensures Valid()
      ensures delivered == if |stream| - old(delivered) < 50 then |stream| else old(delivered) + 50
      ensures processed == CompletedBetween(stream, faults, old(delivered), delivered)
    {
      hide Handled;
      var first := delivered;
      var last := if |stream| - delivered < BATCH_SIZE then |stream| else delivered + BATCH_SIZE;
      delivered := last;
      processed := 0;
      for i := first to last
        invariant delivered == last
        invariant store == Replay(sqrt, stream, faults, i)
        invariant processed == CompletedBetween(stream, faults, first, i)
      {
        var done := Handle(i);
        if done {
          processed := processed + 1;
        }
      }
    }
  }

  // ----- Every run -----

  /** The sessions of one agent that reached its baseline, in stream order. */
  function SessionsOf(stream: seq<Message>, faults: nat -> Fault, k: nat, agentId: string): (r: seq<SessionMetrics>)
    requires k <= |stream|
    ensures forall i :: 0 <= i < |r| ==> WellFormed(r[i])
  {
    if k == 0 then [] else
      var before := SessionsOf(stream, faults, k - 1, agentId);
      if stream[k - 1].agentId == agentId && Readable(stream[k - 1]) && faults(k - 1) in {NoFault, AtScoreWrite, AtAck}
      then before + [stream[k - 1].metrics.value] else before
  }

  function Folded(sessions: seq<SessionMetrics>): (r: Option<AgentBaseline>)
    requires forall i :: 0 <= i < |sessions| ==> WellFormed(sessions[i])
    ensures r.Some? <==> sessions != []
  {
    if sessions == [] then None
    else Some(Updated(OrFresh(Folded(sessions[..|sessions| - 1])), sessions[|sessions| - 1]))
  }

  /** In every run, an agent's stored baseline is the fold of its own incorporated sessions in stream
      order, each once, whatever other agents' messages and failures are in between. */
  lemma {:induction false} StoreIsFold(sqrt: RealFunction, stream: seq<Message>, faults: nat -> Fault, k: nat, agentId: string)
    requires k <= |stream|
    ensures Replay(sqrt, stream, faults, k).Baseline(agentId) == Folded(SessionsOf(stream, faults, k, agentId))
  {
    hide ScoreOf, Updated, WellFormed, OrFresh;
    if k > 0 {
      StoreIsFold(sqrt, stream, faults, k - 1, agentId);
      var before, session := SessionsOf(stream, faults, k - 1, agentId), stream[k - 1].metrics;
      if stream[k - 1].agentId == agentId && Incorporated(stream[k - 1], faults(k - 1)) {
        assert (before + [session.value])[..|before|] == before;
      }
    }
  }

  /** Exactly the completed messages are acknowledged, so every acknowledged one is in a baseline. */
  lemma {:induction false} AckedIsCompleted(sqrt: RealFunction, stream: seq<Message>, faults: nat -> Fault, k: nat, i: nat)
    requires k <= |stream|
    ensures i in Replay(sqrt, stream, faults, k).acked <==> i < k && Completed(stream[i], faults(i))
    ensures i in Replay(sqrt, stream, faults, k).acked <==> i < k && Readable(stream[i]) && faults(i) == NoFault
  {
    if k > 0 {
      AckedIsCompleted(sqrt, stream, faults, k - 1, i);
    }
  }

  function ValuesOf(sessions: seq<SessionMetrics>, m: Metric): (xs: seq<real>)
    requires forall i :: 0 <= i < |sessions| ==> WellFormed(sessions[i])
    ensures |xs| == |sessions|
  {
    if sessions == [] then []
    else ValuesOf(sessions[..|sessions| - 1], m) + [MetricOf(sessions[|sessions| - 1], m)]
  }

  /** Every metric of a folded baseline is the history of its values, and every count is the number of
      sessions. */
  lemma {:induction false} FoldedIsHistory(sessions: seq<SessionMetrics>, m: Metric)
    requires sessions != [] && forall i :: 0 <= i < |sessions| ==> WellFormed(sessions[i])
    ensures var b := Folded(sessions).value;
            && m in b.metrics && b.metrics[m] == History(ValuesOf(sessions, m))
            && b.totalSessions == |sessions| == b.metrics[m].count
  {
    hide UpdateStats, MetricOf, ExtractMetricValue;
    var n := |sessions| - 1;
    var front, value := sessions[..n], MetricOf(sessions[n], m);
    AllTracked();
    assert ValuesOf(sessions, m)[..n] == ValuesOf(front, m);
    if n > 0 {
      FoldedIsHistory(front, m);
    }
  }

  predicate ScoreInRange(entry: ScoreEntry) {
    if entry.totalSessions < 5 then entry.anomalyScore == 0.5
    else 0.0 <= entry.anomalyScore < 1.0 && Squared(4.0 * entry.anomalyScore) <= Z_SQUARED_BOUND
  }

  predicate WithinBound(zs: seq<real>) {
    forall i :: 0 <= i < |zs| ==> Squared(zs[i]) <= Z_SQUARED_BOUND
  }

  lemma EntryInRange(sqrt: RealFunction, baseline: AgentBaseline, session: SessionMetrics)
    requires IsSqrt(sqrt) && WellFormed(session) && Scorable(sqrt, baseline, session)
    requires baseline.totalSessions >= COLD_START_THRESHOLD ==> WithinBound(ZScores(sqrt, baseline, session))
    ensures ScoreInRange(ScoreOf(sqrt, baseline, session))
  {
    if baseline.totalSessions >= COLD_START_THRESHOLD {
      ScoreBound(sqrt, ZScores(sqrt, baseline, session));
    }
  }

  lemma SessionZBound(sqrt: RealFunction, sessions: seq<SessionMetrics>, m: Metric)
    requires IsSqrt(sqrt) && |sessions| > 1 && forall i :: 0 <= i < |sessions| ==> WellFormed(sessions[i])
    ensures Squared(MetricZ(sqrt, Folded(sessions).value, sessions[|sessions| - 1], m).value) <= Z_SQUARED_BOUND
  {
    var n := |sessions| - 1;
    var xs, x := ValuesOf(sessions[..n], m), MetricOf(sessions[n], m);
    FoldedIsHistory(sessions, m);
    assert ValuesOf(sessions, m) == xs + [x];
    if Scored(sqrt, History(xs + [x])) {
      TightZScoreOfHistory(sqrt, xs, x);
    }
  }

  lemma SessionZsBound(sqrt: RealFunction, sessions: seq<SessionMetrics>)
    requires IsSqrt(sqrt) && |sessions| > 1 && forall i :: 0 <= i < |sessions| ==> WellFormed(sessions[i])
    requires Scorable(sqrt, Folded(sessions).value, sessions[|sessions| - 1])
    ensures WithinBound(ZScores(sqrt, Folded(sessions).value, sessions[|sessions| - 1]))
  {
    var zs := ZScores(sqrt, Folded(sessions).value, sessions[|sessions| - 1]);
    forall i | 0 <= i < |zs|
      ensures Squared(zs[i]) <= Z_SQUARED_BOUND
    {
      SessionZBound(sqrt, sessions, TRACKED[i]);
    }
  }

  /** A non-empty list of sessions is scored within the bound, whatever its last session. */
  lemma FoldedScoreInRange(sqrt: RealFunction, sessions: seq<SessionMetrics>)
    requires IsSqrt(sqrt) && sessions != [] && forall i :: 0 <= i < |sessions| ==> WellFormed(sessions[i])
    ensures ScoreInRange(ScoreOf(sqrt, Folded(sessions).value, sessions[|sessions| - 1]))
  {
    var b, last := Folded(sessions).value, sessions[|sessions| - 1];
    FreshIsScorable(sqrt, b, last);
    if b.totalSessions >= COLD_START_THRESHOLD {
      FoldedIsHistory(sessions, DeadEndCount);
      SessionZsBound(sqrt, sessions);
    }
    EntryInRange(sqrt, b, last);
  }

  /** The metric is scored and its values before the last session were all equal. */
  predicate DepartsFromConstant(sqrt: RealFunction, sessions: seq<SessionMetrics>, m: Metric)
    requires sessions != [] && forall i :: 0 <= i < |sessions| ==> WellFormed(sessions[i])
  {
    var xs := ValuesOf(sessions, m);
    Scored(sqrt, History(xs)) && forall i :: 0 <= i < |xs| - 1 ==> xs[i] == xs[0]
  }

  lemma ConstantPrefix(xs: seq<real>, x: real)
    requires xs != []
    ensures (forall i :: 0 <= i < |xs + [x]| - 1 ==> (xs + [x])[i] == (xs + [x])[0])
            <==> forall i :: 0 <= i < |xs| ==> xs[i] == xs[0]
  {
    assert forall i :: 0 <= i < |xs| ==> (xs + [x])[i] == xs[i];
  }

  lemma SessionZTight(sqrt: RealFunction, sessions: seq<SessionMetrics>, m: Metric)
    requires IsSqrt(sqrt) && |sessions| > 1 && forall i :: 0 <= i < |sessions| ==> WellFormed(sessions[i])
    ensures Squared(MetricZ(sqrt, Folded(sessions).value, sessions[|sessions| - 1], m).value) == Z_SQUARED_BOUND
            <==> DepartsFromConstant(sqrt, sessions, m)
  {
    hide Squared, ZScore, Scored, History, Folded, IsSqrt;
    var n := |sessions| - 1;
    var xs, x := ValuesOf(sessions[..n], m), MetricOf(sessions[n], m);
    FoldedIsHistory(sessions, m);
    assert ValuesOf(sessions, m) == xs + [x];
    ConstantPrefix(xs, x);
    if Scored(sqrt, History(xs + [x])) {
      TightZScoreOfHistory(sqrt, xs, x);
    } else {
      SquaredSign(0.0);
    }
  }

  /** The composite bound is met exactly when all four metrics are scored and each departs from a constant
      history at once. */
  lemma FoldedScoreTight(sqrt: RealFunction, sessions: seq<SessionMetrics>)
    requires IsSqrt(sqrt) && |sessions| >= COLD_START_THRESHOLD
    requires forall i :: 0 <= i < |sessions| ==> WellFormed(sessions[i])
    ensures Squared(4.0 * ScoreOf(sqrt, Folded(sessions).value, sessions[|sessions| - 1]).anomalyScore) == Z_SQUARED_BOUND
            <==> forall m: Metric :: DepartsFromConstant(sqrt, sessions, m)
  {
    hide Squared, MetricZ, DepartsFromConstant, Folded, AnomalyScore, MeanSquare;
    var b, last := Folded(sessions).value, sessions[|sessions| - 1];
    FreshIsScorable(sqrt, b, last);
    FoldedIsHistory(sessions, DeadEndCount);
    SessionZsBound(sqrt, sessions);
    var zs := ZScores(sqrt, b, last);
    ScoreBound(sqrt, zs);
    MeanSquareTight(zs, Z_SQUARED_BOUND);
    AllTracked();
    forall m: Metric
      ensures Squared(MetricZ(sqrt, b, last, m).value) == Z_SQUARED_BOUND <==> DepartsFromConstant(sqrt, sessions, m)
    {
      SessionZTight(sqrt, sessions, m);
    }
    if forall i :: 0 <= i < |zs| ==> Squared(zs[i]) == Z_SQUARED_BOUND {
      forall m: Metric
        ensures DepartsFromConstant(sqrt, sessions, m)
      {
        assert m in TRACKED;
        var i :| 0 <= i < |TRACKED| && TRACKED[i] == m;
        assert zs[i] == MetricZ(sqrt, b, last, m).value;
      }
    }
  }

  // ----- The score of a session -----

  /** The z-score of one metric of the last session, against the history that ends with it. */
  function LastZ(sqrt: RealFunction, sessions: seq<SessionMetrics>, m: Metric): real
    requires sessions != [] && forall i :: 0 <= i < |sessions| ==> WellFormed(sessions[i])
  {
    ZScore(sqrt, History(ValuesOf(sessions, m)), MetricOf(sessions[|sessions| - 1], m))
  }

  lemma UnscoredIsZero(sqrt: RealFunction, stats: MetricStats, value: real)
    ensures !Scored(sqrt, stats) ==> ZScore(sqrt, stats, value) == 0.0
  {
  }

  lemma LastMetricZ(sqrt: RealFunction, sessions: seq<SessionMetrics>, m: Metric)
    requires sessions != [] && forall i :: 0 <= i < |sessions| ==> WellFormed(sessions[i])
    ensures MetricZ(sqrt, Folded(sessions).value, sessions[|sessions| - 1], m) == Success(LastZ(sqrt, sessions, m))
  {
    hide ZScore, Scored, History, Folded, ValuesOf;
    FoldedIsHistory(sessions, m);
    UnscoredIsZero(sqrt, History(ValuesOf(sessions, m)), MetricOf(sessions[|sessions| - 1], m));
  }

  lemma ZsOfSession(sqrt: RealFunction, sessions: seq<SessionMetrics>)
    requires sessions != [] && forall i :: 0 <= i < |sessions| ==> WellFormed(sessions[i])
    ensures var (b, last) := (Folded(sessions).value, sessions[|sessions| - 1]);
            && Scorable(sqrt, b, last)
            && ZScores(sqrt, b, last) == [LastZ(sqrt, sessions, DeadEndCount), LastZ(sqrt, sessions, ToolInvocations),
                                          LastZ(sqrt, sessions, CostUsd), LastZ(sqrt, sessions, DurationMs)]
  {
    hide ZScore, Scored, History, Folded, ValuesOf, LastZ, MetricZ;
    var b, last := Folded(sessions).value, sessions[|sessions| - 1];
    FreshIsScorable(sqrt, b, last);
    forall m: Metric
      ensures MetricZ(sqrt, b, last, m).value == LastZ(sqrt, sessions, m)
    {
      LastMetricZ(sqrt, sessions, m);
    }
  }

  /** `s` is a quarter of the root mean square of four z-scores, and below 1. */
  predicate QuarterRms(s: real, e: real, t: real, c: real, d: real) {
    0.0 <= s < 1.0 && 4.0 * ((4.0 * s) * (4.0 * s)) == e * e + t * t + c * c + d * d
  }

  lemma ScoreWithinBound(sqrt: RealFunction, e: real, t: real, c: real, d: real)
    requires IsSqrt(sqrt) && WithinBound([e, t, c, d])
    ensures QuarterRms(AnomalyScore(sqrt, [e, t, c, d]), e, t, c, d)
  {
    hide Squared, AnomalyScore;
    var zs := [e, t, c, d];
    assert Squared(zs[0]) <= 9.5 && Squared(zs[1]) <= 9.5 && Squared(zs[2]) <= 9.5 && Squared(zs[3]) <= 9.5;
    ScoreOfFour(sqrt, zs);
    ScoreBound(sqrt, zs);
    SquareOf(e);
    SquareOf(t);
    SquareOf(c);
    SquareOf(d);
  }

  /** The score after a list of sessions: 0.5 before the fifth, and from then on a quarter of the root mean
      square of the four z-scores of the last one. */
  lemma SessionScore(sqrt: RealFunction, sessions: seq<SessionMetrics>)
    requires IsSqrt(sqrt) && sessions != [] && forall i :: 0 <= i < |sessions| ==> WellFormed(sessions[i])
    ensures var entry := ScoreOf(sqrt, Folded(sessions).value, sessions[|sessions| - 1]);
            && entry.totalSessions == |sessions|
            && (|sessions| < 5 ==> entry.anomalyScore == 0.5)
            && (|sessions| >= 5 ==>
                  QuarterRms(entry.anomalyScore,
                             LastZ(sqrt, sessions, DeadEndCount), LastZ(sqrt, sessions, ToolInvocations),
                             LastZ(sqrt, sessions, CostUsd), LastZ(sqrt, sessions, DurationMs)))
  {
    hide LastZ, AnomalyScore, History, Folded, ZScores, WithinBound, QuarterRms, IsSqrt;
    FoldedIsHistory(sessions, DeadEndCount);
    ZsOfSession(sqrt, sessions);
    if |sessions| >= 5 {
      SessionZsBound(sqrt, sessions);
      ScoreWithinBound(sqrt, LastZ(sqrt, sessions, DeadEndCount), LastZ(sqrt, sessions, ToolInvocations),
                       LastZ(sqrt, sessions, CostUsd), LastZ(sqrt, sessions, DurationMs));
    }
  }

  // ----- The cached score -----

  /** Message `j` is the latest of the agent's whose score was written, among the first `k`. */
  predicate LatestScored(stream: seq<Message>, faults: nat -> Fault, k: nat, agentId: string, j: nat)
    requires k <= |stream|
  {
    && j < k && stream[j].agentId == agentId && Readable(stream[j]) && faults(j) in {NoFault, AtAck}
    && forall i :: j < i < k && stream[i].agentId == agentId && Readable(stream[i]) ==> faults(i) !in {NoFault, AtAck}
  }

  /** `entry` is the score of message `j`, against the agent's sessions up to it. */
  predicate ScoredAt(sqrt: RealFunction, stream: seq<Message>, faults: nat -> Fault, j: nat, agentId: string, entry: ScoreEntry)
    requires j < |stream|
  {
    var sessions := SessionsOf(stream, faults, j + 1, agentId);
    sessions != [] && entry == ScoreOf(sqrt, Folded(sessions).value, sessions[|sessions| - 1])
  }

  lemma {:induction false} CachedIsLatest(sqrt: RealFunction, stream: seq<Message>, faults: nat -> Fault, k: nat, agentId: string)
    returns (j: Option<nat>)
    requires k <= |stream|
    ensures j.Some? <==> agentId in Replay(sqrt, stream, faults, k).scores
    ensures j.Some? ==> LatestScored(stream, faults, k, agentId, j.value)
                        && ScoredAt(sqrt, stream, faults, j.value, agentId, Replay(sqrt, stream, faults, k).scores[agentId])
    ensures j.None? ==> forall i :: 0 <= i < k ==> !LatestScored(stream, faults, k, agentId, i)
    ensures j.None? ==> forall i :: 0 <= i < k && stream[i].agentId == agentId && Readable(stream[i]) ==> faults(i) !in {NoFault, AtAck}
    decreases k
  {
    hide ScoreOf, Updated, Folded;
    if k == 0 {
      j := None;
    } else if stream[k - 1].agentId == agentId && Readable(stream[k - 1]) && faults(k - 1) in {NoFault, AtAck} {
      StoreIsFold(sqrt, stream, faults, k, agentId);
      j := Some(k - 1);
    } else {
      j := CachedIsLatest(sqrt, stream, faults, k - 1, agentId);
    }
  }

  /** In every run the cached score is that of the agent's latest message whose score was written, and there
      is none exactly when there is no such message. */
  lemma CachedScores(sqrt: RealFunction, stream: seq<Message>, faults: nat -> Fault, k: nat, agentId: string)
    requires IsSqrt(sqrt) && k <= |stream|
    ensures var scores := Replay(sqrt, stream, faults, k).scores;
            && (agentId in scores <==> exists j :: 0 <= j < k && LatestScored(stream, faults, k, agentId, j))
            && (agentId in scores ==>
                  && (forall j :: 0 <= j < k && LatestScored(stream, faults, k, agentId, j) ==>
                        ScoredAt(sqrt, stream, faults, j, agentId, scores[agentId]))
                  && ScoreInRange(scores[agentId]))
  {
    hide Replay, ScoreOf, Readable, Folded, ScoreInRange;
    var latest := CachedIsLatest(sqrt, stream, faults, k, agentId);
    if latest.Some? {
      var j := latest.value;
      forall i | 0 <= i < k && LatestScored(stream, faults, k, agentId, i)
        ensures i == j
      {
      }
      FoldedScoreInRange(sqrt, SessionsOf(stream, faults, j + 1, agentId));
    }
  }
}
